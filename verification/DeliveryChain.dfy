/** The delivery chain of the router: local, forwarded and routed requests each have a store of their own,
    and an answer goes to the first that knows its hop-by-hop id.  The rejecting node at the end takes
    every other answer and drops it.  The local store is keyed by ids that peers chose, the forwarding
    stores by ids of this node. */
module DeliveryChain {
  import opened Common
  import opened Pending

  type Stores = seq<Store>

  /** The first store from k on that holds the id. */
  function FirstHolding(stores: Stores, hh: int, k: nat): (i: nat)
    requires k <= |stores|
    ensures k <= i <= |stores| && (i < |stores| ==> hh in stores[i])
    ensures forall j | k <= j < i :: hh !in stores[j]
    decreases |stores| - k
  {
    if k == |stores| || hh in stores[k] then k else FirstHolding(stores, hh, k + 1)
  }

  /** Where an answer ends: matched by a node's store, or with the rejecting node. */
  datatype Verdict = Matched(node: nat, restored: Restored) | Rejected

  class Chain {
    const nodes: seq<DeliveryNode>

    ghost predicate Valid() {
      forall i, j | 0 <= i < j < |nodes| :: nodes[i] != nodes[j]
    }

    ghost function Values(): Stores
      reads nodes
    {
      seq(|nodes|, i requires 0 <= i < |nodes| reads nodes => nodes[i].reqMap)
    }

    /** Local, forward and routed, in this order; the rejecting node comes after them and stores nothing. */
    constructor (max: nat)
      ensures Valid() && |nodes| == 3 && Values() == [map[], map[], map[]]
      ensures forall n | n in nodes :: fresh(n)
    {
      var local := new DeliveryNode(max);
      var forwarded := new DeliveryNode(max);
      var routed := new DeliveryNode(max);
      nodes := [local, forwarded, routed];
    }

    /** The chain tries each node's lookup and stops at the first that succeeds; that of the rejecting node
        always does. */
    method AnswerMsg(hh: int) returns (verdict: Verdict)
      requires Valid()
      modifies nodes
      ensures var i := FirstHolding(old(Values()), hh, 0);
              if i == |nodes| then verdict == Rejected && Values() == old(Values())
              else
                var e := old(nodes[i].reqMap)[hh];
                && verdict == Matched(i, Restored(e.origHH, e.source, e.message))
                && Values() == old(Values())[i := old(Values())[i] - {hh}]
    {
      ghost var stores := Values();
      var k := 0;
      while k < |nodes|
        invariant 0 <= k <= |nodes| && Values() == stores && forall n | n in nodes :: n.reqMap == old(n.reqMap)
        invariant FirstHolding(stores, hh, 0) == FirstHolding(stores, hh, k)
      {
        var r := nodes[k].Answer(hh);
        assert stores[k] == old(nodes[k].reqMap);
        if r.Some? {
          assert Values() == stores[k := stores[k] - {hh}];
          return Matched(k, r.value);
        }
        assert Values() == stores;
        k := k + 1;
      }
      verdict := Rejected;
    }
  }

  // ----- every run of a whole chain -----

  /** An operation on the store of one node, or an answer that comes to the chain. */
  datatype ChainOp = At(node: nat, op: Op) | Arrive(hh: int)

  type Nodes = seq<Node>

  function StoresOf(c: Nodes): Stores {
    seq(|c|, i requires 0 <= i < |c| => c[i].store)
  }

  predicate Legal(n: nat, op: ChainOp) {
    op.At? ==> op.node < n && !op.op.Reply?
  }

  function ChainStep(c: Nodes, op: ChainOp, max: nat): (r: Nodes)
    requires Legal(|c|, op)
    ensures |r| == |c|
  {
    match op
    case At(k, o) => c[k := Step(c[k], o, max)]
    case Arrive(hh) =>
      var i := FirstHolding(StoresOf(c), hh, 0);
      if i == |c| then c else c[i := Step(c[i], Reply(hh), max)]
  }

  function ChainRun(c: Nodes, ops: seq<ChainOp>, max: nat): (r: Nodes)
    requires forall i | 0 <= i < |ops| :: Legal(|c|, ops[i])
    ensures |r| == |c|
    decreases |ops|
  {
    if ops == [] then c else ChainRun(ChainStep(c, ops[0], max), ops[1..], max)
  }

  predicate ChainFits(c: Nodes) {
    forall i | 0 <= i < |c| :: OwnersFit(c[i]) && MatchesFit(c[i])
  }

  /** In every run of the chain each match restored what its own request had, and no request was matched
      twice, in every store. */
  lemma {:induction false} ChainAnswersFit(c: Nodes, ops: seq<ChainOp>, max: nat)
    requires ChainFits(c) && forall i | 0 <= i < |ops| :: Legal(|c|, ops[i])
    ensures ChainFits(ChainRun(c, ops, max))
    decreases |ops|
  {
    hide OwnersFit, MatchesFit;
    if ops != [] {
      match ops[0] {
        case At(k, o) => StepFits(c[k], o, max);
        case Arrive(hh) =>
          var i := FirstHolding(StoresOf(c), hh, 0);
          if i < |c| {
            StepFits(c[i], Reply(hh), max);
          }
      }
      ChainAnswersFit(ChainStep(c, ops[0], max), ops[1..], max);
    }
  }

  /** Whether serving an answer matched the request with this serial in the store of node k. */
  predicate Reaches(c: Nodes, hh: int, max: nat, k: nat, serial: nat)
    requires k < |c|
  {
    var r := ChainStep(c, Arrive(hh), max);
    |r[k].matched| == |c[k].matched| + 1 && r[k].matched[|c[k].matched|].serial == serial
  }

  /** After any run an answer reaches the request that holds its id in a store if and only if no earlier
      store of the chain holds that id. */
  lemma AnswerReachesUnlessShadowed(c: Nodes, hh: int, max: nat, k: nat)
    requires ChainFits(c) && k < |c| && hh in c[k].store
    ensures Reaches(c, hh, max, k, c[k].owner[hh]) <==> forall j | 0 <= j < k :: hh !in c[j].store
  {
    var i := FirstHolding(StoresOf(c), hh, 0);
    assert StoresOf(c)[k] == c[k].store;
    assert OwnersFit(c[k]);
    assert forall j | 0 <= j < |c| :: StoresOf(c)[j] == c[j].store;
  }

  const NO_NODE := Node(map[], map[], map[], [], [])

  /** A request consumed locally whose sender happened to use an id that this node then gives to a request
      it forwards: the answer to the forwarded one is taken by the local store and returned to the wrong
      peer, and the forwarded request stays unanswered. */
  lemma LocalTakesForwardedAnswer(mine: Msg, theirs: Msg, near: Peer, far: Peer, next: Peer, expire: int, max: nat)
    requires mine.hh > 0
    ensures var c := ChainRun([NO_NODE, NO_NODE], [At(0, Keep(mine, near, expire)),
                                                  At(1, Send(mine.hh, theirs, Some(far), next, expire))], max);
            var r := ChainStep(c, Arrive(mine.hh), max);
            && mine.hh in c[1].store && r[1] == c[1]
            && |r[0].matched| == 1 && r[0].matched[0].restored.source == Some(near)
  {
    var first, second := At(0, Keep(mine, near, expire)), At(1, Send(mine.hh, theirs, Some(far), next, expire));
    var c := ChainStep(ChainStep([NO_NODE, NO_NODE], first, max), second, max);
    assert [first, second][1..] == [second] && [second][1..] == [];
    assert ChainRun(c, [], max) == c;
    assert ChainRun(ChainStep([NO_NODE, NO_NODE], first, max), [second], max) == c;
    assert StoresOf(c)[0] == c[0].store && mine.hh in c[0].store;
  }
}
