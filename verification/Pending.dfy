/** The pending requests of one delivery node: stored under a local hop-by-hop id when forwarded,
    swept for retransmission, and matched once by their answer. */
module Pending {
  import opened Common

  type Peer = nat

  datatype Msg = Msg(hh: int, ee: int, retransmit: bool)

  datatype Req = Req(origHH: int, source: Option<Peer>, dest: Option<Peer>, expire: int, count: nat,
                     message: Option<Msg>)

  type Store = map<int, Req>

  /** Which entries a sweep concerns: those sent to one peer, or those that have expired. */
  datatype Sweep = ByPeer(peer: Peer) | ByAge(now: int)

  predicate Matches(s: Sweep, r: Req) {
    match s
    case ByPeer(p) => r.dest == Some(p)
    case ByAge(now) => r.expire < now
  }

  /** What a match of an answer yields. */
  datatype Restored = Restored(hh: int, source: Option<Peer>, request: Option<Msg>)

  /** `std::map::insert`: an id in flight keeps its entry. */
  function Insert(m: Store, id: int, r: Req): Store {
    if id in m then m else m[id := r]
  }

  function StoreMessage(m: Store, id: int, msg: Msg): Store {
    if id in m then m[id := m[id].(message := Some(msg))] else m
  }

  /** Forward a request under local id `id`.  Ids that are not positive as `int` keep no message. */
  function Forwarded(m: Store, id: int, msg: Msg, source: Option<Peer>, dest: Peer, expire: int): Store {
    var m1 := Insert(m, id, Req(msg.hh, source, Some(dest), expire, 0, None));
    if id > 0 then StoreMessage(m1, id, msg.(hh := id)) else m1
  }

  /** Keep a request that is consumed here, under the hop-by-hop id its sender gave it. */
  function Consumed(m: Store, msg: Msg, source: Peer, expire: int): Store {
    Insert(m, msg.hh, Req(msg.hh, Some(source), None, expire, 0, None))
  }

  function Resent(r: Req, expire: int): Req {
    r.(count := r.count + 1, expire := expire,
       message := if r.message.Some? then Some(r.message.value.(retransmit := true)) else None)
  }

  /** An entry that matches is sent again, or dropped once it was sent again `max` times. */
  function Swept(m: Store, s: Sweep, max: nat, expire: int): Store {
    map id | id in m && !(Matches(s, m[id]) && m[id].count >= max) ::
      if Matches(s, m[id]) then Resent(m[id], expire) else m[id]
  }

  predicate Bounded(m: Store, max: nat) {
    forall id | id in m :: m[id].count <= max
  }

  // ----- the delivery node in place -----

  class DeliveryNode {
    var reqMap: Store
    const max: nat   // retx_max_count

    constructor (max: nat)
      ensures reqMap == map[] && this.max == max
    {
      reqMap := map[];
      this.max := max;
    }

    /** The end of `RequestMsg`: `nextId` and `nextEnd` are what the two generators hand out.  A request
        from a peer always gets the first; a local one gets each only where it has no id yet. */
    method Request(msg: Msg, source: Option<Peer>, dest: Peer, nextId: int, nextEnd: int, expire: int)
      returns (sent: Msg)
      modifies this
      ensures sent == msg.(hh := if source.None? && msg.hh != 0 then msg.hh else nextId,
                           ee := if source.None? && msg.ee == 0 then nextEnd else msg.ee)
      ensures reqMap == Forwarded(old(reqMap), sent.hh, if source.Some? then msg else sent, source, dest, expire)
    {
      var m := msg;
      var id: int;
      if source.Some? {
        id := nextId;
        Add(id, m, source, Some(dest), expire);
        m := m.(hh := id);
      } else {
        if m.hh == 0 {
          m := m.(hh := nextId);
        }
        if m.ee == 0 {
          m := m.(ee := nextEnd);
        }
        id := m.hh;
        Add(id, m, source, Some(dest), expire);
      }
      if id > 0 {
        StoreRequestMessage(id, m);
      }
      sent := m;
    }

    method Add(id: int, msg: Msg, source: Option<Peer>, dest: Option<Peer>, expire: int)
      modifies this
      ensures reqMap == Insert(old(reqMap), id, Req(msg.hh, source, dest, expire, 0, None))
    {
      var r := Req(msg.hh, source, dest, expire, 0, None);
      if id !in reqMap {
        reqMap := reqMap[id := r];
      }
    }

    /** What the local node does with a request from a peer: it is kept under the peer's own id. */
    method Consume(msg: Msg, source: Peer, expire: int)
      modifies this
      ensures reqMap == Consumed(old(reqMap), msg, source, expire)
    {
      Add(msg.hh, msg, Some(source), None, expire);
    }

    method StoreRequestMessage(id: int, msg: Msg)
      modifies this
      ensures reqMap == StoreMessage(old(reqMap), id, msg)
    {
      if id in reqMap {
        reqMap := reqMap[id := reqMap[id].(message := Some(msg))];
      }
    }

    /** The chain's lookup for an answer: restore the id, name the source, release the entry. */
    method Answer(hh: int) returns (r: Option<Restored>)
      modifies this
      ensures hh !in old(reqMap) ==> r == None && reqMap == old(reqMap)
      ensures hh in old(reqMap) ==>
                var e := old(reqMap)[hh];
                r == Some(Restored(e.origHH, e.source, e.message)) && reqMap == old(reqMap) - {hh}
    {
      if hh in reqMap {
        var e := reqMap[hh];
        r := Some(Restored(e.origHH, e.source, e.message));
        reqMap := reqMap - {hh};
      } else {
        r := None;
      }
    }

    /** `ReTransmitCheck`: `Iterate` walks the map in key order, once over every entry.  `resent` lists
        the ids sent again, in that order. */
    method ReTransmitCheck(s: Sweep, expire: int) returns (resent: seq<int>)
      modifies this
      ensures reqMap == Swept(old(reqMap), s, max, expire)
      ensures forall i, j | 0 <= i < j < |resent| :: resent[i] < resent[j]
      ensures forall id :: id in resent <==>
                id in old(reqMap) && Matches(s, old(reqMap)[id]) && old(reqMap)[id].count < max
    {
      var rest := reqMap.Keys;
      ghost var m := reqMap;
      resent := [];
      assert reqMap == HalfSwept(m, rest, s, max, expire);
      while rest != {}
        invariant rest <= m.Keys && reqMap == HalfSwept(m, rest, s, max, expire)
        invariant forall i, j | 0 <= i < j < |resent| :: resent[i] < resent[j]
        invariant forall id :: id in resent <==> id in m && id !in rest && Matches(s, m[id]) && m[id].count < max
        invariant forall id | id in rest && resent != [] :: resent[|resent| - 1] < id
        decreases rest
      {
        LeastKey(rest);
        var id :| Least(rest, id);
        HalfSweptStep(m, rest, id, s, max, expire);
        var r := reqMap[id];
        if Matches(s, r) {
          if r.count < max {
            reqMap := reqMap[id := Resent(r, expire)];
            resent := resent + [id];
          } else {
            reqMap := reqMap - {id};
          }
        }
        rest := rest - {id};
      }
      HalfSweptEnd(m, s, max, expire);
    }
  }

  /** A sweep under way: the entries in `rest` are still to come. */
  ghost function HalfSwept(m: Store, rest: set<int>, s: Sweep, max: nat, expire: int): Store {
    map id | id in m && (id in rest || id in Swept(m, s, max, expire)) ::
      if id in rest then m[id] else Swept(m, s, max, expire)[id]
  }

  lemma HalfSweptStep(m: Store, rest: set<int>, id: int, s: Sweep, max: nat, expire: int)
    requires id in rest && rest <= m.Keys
    ensures id in HalfSwept(m, rest, s, max, expire) && HalfSwept(m, rest, s, max, expire)[id] == m[id]
    ensures HalfSwept(m, rest - {id}, s, max, expire) ==
              if !Matches(s, m[id]) then HalfSwept(m, rest, s, max, expire)
              else if m[id].count < max then HalfSwept(m, rest, s, max, expire)[id := Resent(m[id], expire)]
              else HalfSwept(m, rest, s, max, expire) - {id}
  {
  }

  lemma HalfSweptEnd(m: Store, s: Sweep, max: nat, expire: int)
    ensures HalfSwept(m, {}, s, max, expire) == Swept(m, s, max, expire)
  {
  }

  lemma NonEmpty(keys: set<int>)
    ensures keys != {} ==> exists id :: id in keys
  {
    if forall id :: id !in keys {
      assert keys == {};
    }
  }

  predicate Least(keys: set<int>, id: int) {
    id in keys && forall k | k in keys :: id <= k
  }

  lemma {:induction false} LeastKey(keys: set<int>)
    ensures keys != {} ==> exists id :: Least(keys, id)
  {
    NonEmpty(keys);
    if keys != {} {
      var x :| x in keys;
      var rest := keys - {x};
      assert forall k | k in keys :: k == x || k in rest;
      LeastKey(rest);
      if rest == {} {
        assert Least(keys, x);
      } else {
        var y :| Least(rest, y);
        assert Least(keys, if x <= y then x else y);
      }
    }
  }

  // ----- retransmission is bounded -----

  lemma SweepKeepsBound(m: Store, s: Sweep, max: nat, expire: int)
    requires Bounded(m, max)
    ensures Bounded(Swept(m, s, max, expire), max)
  {
  }

  /** How many more matching sweeps the entries under `ids` can see between them. */
  ghost function Credit(m: Store, ids: set<int>, max: nat): nat
    requires ids <= m.Keys && Bounded(m, max)
  {
    NonEmpty(ids);
    if ids == {} then 0
    else
      var id :| id in ids;
      max + 1 - m[id].count + Credit(m, ids - {id}, max)
  }

  lemma CreditSplits(m: Store, ids: set<int>, id: int, max: nat)
    requires ids <= m.Keys && Bounded(m, max) && id in ids
    ensures Credit(m, ids, max) == max + 1 - m[id].count + Credit(m, ids - {id}, max)
  {
    var first :| first in ids && Credit(m, ids, max) == max + 1 - m[first].count + Credit(m, ids - {first}, max);
    if first != id {
      CreditSplits(m, ids - {first}, id, max);
      CreditSplits(m, ids - {id}, first, max);
      assert ids - {first} - {id} == ids - {id} - {first};
    }
  }

  /** What a sweep takes from one entry: one credit if it matches, the last one if that drops it. */
  lemma EntryCost(m: Store, id: int, s: Sweep, max: nat, expire: int)
    requires id in m && Bounded(m, max)
    ensures var m' := Swept(m, s, max, expire);
            max + 1 - m[id].count ==
              (if id in m' then max + 1 - m'[id].count else 0) + (if Matches(s, m[id]) then 1 else 0)
  {
  }

  lemma CreditGrows(m: Store, ids: set<int>, id: int, max: nat)
    requires ids + {id} <= m.Keys && Bounded(m, max) && id !in ids
    ensures Credit(m, ids + {id}, max) == max + 1 - m[id].count + Credit(m, ids, max)
  {
    CreditSplits(m, ids + {id}, id, max);
    assert ids + {id} - {id} == ids;
  }

  function Matching(m: Store, ids: set<int>, s: Sweep): set<int>
    requires ids <= m.Keys
  {
    set id | id in ids && Matches(s, m[id])
  }

  /** Over any ids of the map, a sweep costs exactly one credit for each matching entry and nothing for
      any other; a dropped entry has no credit left. */
  lemma SweepCost(m: Store, ids: set<int>, s: Sweep, max: nat, expire: int)
    requires ids <= m.Keys && Bounded(m, max)
    ensures Bounded(Swept(m, s, max, expire), max)
    ensures Credit(m, ids, max)
            == Credit(Swept(m, s, max, expire), ids * Swept(m, s, max, expire).Keys, max) + |Matching(m, ids, s)|
  {
    var m' := Swept(m, s, max, expire);
    SweepKeepsBound(m, s, max, expire);
    NonEmpty(ids);
    if ids != {} {
      var id :| id in ids;
      var rest := ids - {id};
      SweepCost(m, rest, s, max, expire);
      assert ids == rest + {id};
      CreditGrows(m, rest, id, max);
      EntryCost(m, id, s, max, expire);
      MatchingGrows(m, rest, id, s);
      if id in m' {
        assert ids * m'.Keys == rest * m'.Keys + {id};
        CreditGrows(m', rest * m'.Keys, id, max);
      } else {
        assert ids * m'.Keys == rest * m'.Keys;
      }
    }
  }

  lemma MatchingGrows(m: Store, ids: set<int>, id: int, s: Sweep)
    requires ids + {id} <= m.Keys && id !in ids
    ensures |Matching(m, ids + {id}, s)| == |Matching(m, ids, s)| + (if Matches(s, m[id]) then 1 else 0)
  {
    if Matches(s, m[id]) {
      assert Matching(m, ids + {id}, s) == Matching(m, ids, s) + {id};
    } else {
      assert Matching(m, ids + {id}, s) == Matching(m, ids, s);
    }
  }

  datatype SweepAt = SweepAt(sweep: Sweep, expire: int)

  function SweptAll(m: Store, sweeps: seq<SweepAt>, max: nat): Store
    decreases |sweeps|
  {
    if sweeps == [] then m else SweptAll(Swept(m, sweeps[0].sweep, max, sweeps[0].expire), sweeps[1..], max)
  }

  /** How often id was pending and matched in a row of sweeps. */
  function MatchedIn(m: Store, sweeps: seq<SweepAt>, max: nat, id: int): nat
    decreases |sweeps|
  {
    if sweeps == [] then 0
    else (if id in m && Matches(sweeps[0].sweep, m[id]) then 1 else 0)
         + MatchedIn(Swept(m, sweeps[0].sweep, max, sweeps[0].expire), sweeps[1..], max, id)
  }

  /** A request outlives a row of sweeps if and only if fewer than max + 1 of them, counting the
      earlier ones, matched it; and then its count is exactly the number of those. */
  lemma {:induction false} SurvivesUntilMax(m: Store, sweeps: seq<SweepAt>, max: nat, id: int)
    requires Bounded(m, max) && id in m
    ensures id in SweptAll(m, sweeps, max) <==> m[id].count + MatchedIn(m, sweeps, max, id) <= max
    ensures id in SweptAll(m, sweeps, max) ==>
              SweptAll(m, sweeps, max)[id].count == m[id].count + MatchedIn(m, sweeps, max, id)
    decreases |sweeps|
  {
    if sweeps != [] {
      var m' := Swept(m, sweeps[0].sweep, max, sweeps[0].expire);
      SweepKeepsBound(m, sweeps[0].sweep, max, sweeps[0].expire);
      if id in m' {
        SurvivesUntilMax(m', sweeps[1..], max, id);
      } else {
        GoneStaysGone(m', sweeps[1..], max, id);
      }
    }
  }

  lemma {:induction false} GoneStaysGone(m: Store, sweeps: seq<SweepAt>, max: nat, id: int)
    requires id !in m
    ensures id !in SweptAll(m, sweeps, max) && MatchedIn(m, sweeps, max, id) == 0
    decreases |sweeps|
  {
    if sweeps != [] {
      GoneStaysGone(Swept(m, sweeps[0].sweep, max, sweeps[0].expire), sweeps[1..], max, id);
    }
  }

  // ----- every answer finds its own request -----

  datatype Op = Send(id: int, msg: Msg, source: Option<Peer>, dest: Peer, expire: int)
              | Keep(msg: Msg, from: Peer, expire: int)
              | Reply(hh: int)
              | Check(sweep: Sweep, expire: int)

  /** A request as it was stored: its id here, what has to come back, and the message to keep. */
  datatype Fwd = Fwd(id: int, origHH: int, source: Option<Peer>, message: Option<Msg>)

  /** A match: the request it was for, the answer's id, what was restored, the request whose message that
      was, and how many requests had been stored by then. */
  datatype Match = Match(serial: nat, hh: int, restored: Restored, carrier: nat, upTo: nat)

  /** A node with its history.  `owner` says which request holds an id in flight, `carrier` which one's
      message its entry keeps. */
  datatype Node = Node(store: Store, owner: map<int, nat>, carrier: map<int, nat>, log: seq<Fwd>,
                       matched: seq<Match>)

  /** The request an operation stores. */
  function Logged(op: Op): Fwd
    requires op.Send? || op.Keep?
  {
    match op
    case Send(id, msg, source, dest, expire) =>
      Fwd(id, msg.hh, source, if id > 0 then Some(msg.(hh := id)) else None)
    case Keep(msg, from, expire) => Fwd(msg.hh, msg.hh, Some(from), None)
  }

  function Held(m: map<int, nat>, id: int, serial: nat): map<int, nat> {
    if id in m then m else m[id := serial]
  }

  function Step(n: Node, op: Op, max: nat): Node {
    match op
    case Send(id, msg, source, dest, expire) =>
      n.(store := Forwarded(n.store, id, msg, source, dest, expire),
         owner := Held(n.owner, id, |n.log|),
         carrier := if id > 0 then n.carrier[id := |n.log|] else Held(n.carrier, id, |n.log|),
         log := n.log + [Logged(op)])
    case Keep(msg, from, expire) =>
      n.(store := Consumed(n.store, msg, from, expire),
         owner := Held(n.owner, msg.hh, |n.log|),
         carrier := Held(n.carrier, msg.hh, |n.log|),
         log := n.log + [Logged(op)])
    case Reply(hh) =>
      if hh !in n.store || hh !in n.owner || hh !in n.carrier then n
      else
        var e := n.store[hh];
        n.(store := n.store - {hh}, owner := n.owner - {hh}, carrier := n.carrier - {hh},
           matched := n.matched + [Match(n.owner[hh], hh, Restored(e.origHH, e.source, e.message),
                                         n.carrier[hh], |n.log|)])
    case Check(sweep, expire) =>
      var store := Swept(n.store, sweep, max, expire);
      var gone := n.store.Keys - store.Keys;
      n.(store := store, owner := n.owner - gone, carrier := n.carrier - gone)
  }

  function Run(n: Node, ops: seq<Op>, max: nat): Node
    decreases |ops|
  {
    if ops == [] then n else Run(Step(n, ops[0], max), ops[1..], max)
  }

  predicate OwnersFit(n: Node) {
    && n.owner.Keys == n.store.Keys == n.carrier.Keys
    && (forall id | id in n.owner :: n.owner[id] < |n.log|
          && n.log[n.owner[id]].id == id && n.log[n.owner[id]].origHH == n.store[id].origHH
          && n.log[n.owner[id]].source == n.store[id].source)
    && (forall i | 0 <= i < |n.matched| :: forall id | id in n.owner :: n.owner[id] != n.matched[i].serial)
  }

  /** Each match restored what its own request had, and no request was matched twice. */
  predicate MatchesFit(n: Node) {
    && (forall i | 0 <= i < |n.matched| :: var m := n.matched[i];
          m.serial < |n.log| && n.log[m.serial].id == m.hh
          && n.log[m.serial].origHH == m.restored.hh && n.log[m.serial].source == m.restored.source)
    && (forall i, j | 0 <= i < j < |n.matched| :: n.matched[i].serial != n.matched[j].serial)
  }

  lemma StepFits(n: Node, op: Op, max: nat)
    requires OwnersFit(n) && MatchesFit(n)
    ensures OwnersFit(Step(n, op, max)) && MatchesFit(Step(n, op, max))
  {
    match op
    case Send(_, _, _, _, _) => SendFits(n, op, max);
    case Keep(_, _, _) => KeepFits(n, op, max);
    case Reply(hh) => ReplyFits(n, hh, max);
    case Check(sweep, expire) => CheckFits(n, op, max);
  }

  lemma SendFits(n: Node, op: Op, max: nat)
    requires OwnersFit(n) && MatchesFit(n) && op.Send?
    ensures OwnersFit(Step(n, op, max)) && MatchesFit(Step(n, op, max))
  {
  }

  lemma KeepFits(n: Node, op: Op, max: nat)
    requires OwnersFit(n) && MatchesFit(n) && op.Keep?
    ensures OwnersFit(Step(n, op, max)) && MatchesFit(Step(n, op, max))
  {
  }

  lemma CheckFits(n: Node, op: Op, max: nat)
    requires OwnersFit(n) && MatchesFit(n) && op.Check?
    ensures OwnersFit(Step(n, op, max)) && MatchesFit(Step(n, op, max))
  {
  }

  lemma ReplyFits(n: Node, hh: int, max: nat)
    requires OwnersFit(n) && MatchesFit(n)
    ensures OwnersFit(Step(n, Reply(hh), max)) && MatchesFit(Step(n, Reply(hh), max))
  {
  }

  /** In every run of forwarding, consuming, sweeping and answering, each answer that matches gets the
      original id and the source of the one request that holds its id, and no request is matched twice. */
  lemma {:induction false} AnswersFindTheirRequests(n: Node, ops: seq<Op>, max: nat)
    requires OwnersFit(n) && MatchesFit(n)
    ensures OwnersFit(Run(n, ops, max)) && MatchesFit(Run(n, ops, max))
    decreases |ops|
  {
    if ops != [] {
      StepFits(n, ops[0], max);
      AnswersFindTheirRequests(Step(n, ops[0], max), ops[1..], max);
    }
  }

  /** A request, forwarded or consumed, becomes the holder of its id if and only if the id was not in
      flight; otherwise the earlier request keeps it, and an answer would go to that one. */
  lemma FreshIdsAreHeld(n: Node, op: Op, max: nat)
    requires OwnersFit(n) && (op.Send? || op.Keep?)
    ensures var r, id := Step(n, op, max), Logged(op).id;
            id in r.owner && (r.owner[id] == |n.log| <==> id !in n.store)
  {
  }

  // ----- whose message an answer brings back -----

  /** The same message, or none, but for the retransmission flag. */
  predicate SameMessage(a: Option<Msg>, b: Option<Msg>) {
    match (a, b)
    case (Some(x), Some(y)) => x.(retransmit := y.retransmit) == y
    case (None, None) => true
    case _ => false
  }

  /** Request k puts a message into the entry of this id. */
  predicate Overwrites(log: seq<Fwd>, id: int, k: nat) {
    k < |log| && log[k].id == id && log[k].message.Some?
  }

  /** The request from which an entry held since `owner` has its message: the last that put one there. */
  predicate Carries(log: seq<Fwd>, id: int, owner: nat, carrier: nat, upTo: nat) {
    && owner <= carrier < upTo <= |log|
    && (carrier == owner || Overwrites(log, id, carrier))
    && forall k | carrier < k < upTo :: !Overwrites(log, id, k)
  }

  predicate CarriersFit(n: Node) {
    && (forall id | id in n.store :: id in n.owner && id in n.carrier
          && Carries(n.log, id, n.owner[id], n.carrier[id], |n.log|)
          && SameMessage(n.store[id].message, n.log[n.carrier[id]].message))
    && (forall i | 0 <= i < |n.matched| :: var m := n.matched[i];
          Carries(n.log, m.hh, m.serial, m.carrier, m.upTo)
          && SameMessage(m.restored.request, n.log[m.carrier].message))
  }

  lemma CarriesOn(log: seq<Fwd>, f: Fwd, id: int, owner: nat, carrier: nat, upTo: nat)
    requires Carries(log, id, owner, carrier, upTo)
    ensures Carries(log + [f], id, owner, carrier, upTo)
    ensures upTo == |log| && !(f.id == id && f.message.Some?) ==> Carries(log + [f], id, owner, carrier, upTo + 1)
    ensures upTo == |log| && f.id == id && f.message.Some? ==> Carries(log + [f], id, owner, |log|, upTo + 1)
  {
    assert forall k: nat | k < |log| :: (log + [f])[k] == log[k];
    assert forall k: nat | k < |log| :: Overwrites(log + [f], id, k) <==> Overwrites(log, id, k);
  }

  lemma StoreCarries(n: Node, op: Op, max: nat)
    requires OwnersFit(n) && CarriersFit(n) && (op.Send? || op.Keep?)
    ensures CarriersFit(Step(n, op, max))
  {
    var r, f := Step(n, op, max), Logged(op);
    hide Carries;
    forall i | 0 <= i < |r.matched|
      ensures var m := r.matched[i];
              Carries(r.log, m.hh, m.serial, m.carrier, m.upTo)
              && m.carrier < |r.log| && SameMessage(m.restored.request, r.log[m.carrier].message)
    {
      var m := n.matched[i];
      CarriesOn(n.log, f, m.hh, m.serial, m.carrier, m.upTo);
      CarrierInLog(n.log, m.hh, m.serial, m.carrier, m.upTo);
    }
    forall id | id in r.store
      ensures id in r.owner && id in r.carrier && Carries(r.log, id, r.owner[id], r.carrier[id], |r.log|)
              && r.carrier[id] < |r.log| && SameMessage(r.store[id].message, r.log[r.carrier[id]].message)
    {
      if id in n.store {
        CarriesOn(n.log, f, id, n.owner[id], n.carrier[id], |n.log|);
        CarrierInLog(n.log, id, n.owner[id], n.carrier[id], |n.log|);
      } else {
        NewCarries(n.log, f);
      }
    }
  }

  lemma CarrierInLog(log: seq<Fwd>, id: int, owner: nat, carrier: nat, upTo: nat)
    requires Carries(log, id, owner, carrier, upTo)
    ensures carrier < |log|
  {
  }

  lemma NewCarries(log: seq<Fwd>, f: Fwd)
    ensures Carries(log + [f], f.id, |log|, |log|, |log| + 1)
  {
  }

  lemma CheckCarries(n: Node, op: Op, max: nat)
    requires OwnersFit(n) && CarriersFit(n) && op.Check?
    ensures CarriersFit(Step(n, op, max))
  {
  }

  lemma ReplyCarries(n: Node, hh: int, max: nat)
    requires OwnersFit(n) && CarriersFit(n)
    ensures CarriersFit(Step(n, Reply(hh), max))
  {
  }

  lemma StepCarries(n: Node, op: Op, max: nat)
    requires OwnersFit(n) && CarriersFit(n)
    ensures CarriersFit(Step(n, op, max))
  {
    match op
    case Send(_, _, _, _, _) => StoreCarries(n, op, max);
    case Keep(_, _, _) => StoreCarries(n, op, max);
    case Reply(hh) => ReplyCarries(n, hh, max);
    case Check(sweep, expire) => CheckCarries(n, op, max);
  }

  /** In every run the message that comes back with a match is, up to the retransmission flag, that of the
      last request stored with one under the id while the entry was held. */
  lemma {:induction false} MatchesBringMessages(n: Node, ops: seq<Op>, max: nat)
    requires OwnersFit(n) && MatchesFit(n) && CarriersFit(n)
    ensures CarriersFit(Run(n, ops, max))
    decreases |ops|
  {
    if ops != [] {
      hide OwnersFit, MatchesFit, CarriersFit;
      StepFits(n, ops[0], max);
      StepCarries(n, ops[0], max);
      MatchesBringMessages(Step(n, ops[0], max), ops[1..], max);
    }
  }

  /** So it is the message of the matched request itself if and only if no later request was forwarded
      under the same id while that request held it. */
  lemma OwnMessageUnlessReused(n: Node, i: nat)
    requires CarriersFit(n) && i < |n.matched|
    ensures var m := n.matched[i];
            m.carrier == m.serial <==> forall k | m.serial < k < m.upTo :: !Overwrites(n.log, m.hh, k)
  {
  }

  /** A run where it is not: a second request forwarded under an id in flight is not stored, but its
      message is, and the answer returns it to the source of the first. */
  lemma ReusedIdSwapsMessages(first: Msg, second: Msg, near: Peer, far: Peer, dest: Peer, id: int, max: nat)
    requires id > 0
    ensures var ops := [Send(id, first, Some(near), dest, 0), Send(id, second, Some(far), dest, 0), Reply(id)];
            var r := Run(Node(map[], map[], map[], [], []), ops, max);
            |r.matched| == 1
            && r.matched[0].restored == Restored(first.hh, Some(near), Some(second.(hh := id)))
  {
    var one, two, three := Send(id, first, Some(near), dest, 0), Send(id, second, Some(far), dest, 0), Reply(id);
    assert [one, two, three][1..] == [two, three] && [two, three][1..] == [three] && [three][1..] == [];
    var n := Node(map[], map[], map[], [], []);
    var n1 := Step(n, one, max);
    var n2 := Step(n1, two, max);
    var n3 := Step(n2, three, max);
    assert Run(n, [one, two, three], max) == Run(n1, [two, three], max) == Run(n2, [three], max) == Run(n3, [], max);
  }

  // ----- which requests are sent again -----

  /** A sweep by age sends a request again exactly if it expired before the sweep and has attempts left, drops it
      exactly if it expired and has none, and leaves every other as it is. */
  lemma AgedAreSentAgain(m: Store, now: int, max: nat, expire: int, id: int)
    requires id in m
    ensures var swept, r := Swept(m, ByAge(now), max, expire), m[id];
            && (id !in swept <==> r.expire < now && r.count >= max)
            && (id in swept ==>
                  && (swept[id].count == r.count + 1 <==> r.expire < now)
                  && SentAgain(r, swept[id], expire, r.expire < now))
  {
  }

  /** A sweep for a peer sends again, or drops, exactly the requests that went to it. */
  lemma PeersAreSentAgain(m: Store, peer: Peer, max: nat, expire: int, id: int)
    requires id in m
    ensures var swept, r := Swept(m, ByPeer(peer), max, expire), m[id];
            && (id !in swept <==> r.dest == Some(peer) && r.count >= max)
            && (id in swept ==>
                  && (swept[id].count == r.count + 1 <==> r.dest == Some(peer))
                  && SentAgain(r, swept[id], expire, r.dest == Some(peer)))
  {
  }

  /** What is sent again counts, has a new expiry and carries the retransmission flag from then on. */
  predicate SentAgain(before: Req, after: Req, expire: int, again: bool) {
    if !again then after == before
    else
      && after.count == before.count + 1 && after.expire == expire
      && after.origHH == before.origHH && after.source == before.source && after.dest == before.dest
      && SameMessage(after.message, before.message)
      && (after.message.Some? ==> after.message.value.retransmit)
  }

  /** The operations of a run alone tell what is pending under an id: the first request stored since the id was
      last free, its destination, when it was last sent and how often, and the last message kept there. */
  function Life(ops: seq<Op>, id: int, max: nat): Option<Req> {
    if ops == [] then None
    else
      var r := Life(ops[..|ops| - 1], id, max);
      match ops[|ops| - 1]
      case Send(i, msg, source, dest, expire) =>
        if i != id then r
        else
          var held := if r.Some? then r.value else Req(msg.hh, source, Some(dest), expire, 0, None);
          Some(if id <= 0 then held else held.(message := Some(Msg(id, msg.ee, msg.retransmit))))
      case Keep(msg, from, expire) =>
        if msg.hh != id || r.Some? then r else Some(Req(id, Some(from), None, expire, 0, None))
      case Reply(hh) => if hh == id then None else r
      case Check(ByPeer(peer), expire) =>
        if r.Some? && r.value.dest == Some(peer) then Again(r.value, expire, max) else r
      case Check(ByAge(now), expire) =>
        if r.Some? && r.value.expire < now then Again(r.value, expire, max) else r
  }

  /** Sent once more, or given up. */
  function Again(r: Req, expire: int, max: nat): Option<Req> {
    if r.count >= max then None
    else
      Some(Req(r.origHH, r.source, r.dest, expire, r.count + 1,
               match r.message case None => None case Some(m) => Some(Msg(m.hh, m.ee, true))))
  }

  const FRESH := Node(map[], map[], map[], [], [])

  lemma {:induction false} RunAppends(n: Node, ops: seq<Op>, op: Op, max: nat)
    ensures Run(n, ops + [op], max) == Step(Run(n, ops, max), op, max)
    decreases |ops|
  {
    if ops == [] {
      assert [] + [op] == [op] && [op][1..] == [];
    } else {
      assert (ops + [op])[0] == ops[0] && (ops + [op])[1..] == ops[1..] + [op];
      RunAppends(Step(n, ops[0], max), ops[1..], op, max);
    }
  }

  predicate Tells(r: Option<Req>, m: Store, id: int) {
    r == if id in m then Some(m[id]) else None
  }

  lemma LifeGoesOn(before: Option<Req>, n: Node, ops: seq<Op>, op: Op, id: int, max: nat)
    requires OwnersFit(n) && Tells(before, n.store, id) && Life(ops, id, max) == before
    ensures Tells(Life(ops + [op], id, max), Step(n, op, max).store, id)
  {
    assert (ops + [op])[..|ops|] == ops && (ops + [op])[|ops|] == op;
  }

  /** In every run each id is pending exactly while its own operations say so, with the destination of its
      request, the expiry and count of its last transmission, and its flag. */
  lemma {:induction false} StoreFollowsLives(ops: seq<Op>, id: int, max: nat)
    ensures OwnersFit(Run(FRESH, ops, max)) && Tells(Life(ops, id, max), Run(FRESH, ops, max).store, id)
    decreases |ops|
  {
    if ops != [] {
      var before, op := ops[..|ops| - 1], ops[|ops| - 1];
      assert ops == before + [op];
      StoreFollowsLives(before, id, max);
      RunAppends(FRESH, before, op, max);
      var n := Run(FRESH, before, max);
      LifeGoesOn(Life(before, id, max), n, before, op, id, max);
      AnswersFindTheirRequests(FRESH, ops, max);
    }
  }

  /** So after any run a request forwarded under a free id is sent again by the next sweep for a peer if and only
      if it was forwarded to that peer, and by the next sweep by age if and only if it has expired; once
      sent again it expires anew. */
  lemma ForwardedAreSentAgain(ops: seq<Op>, send: Op, peer: Peer, now: int, x: int, max: nat)
    requires send.Send? && send.id !in Run(FRESH, ops, max).store && max > 0
    ensures var n, id := Run(FRESH, ops + [send], max), send.id;
            var byPeer, byAge := Run(FRESH, ops + [send] + [Check(ByPeer(peer), x)], max).store,
                                 Run(FRESH, ops + [send] + [Check(ByAge(now), x)], max).store;
            && id in n.store && id in byPeer && id in byAge
            && n.store[id].count == 0 && n.store[id].expire == send.expire
            && byPeer[id].count == (if peer == send.dest then 1 else 0)
            && byPeer[id].expire == (if peer == send.dest then x else send.expire)
            && byAge[id].count == (if send.expire < now then 1 else 0)
            && byAge[id].expire == (if send.expire < now then x else send.expire)
            && (id > 0 ==> byPeer[id].message == Some(Msg(id, send.msg.ee, send.msg.retransmit || peer == send.dest)))
  {
    RunAppends(FRESH, ops, send, max);
    RunAppends(FRESH, ops + [send], Check(ByPeer(peer), x), max);
    RunAppends(FRESH, ops + [send], Check(ByAge(now), x), max);
  }
}
