/** Where two peers that dial each other end up. */
module Convergence {
  import opened Common
  import opened Election
  import opened PeerFsm
  import opened TwoPeers

  ghost predicate Leads(n: Net, steps: seq<Step>, w: World, m: Net)
    decreases |steps|
  {
    if steps == [] then m == n
    else CanStep(n, steps[0]) && Leads(StepNet(n, steps[0], w), steps[1..], w, m)
  }

  ghost predicate Good(n: Net, w: World) {
    J(n.a, n.b, w.a, w.b)
  }

  ghost predicate WorldOk(w: World) {
    ConfigsOk(w.a, w.b)
  }

  lemma StepKeepsGood(n: Net, s: Step, w: World)
    requires WorldOk(w) && Good(n, w) && CanStep(n, s)
    ensures Good(StepNet(n, s, w), w)
  {
    if s.side == A {
      DoKeeps(n.a, n.b, s.act, w.a, w.b);
    } else {
      DoKeeps(n.b, n.a, s.act, w.b, w.a);
    }
  }

  lemma {:induction false} RunsAreGood(n: Net, steps: seq<Step>, w: World, m: Net)
    requires WorldOk(w) && Good(n, w) && Leads(n, steps, w, m)
    ensures Good(m, w)
    decreases |steps|
  {
    if steps != [] {
      StepKeepsGood(n, steps[0], w);
      RunsAreGood(StepNet(n, steps[0], w), steps[1..], w, m);
    }
  }

  predicate IsOpen(x: Node) {
    x.peer.state == IOpen || x.peer.state == ROpen
  }

  /** The side that dialled the connection an open peer uses. */
  function Uses(x: Node, me: Side): Option<Side> {
    if x.peer.state == IOpen && x.peer.initiator == Some(OWN) then Some(me)
    else if x.peer.state == ROpen && x.peer.responder == Some(PEER) then Some(if me == A then B else A)
    else None
  }

  function ConfigOf(w: World, s: Side): Config {
    if s == A then w.a else w.b
  }

  /** The connection that side s dialled is in use at both ends and has carried its CER and CEA. */
  predicate Alive(n: Net, s: Side) {
    var c := if s == A then n.a.conn else n.b.conn;
    c.initEnd == Live && c.respEnd == Live && c.cerSent && c.ceaSent
  }

  /** Both sides are open on the connection that side s dialled, and it is alive. */
  predicate OpenOn(n: Net, s: Side) {
    IsOpen(n.a) && IsOpen(n.b) && Uses(n.a, A) == Some(s) && Uses(n.b, B) == Some(s) && Alive(n, s)
  }

  predicate Crossed(n: Net) {
    n.a.conn.cerSent && n.b.conn.cerSent
  }

  /** Both open as initiator or both as responder never happens: whenever both sides are open they
      use one connection, and if the CERs crossed it is the one the loser of the election dialled. */
  lemma AgreeOnConnection(w: World, steps: seq<Step>, m: Net)
    requires WorldOk(w) && Leads(InitNet(), steps, w, m)
    requires IsOpen(m.a) && IsOpen(m.b)
    ensures exists s ::
              OpenOn(m, s)
              && (Crossed(m) ==> Beats(ConfigOf(w, if s == A then B else A), ConfigOf(w, s)))
  {
    InitHolds(w);
    RunsAreGood(InitNet(), steps, w, m);
    OneResponder(m.a, m.b, w.a, w.b);
    var s := if m.a.peer.state == IOpen then A else B;
    assert OpenOn(m, s) && (Crossed(m) ==> Beats(ConfigOf(w, if s == A then B else A), ConfigOf(w, s)));
  }

  // ----- every run is short -----

  function Weight(e: Event): nat {
    match e
    case IRcvConnAck => 3
    case RConnCer => 3
    case WinElection => 2
    case _ => 1
  }

  function QueueWeight(q: seq<Param>): nat {
    if q == [] then 0 else QueueWeight(q[..|q| - 1]) + Weight(q[|q| - 1].event)
  }

  function WireWeight(ws: seq<Wire>): nat {
    if ws == [] then 0 else WireWeight(ws[..|ws| - 1]) + (if ws[|ws| - 1] == Carry(Cer) then 4 else 2)
  }

  function EndWeight(e: End): nat {
    match e
    case Live => 4
    case Released => 3
    case Gone => 0
  }

  function ConnWeight(c: Conn): nat {
    (if c.up then 0 else 4) + (if c.cerSent then 0 else 4) + (if c.ceaSent then 0 else 2)
    + WireWeight(c.toResp) + WireWeight(c.toInit) + EndWeight(c.initEnd) + EndWeight(c.respEnd)
  }

  function Rank(x: Node): nat {
    (if x.called then 0 else 2) + QueueWeight(x.peer.queue) + ConnWeight(x.conn)
  }

  lemma {:induction false} QueueWeightHead(q: seq<Param>)
    requires q != []
    ensures QueueWeight(q) == Weight(q[0].event) + QueueWeight(q[1..])
  {
    if |q| > 1 {
      QueueWeightHead(q[..|q| - 1]);
      assert q[..|q| - 1][1..] == q[1..][..|q| - 2];
    }
  }

  lemma QueueWeightAppend(q: seq<Param>, e: Param)
    ensures QueueWeight(q + [e]) == QueueWeight(q) + Weight(e.event)
  {
    assert (q + [e])[..|q|] == q;
  }

  lemma {:induction false} WireWeightHead(ws: seq<Wire>)
    requires ws != []
    ensures WireWeight(ws) == (if ws[0] == Carry(Cer) then 4 else 2) + WireWeight(ws[1..])
  {
    if |ws| > 1 {
      WireWeightHead(ws[..|ws| - 1]);
      assert ws[..|ws| - 1][1..] == ws[1..][..|ws| - 2];
    }
  }

  lemma WireWeightAppend(ws: seq<Wire>, v: Wire)
    ensures WireWeight(ws + [v]) == WireWeight(ws) + (if v == Carry(Cer) then 4 else 2)
  {
    assert (ws + [v])[..|ws|] == ws;
  }

  lemma CerWeight(c: Conn)
    requires !c.cerSent
    ensures ConnWeight(c.(toResp := c.toResp + [Carry(Cer)], cerSent := true)) == ConnWeight(c)
  {
    WireWeightAppend(c.toResp, Carry(Cer));
  }

  lemma CeaWeight(c: Conn)
    requires !c.ceaSent
    ensures ConnWeight(c.(toInit := c.toInit + [Carry(Cea(true))], ceaSent := true)) == ConnWeight(c)
  {
    WireWeightAppend(c.toInit, Carry(Cea(true)));
  }

  lemma ReleaseWeights(c: Conn)
    ensures ConnWeight(c.(initEnd := Release(c.initEnd))) <= ConnWeight(c)
    ensures ConnWeight(c.(respEnd := Release(c.respEnd))) <= ConnWeight(c)
  {
  }

  lemma CollectWeights(c: Conn)
    ensures c.initEnd == Released ==> ConnWeight(c.(initEnd := Gone, toResp := c.toResp + [Fin])) < ConnWeight(c)
    ensures c.respEnd == Released ==> ConnWeight(c.(respEnd := Gone, toInit := c.toInit + [Fin])) < ConnWeight(c)
  {
    WireWeightAppend(c.toResp, Fin);
    WireWeightAppend(c.toInit, Fin);
  }

  lemma TakeToInit(c: Conn)
    requires c.toInit != []
    ensures ConnWeight(c.(toInit := c.toInit[1..])) + 2 <= ConnWeight(c)
  {
    WireWeightHead(c.toInit);
  }

  lemma TakeToResp(c: Conn)
    requires c.toResp != []
    ensures ConnWeight(c.(toResp := c.toResp[1..])) + (if c.toResp[0] == Carry(Cer) then 4 else 2) <= ConnWeight(c)
  {
    WireWeightHead(c.toResp);
  }

  lemma AfterQueue(p: Peer, cfg: Config, theirs: Host)
    requires p.queue != [] && Meeting(p.state, p.queue[0].event)
    ensures var q := After(p, cfg, theirs).queue;
            || q == p.queue[1..]
            || (q == p.queue[1..] + [Param(WinElection, NO_MSG, None)] && p.queue[0].event in {RConnCer, IRcvConnAck})
  {
    hide Wins;
  }

  /** Serving takes more from the queue than an election puts there. */
  lemma AfterQueueWeight(p: Peer, cfg: Config, theirs: Host)
    requires p.queue != [] && Meeting(p.state, p.queue[0].event)
    ensures QueueWeight(After(p, cfg, theirs).queue) < QueueWeight(p.queue)
  {
    hide After, Meeting, QueueWeight;
    AfterQueue(p, cfg, theirs);
    QueueWeightHead(p.queue);
    QueueWeightAppend(p.queue[1..], Param(WinElection, NO_MSG, None));
  }

  lemma OwnConnWeight(c: Conn, cer: bool, drop: bool)
    requires cer ==> !c.cerSent
    ensures ConnWeight(OwnConn(c, cer, drop)) <= ConnWeight(c)
  {
    if cer {
      CerWeight(c);
    }
    ReleaseWeights(OwnConn(c, cer, false));
  }

  lemma PeerConnWeight(c: Conn, cea: bool, drop: bool)
    requires cea ==> !c.ceaSent
    ensures ConnWeight(PeerConn(c, cea, drop)) <= ConnWeight(c)
  {
    if cea {
      CeaWeight(c);
    }
    ReleaseWeights(PeerConn(c, cea, false));
  }

  /** Each side sends its CER and its CEA once. */
  lemma SendsOnce(x: Node, y: Node, cx: Config, cy: Config)
    requires J(x, y, cx, cy) && ConfigsOk(cx, cy) && x.peer.queue != []
    ensures var o := After(x.peer, cx, cy.identity); (o.cer ==> !x.conn.cerSent) && (o.cea ==> !y.conn.ceaSent)
  {
    Meets(x, y, cx, cy);
  }

  lemma ServeDescends(x: Node, y: Node, cx: Config, cy: Config)
    requires J(x, y, cx, cy) && ConfigsOk(cx, cy) && x.peer.queue != []
    ensures var r := Serving(x, y, cx); Rank(r.x) + Rank(r.y) < Rank(x) + Rank(y)
  {
    hide J, ConfigsOk, Serving, After, ConnWeight, OwnConn, PeerConn;
    var o := After(x.peer, cx, cy.identity);
    Meets(x, y, cx, cy);
    ServingBecomes(x, y, cx, cy);
    SendsOnce(x, y, cx, cy);
    AfterQueueWeight(x.peer, cx, cy.identity);
    OwnConnWeight(x.conn, o.cer, o.own);
    PeerConnWeight(y.conn, o.cea, o.peer);
  }

  lemma MoveDescends(x: Node, y: Node, act: Act, cx: Config, theirs: Host)
    requires x.peer.running && Enabled(x, y, act) && act !in {ServeOne, ReceiveOwn, ReceivePeer}
    ensures var r := Do(x, y, act, cx, theirs); Rank(r.x) + Rank(r.y) < Rank(x) + Rank(y)
  {
    match act
    case CallStart => QueueWeightAppend(x.peer.queue, Param(Start, NO_MSG, None));
    case ConnectUp => QueueWeightAppend(x.peer.queue, Param(IRcvConnAck, NO_MSG, Some(OWN)));
    case CollectOwn => CollectWeights(x.conn);
    case CollectPeer => CollectWeights(y.conn);
    case LoseOwn => TakeToInit(x.conn);
    case LosePeer => TakeToResp(y.conn);
  }

  lemma ArrivalWeight(p: Peer, c: Command)
    ensures Arrival(p, c).Some? ==> Weight(Arrival(p, c).value) == 1
  {
  }

  lemma ReceiveOwnDescends(x: Node, y: Node, theirs: Host)
    requires x.peer.running && x.conn.toInit != []
    ensures var r := ReceivingOwn(x, y, theirs); Rank(r.x) + Rank(r.y) < Rank(x) + Rank(y)
  {
    hide Arrival;
    TakeToInit(x.conn);
    match x.conn.toInit[0]
    case Fin => QueueWeightAppend(x.peer.queue, Param(IPeerDisc, NO_MSG, None));
    case Carry(c) =>
      ArrivalWeight(x.peer, c);
      if Arrival(x.peer, c).Some? {
        QueueWeightAppend(x.peer.queue, Param(Arrival(x.peer, c).value, From(theirs, c), None));
      }
  }

  lemma PendingPeerDescends(x: Node, y: Node, theirs: Host)
    requires x.peer.running && y.conn.toResp != [] && !y.conn.known
    ensures var r := ReceivingPeer(x, y, theirs); Rank(r.x) + Rank(r.y) < Rank(x) + Rank(y)
  {
    TakeToResp(y.conn);
    ReleaseWeights(y.conn.(toResp := y.conn.toResp[1..]));
    QueueWeightAppend(x.peer.queue, Param(RConnCer, From(theirs, Cer), Some(PEER)));
  }

  lemma KnownPeerDescends(x: Node, y: Node, theirs: Host)
    requires x.peer.running && y.conn.toResp != [] && y.conn.known
    ensures var r := ReceivingPeer(x, y, theirs); Rank(r.x) + Rank(r.y) < Rank(x) + Rank(y)
  {
    hide Arrival;
    TakeToResp(y.conn);
    match y.conn.toResp[0]
    case Fin => QueueWeightAppend(x.peer.queue, Param(RPeerDisc, NO_MSG, None));
    case Carry(c) =>
      ArrivalWeight(x.peer, c);
      if Arrival(x.peer, c).Some? {
        QueueWeightAppend(x.peer.queue, Param(Arrival(x.peer, c).value, From(theirs, c), None));
      }
  }

  lemma StepDescends(n: Net, s: Step, w: World)
    requires WorldOk(w) && Good(n, w) && CanStep(n, s)
    ensures var m := StepNet(n, s, w); Rank(m.a) + Rank(m.b) < Rank(n.a) + Rank(n.b)
  {
    var (x, y, cx, cy) := if s.side == A then (n.a, n.b, w.a, w.b) else (n.b, n.a, w.b, w.a);
    if s.act == ServeOne {
      ServeDescends(x, y, cx, cy);
    } else if s.act == ReceiveOwn {
      ReceiveOwnDescends(x, y, cy.identity);
    } else if s.act == ReceivePeer {
      if y.conn.known {
        KnownPeerDescends(x, y, cy.identity);
      } else {
        PendingPeerDescends(x, y, cy.identity);
      }
    } else {
      MoveDescends(x, y, s.act, cx, cy.identity);
    }
  }

  const LONGEST: nat := 40

  /** No run of the two peers takes more than forty steps. */
  lemma {:induction false} RunsAreShort(n: Net, steps: seq<Step>, w: World, m: Net)
    requires WorldOk(w) && Good(n, w) && Leads(n, steps, w, m)
    ensures |steps| + Rank(m.a) + Rank(m.b) <= Rank(n.a) + Rank(n.b)
    ensures n == InitNet() ==> |steps| <= LONGEST
    decreases |steps|
  {
    if steps != [] {
      StepKeepsGood(n, steps[0], w);
      StepDescends(n, steps[0], w);
      RunsAreShort(StepNet(n, steps[0], w), steps[1..], w, m);
    }
  }

  // ----- where a run can end -----

  /** Nothing is left to do but start a peer that was never started. */
  predicate Quiet(x: Node, y: Node) {
    forall act :: Enabled(x, y, act) ==> act == CallStart
  }

  predicate Settled(n: Net) {
    Quiet(n.a, n.b) && Quiet(n.b, n.a) && (n.a.called || n.b.called)
  }

  lemma QuietFacts(x: Node, y: Node)
    requires Quiet(x, y)
    ensures x.peer.queue == [] && (x.called ==> x.conn.up)
    ensures x.conn.initEnd != Released && y.conn.respEnd != Released
    ensures x.conn.toInit == [] && y.conn.toResp == []
  {
    assert !Enabled(x, y, ServeOne) && !Enabled(x, y, ConnectUp);
    assert !Enabled(x, y, CollectOwn) && !Enabled(x, y, CollectPeer);
    assert !Enabled(x, y, ReceiveOwn) && !Enabled(x, y, LoseOwn);
    assert !Enabled(x, y, ReceivePeer) && !Enabled(x, y, LosePeer);
  }

  lemma SettledIsOpen(x: Node, y: Node, cx: Config, cy: Config)
    requires J(x, y, cx, cy) && ConfigsOk(cx, cy) && Quiet(x, y) && Quiet(y, x) && x.called
    requires Beats(cx, cy) || Beats(cy, cx)
    ensures IsOpen(x) && IsOpen(y)
  {
    QuietFacts(x, y);
    QuietFacts(y, x);
    OneResponder(x, y, cx, cy);
  }

  predicate BothOpen(n: Net) {
    IsOpen(n.a) && IsOpen(n.b)
  }

  /** Where some side wins the election, a run that cannot go on has opened both sides. */
  lemma SettledRunsAreOpen(w: World, steps: seq<Step>, m: Net)
    requires WorldOk(w) && (Beats(w.a, w.b) || Beats(w.b, w.a))
    requires Leads(InitNet(), steps, w, m) && Settled(m)
    ensures BothOpen(m)
  {
    InitHolds(w);
    RunsAreGood(InitNet(), steps, w, m);
    if m.a.called {
      SettledIsOpen(m.a, m.b, w.a, w.b);
    } else {
      SettledIsOpen(m.b, m.a, w.b, w.a);
    }
  }

  lemma StepKeepsCalled(n: Net, s: Step, w: World)
    requires WorldOk(w) && Good(n, w) && CanStep(n, s)
    ensures var m := StepNet(n, s, w); (n.a.called ==> m.a.called) && (n.b.called ==> m.b.called)
  {
    var (x, y, cx, cy) := if s.side == A then (n.a, n.b, w.a, w.b) else (n.b, n.a, w.b, w.a);
    if s.act == ServeOne {
      hide J, ConfigsOk, Serving, After, Served;
      ServingBecomes(x, y, cx, cy);
    }
  }

  /** Every reachable network can go on until it settles. */
  lemma {:induction false} CanSettle(n: Net, w: World) returns (steps: seq<Step>, m: Net)
    requires WorldOk(w) && Good(n, w) && (n.a.called || n.b.called)
    ensures Leads(n, steps, w, m) && Settled(m)
    decreases Rank(n.a) + Rank(n.b)
  {
    hide Good, WorldOk, Enabled, StepNet;
    if Settled(n) {
      steps, m := [], n;
    } else {
      var s := EnabledStep(n);
      StepDescends(n, s, w);
      StepKeepsGood(n, s, w);
      StepKeepsCalled(n, s, w);
      steps, m := CanSettle(StepNet(n, s, w), w);
      assert ([s] + steps)[1..] == steps;
      steps := [s] + steps;
    }
  }

  lemma EnabledStep(n: Net) returns (s: Step)
    requires !Settled(n) && (n.a.called || n.b.called)
    ensures CanStep(n, s)
  {
    if !Quiet(n.a, n.b) {
      var act :| Enabled(n.a, n.b, act) && act != CallStart;
      s := Step(A, act);
    } else {
      var act :| Enabled(n.b, n.a, act) && act != CallStart;
      s := Step(B, act);
    }
  }

  /** From every point of every run in which a peer was started the network can go on to a settled
      state, and where some side wins the election that state has both sides open.  With `RunsAreShort`:
      every run that goes on while it can ends open. */
  lemma EveryRunCanOpen(w: World, steps: seq<Step>, n: Net) returns (more: seq<Step>, m: Net)
    requires WorldOk(w) && (Beats(w.a, w.b) || Beats(w.b, w.a))
    requires Leads(InitNet(), steps, w, n) && (n.a.called || n.b.called)
    ensures Leads(n, more, w, m) && Settled(m) && BothOpen(m) && |steps| + |more| <= LONGEST
  {
    InitHolds(w);
    RunsAreGood(InitNet(), steps, w, n);
    more, m := CanSettle(n, w);
    LeadsOn(InitNet(), steps, w, n, more, m);
    RunsAreShort(InitNet(), steps + more, w, m);
    SettledRunsAreOpen(w, steps + more, m);
  }

  lemma {:induction false} LeadsOn(k: Net, steps: seq<Step>, w: World, n: Net, more: seq<Step>, m: Net)
    requires Leads(k, steps, w, n) && Leads(n, more, w, m)
    ensures Leads(k, steps + more, w, m)
    decreases |steps|
  {
    if steps == [] {
      assert steps + more == more;
    } else {
      LeadsOn(StepNet(k, steps[0], w), steps[1..], w, n, more, m);
      assert (steps + more)[1..] == steps[1..] + more;
    }
  }
}
