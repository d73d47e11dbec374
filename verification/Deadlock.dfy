/** Exactly when two peers open: runs of two distinct hosts neither of which wins the election, and of two
    that both win it, each by its own comparison. */
module Deadlock {
  import opened Common
  import opened Election
  import opened PeerFsm
  import opened TwoPeers
  import opened Convergence

  function Dialled(state: State, initiator: Option<nat>, responder: Option<nat>, host: Host, queue: seq<Param>): Peer {
    Peer(state, true, initiator, responder, None, host,
         if state == Closed then NO_TIMERS else Timers(Some(CONNECT_ATTEMPT_TOUT), None, None),
         0, DontWantToTalk, queue, [], [], 1)
  }

  function Sent1(known: bool): Conn {
    Conn(true, known, true, false, if known then [] else [Carry(Cer)], [], Live, Live)
  }

  const CALLED := Node(Dialled(Closed, None, None, [], [Param(Start, NO_MSG, None)]), true, InitConn())
  const DIALLING := Node(Dialled(WaitConnAck, None, None, [], []), true, InitConn())
  const ACKED := Node(Dialled(WaitConnAck, None, None, [], [Param(IRcvConnAck, NO_MSG, Some(OWN))]), true,
                      InitConn().(up := true))

  function Offering(known: bool): Node {
    Node(Dialled(WaitICea, Some(OWN), None, [], []), true, Sent1(known))
  }

  function Offered(theirs: Host, known: bool): Node {
    Node(Dialled(WaitICea, Some(OWN), None, [], [Param(RConnCer, From(theirs, Cer), Some(PEER))]), true, Sent1(known))
  }

  function Returning(theirs: Host): Node {
    Node(Dialled(WaitReturns, Some(OWN), Some(PEER), theirs, []), true, Sent1(true))
  }

  lemma FirstSteps(y: Node, cfg: Config, theirs: Host)
    ensures Enabled(InitNode(), y, CallStart) && Do(InitNode(), y, CallStart, cfg, theirs) == Pair(CALLED, y)
    ensures Enabled(CALLED, y, ServeOne) && Do(CALLED, y, ServeOne, cfg, theirs) == Pair(DIALLING, y)
    ensures Enabled(DIALLING, y, ConnectUp) && Do(DIALLING, y, ConnectUp, cfg, theirs) == Pair(ACKED, y)
  {
  }

  lemma OfferStep(y: Node, cfg: Config, theirs: Host)
    ensures Enabled(ACKED, y, ServeOne) && Do(ACKED, y, ServeOne, cfg, theirs) == Pair(Offering(false), y)
  {
    var p := Serve(ACKED.peer, cfg);
    assert p.outbox == [Sent(Cer, Some(OWN))] && p.queue == [] && p.trash == [];
    OneMessage(Pair(ACKED.(peer := p.(outbox := [], trash := [])), y), Sent(Cer, Some(OWN)));
    assert ACKED.conn.toResp + [Carry(Cer)] == [Carry(Cer)];
  }

  lemma ReceiveSteps(mine: Host, theirs: Host)
    ensures Enabled(Offering(false), Offering(false), ReceivePeer)
    ensures ReceivingPeer(Offering(false), Offering(false), theirs) == Pair(Offered(theirs, false), Offering(true))
    ensures Enabled(Offering(true), Offered(theirs, false), ReceivePeer)
    ensures ReceivingPeer(Offering(true), Offered(theirs, false), mine)
            == Pair(Offered(mine, true), Offered(theirs, true))
  {
  }

  lemma LoseStep(y: Node, cfg: Config, theirs: Host)
    requires cfg.identity != theirs && !Wins(cfg.signedChar, cfg.identity, theirs)
    ensures Enabled(Offered(theirs, true), y, ServeOne)
    ensures Do(Offered(theirs, true), y, ServeOne, cfg, theirs) == Pair(Returning(theirs), y)
  {
  }

  lemma Before(n: Net, s: Step, n': Net, steps: seq<Step>, w: World, m: Net)
    requires CanStep(n, s) && StepNet(n, s, w) == n' && Leads(n', steps, w, m)
    ensures Leads(n, [s] + steps, w, m)
  {
    assert ([s] + steps)[1..] == steps;
  }

  /** Both sides start, dial, and send their CERs. */
  lemma ToOffering(w: World, rest: seq<Step>, m: Net) returns (steps: seq<Step>)
    requires Leads(Net(Offering(false), Offering(false)), rest, w, m)
    ensures Leads(InitNet(), steps, w, m)
  {
    var a, b := w.a.identity, w.b.identity;
    steps := rest;
    OfferStep(Offering(false), w.b, a);
    Before(Net(Offering(false), ACKED), Step(B, ServeOne), Net(Offering(false), Offering(false)), steps, w, m);
    steps := [Step(B, ServeOne)] + steps;
    OfferStep(ACKED, w.a, b);
    Before(Net(ACKED, ACKED), Step(A, ServeOne), Net(Offering(false), ACKED), steps, w, m);
    steps := [Step(A, ServeOne)] + steps;
    FirstSteps(ACKED, w.b, a);
    Before(Net(ACKED, DIALLING), Step(B, ConnectUp), Net(ACKED, ACKED), steps, w, m);
    steps := [Step(B, ConnectUp)] + steps;
    Before(Net(ACKED, CALLED), Step(B, ServeOne), Net(ACKED, DIALLING), steps, w, m);
    steps := [Step(B, ServeOne)] + steps;
    Before(Net(ACKED, InitNode()), Step(B, CallStart), Net(ACKED, CALLED), steps, w, m);
    steps := [Step(B, CallStart)] + steps;
    FirstSteps(InitNode(), w.a, b);
    Before(Net(DIALLING, InitNode()), Step(A, ConnectUp), Net(ACKED, InitNode()), steps, w, m);
    steps := [Step(A, ConnectUp)] + steps;
    Before(Net(CALLED, InitNode()), Step(A, ServeOne), Net(DIALLING, InitNode()), steps, w, m);
    steps := [Step(A, ServeOne)] + steps;
    Before(InitNet(), Step(A, CallStart), Net(CALLED, InitNode()), steps, w, m);
    steps := [Step(A, CallStart)] + steps;
  }

  /** Both CERs have crossed and wait to be served. */
  function Crossing(w: World): Net {
    Net(Offered(w.b.identity, true), Offered(w.a.identity, true))
  }

  lemma ToCrossing(w: World, rest: seq<Step>, m: Net) returns (steps: seq<Step>)
    requires Leads(Crossing(w), rest, w, m)
    ensures Leads(InitNet(), steps, w, m)
  {
    var offering, half := Net(Offering(false), Offering(false)), Net(Offered(w.b.identity, false), Offering(true));
    ReceiveSteps(w.a.identity, w.b.identity);
    steps := rest;
    Before(half, Step(B, ReceivePeer), Crossing(w), steps, w, m);
    steps := [Step(B, ReceivePeer)] + steps;
    Before(offering, Step(A, ReceivePeer), half, steps, w, m);
    steps := [Step(A, ReceivePeer)] + steps;
    steps := ToOffering(w, steps, m);
  }

  ghost predicate NobodyWins(w: World) {
    w.a.identity != w.b.identity && !Beats(w.a, w.b) && !Beats(w.b, w.a)
  }

  ghost predicate BothWin(w: World) {
    w.a.identity != w.b.identity && Beats(w.a, w.b) && Beats(w.b, w.a)
  }

  /** Neither side wins: both wait for the other's CEA with nothing left to happen but the timeouts. */
  lemma NobodyWinsDeadlocks(w: World) returns (steps: seq<Step>, m: Net)
    requires NobodyWins(w)
    ensures Leads(InitNet(), steps, w, m) && Settled(m) && m.a.called && m.b.called && !IsOpen(m.a) && !IsOpen(m.b)
  {
    var a, b := w.a.identity, w.b.identity;
    m := Net(Returning(b), Returning(a));
    steps := [];
    LoseStep(Returning(b), w.b, a);
    Before(Net(Returning(b), Offered(a, true)), Step(B, ServeOne), m, steps, w, m);
    steps := [Step(B, ServeOne)] + steps;
    LoseStep(Offered(a, true), w.a, b);
    Before(Crossing(w), Step(A, ServeOne), Net(Returning(b), Offered(a, true)), steps, w, m);
    steps := [Step(A, ServeOne)] + steps;
    steps := ToCrossing(w, steps, m);
  }

  // ----- both sides win -----

  /** The rest of a connection whose CER has been served. */
  function Late(ceaSent: bool, toResp: seq<Wire>, toInit: seq<Wire>, initEnd: End, respEnd: End): Conn {
    Conn(true, true, true, ceaSent, toResp, toInit, initEnd, respEnd)
  }

  function Winning(theirs: Host, c: Conn): Node {
    Node(Dialled(WaitReturns, Some(OWN), Some(PEER), theirs, [Param(WinElection, NO_MSG, None)]), true, c)
  }

  /** Open as responder, with a queue. */
  function Won(cfg: Config, theirs: Host, queue: seq<Param>, c: Conn): Node {
    Node(Peer(ROpen, true, None, Some(PEER), None, theirs, Timers(None, Some(cfg.watchdog), None),
              0, DontWantToTalk, queue, [], [], 1), true, c)
  }

  /** Closed again, after a disconnection. */
  function Shut(cfg: Config, c: Conn): Node {
    Node(DoReConnect(Peer(Closed, true, None, None, None, [], NO_TIMERS, 0, DontWantToTalk, [], [], [], 1), cfg),
         true, c)
  }

  const DISC := [Param(RPeerDisc, NO_MSG, None)]
  const CEA := Carry(Cea(true))

  lemma WinStep(y: Node, cfg: Config, theirs: Host)
    requires cfg.identity != theirs && Wins(cfg.signedChar, cfg.identity, theirs)
    ensures Enabled(Offered(theirs, true), y, ServeOne)
    ensures Do(Offered(theirs, true), y, ServeOne, cfg, theirs) == Pair(Winning(theirs, Sent1(true)), y)
  {
  }

  lemma OpenStep(c: Conn, y: Node, cfg: Config, theirs: Host)
    ensures var x := Winning(theirs, c);
            Enabled(x, y, ServeOne) && Do(x, y, ServeOne, cfg, theirs) ==
              Pair(Won(cfg, theirs, [], c.(initEnd := Release(c.initEnd))),
                   y.(conn := y.conn.(toInit := y.conn.toInit + [CEA], ceaSent := true)))
  {
    var x := Winning(theirs, c);
    var p := Serve(x.peer, cfg);
    assert p.outbox == [Sent(Cea(true), Some(PEER))] && p.queue == [] && p.trash == [OWN];
    OneMessage(Pair(x.(peer := p.(outbox := [], trash := [])), y), Sent(Cea(true), Some(PEER)));
  }

  lemma ShutStep(c: Conn, y: Node, cfg: Config, theirs: Host)
    ensures var x := Won(cfg, theirs, DISC, c);
            Enabled(x, y, ServeOne) && Do(x, y, ServeOne, cfg, theirs) ==
              Pair(Shut(cfg, c), y.(conn := y.conn.(respEnd := Release(y.conn.respEnd))))
  {
    var x := Won(cfg, theirs, DISC, c);
    var p := Serve(x.peer, cfg);
    assert p.outbox == [] && p.queue == [] && p.trash == [PEER];
  }

  /** Both sides open, each as the responder of the other's connection. */
  function Split(w: World): Net {
    var c := Late(true, [], [CEA], Released, Live);
    Net(Won(w.a, w.b.identity, [], c), Won(w.b, w.a.identity, [], c))
  }

  lemma ToSplit(w: World, rest: seq<Step>, m: Net) returns (steps: seq<Step>)
    requires BothWin(w) && Leads(Split(w), rest, w, m)
    ensures Leads(InitNet(), steps, w, m)
  {
    var a, b := w.a.identity, w.b.identity;
    var k0, k1 := Sent1(true), Late(true, [], [CEA], Live, Live);
    var first := Net(Won(w.a, b, [], Late(false, [], [], Released, Live)), Winning(a, k1));
    assert [] + [CEA] == [CEA];
    steps := rest;
    OpenStep(k1, first.a, w.b, a);
    Before(first, Step(B, ServeOne), Split(w), steps, w, m);
    steps := [Step(B, ServeOne)] + steps;
    OpenStep(k0, Winning(a, k0), w.a, b);
    Before(Net(Winning(b, k0), Winning(a, k0)), Step(A, ServeOne), first, steps, w, m);
    steps := [Step(A, ServeOne)] + steps;
    WinStep(Winning(b, k0), w.b, a);
    Before(Net(Winning(b, k0), Offered(a, true)), Step(B, ServeOne), Net(Winning(b, k0), Winning(a, k0)), steps, w, m);
    steps := [Step(B, ServeOne)] + steps;
    WinStep(Offered(a, true), w.a, b);
    Before(Crossing(w), Step(A, ServeOne), Net(Winning(b, k0), Offered(a, true)), steps, w, m);
    steps := [Step(A, ServeOne)] + steps;
    steps := ToCrossing(w, steps, m);
  }

  /** Both sides win: there is a run to two open peers that use different connections. */
  lemma BothWinDisagree(w: World) returns (steps: seq<Step>)
    requires BothWin(w)
    ensures Leads(InitNet(), steps, w, Split(w)) && BothOpen(Split(w))
    ensures Uses(Split(w).a, A) == Some(B) && Uses(Split(w).b, B) == Some(A)
  {
    steps := ToSplit(w, [], Split(w));
  }

  /** The same act on both sides, one after the other. */
  lemma Both(w: World, act: Act, n: Net, n': Net, n'': Net, rest: seq<Step>, m: Net) returns (steps: seq<Step>)
    requires CanStep(n, Step(A, act)) && StepNet(n, Step(A, act), w) == n'
    requires CanStep(n', Step(B, act)) && StepNet(n', Step(B, act), w) == n''
    requires Leads(n'', rest, w, m)
    ensures Leads(n, steps, w, m)
  {
    Before(n', Step(B, act), n'', rest, w, m);
    Before(n, Step(A, act), n', [Step(B, act)] + rest, w, m);
    steps := [Step(A, act)] + ([Step(B, act)] + rest);
  }

  /** Both sides have read the end of the connection they use. */
  function Cut(w: World): Net {
    var c := Late(true, [], [], Gone, Live);
    Net(Won(w.a, w.b.identity, DISC, c), Won(w.b, w.a.identity, DISC, c))
  }

  /** From the split each side's released connection ends. */
  lemma SplitIsCut(w: World, rest: seq<Step>, m: Net) returns (steps: seq<Step>)
    requires Leads(Cut(w), rest, w, m)
    ensures Leads(Split(w), steps, w, m)
  {
    var a, b := w.a.identity, w.b.identity;
    var k2, k3, k4, k5 := Late(true, [], [CEA], Released, Live), Late(true, [], [], Released, Live),
                          Late(true, [Fin], [], Gone, Live), Late(true, [], [], Gone, Live);
    assert [] + [Fin] == [Fin] && [CEA][1..] == [] && [Fin][1..] == [] && [] + DISC == DISC;
    steps := Both(w, ReceivePeer, Net(Won(w.a, b, [], k4), Won(w.b, a, [], k4)),
                  Net(Won(w.a, b, DISC, k4), Won(w.b, a, [], k5)), Cut(w), rest, m);
    steps := Both(w, CollectOwn, Net(Won(w.a, b, [], k3), Won(w.b, a, [], k3)),
                  Net(Won(w.a, b, [], k4), Won(w.b, a, [], k3)), Net(Won(w.a, b, [], k4), Won(w.b, a, [], k4)),
                  steps, m);
    steps := Both(w, LoseOwn, Split(w), Net(Won(w.a, b, [], k3), Won(w.b, a, [], k2)),
                  Net(Won(w.a, b, [], k3), Won(w.b, a, [], k3)), steps, m);
  }

  /** That closes both. */
  lemma CutCloses(w: World) returns (steps: seq<Step>, m: Net)
    ensures Leads(Cut(w), steps, w, m) && Settled(m) && !IsOpen(m.a) && !IsOpen(m.b)
  {
    var a, b := w.a.identity, w.b.identity;
    var k5, k6, k7, k8 := Late(true, [], [], Gone, Live), Late(true, [], [], Gone, Released),
                          Late(true, [], [Fin], Gone, Gone), Late(true, [], [], Gone, Gone);
    assert [] + [Fin] == [Fin] && [Fin][1..] == [];
    m := Net(Shut(w.a, k8), Shut(w.b, k8));
    steps := Both(w, LoseOwn, Net(Shut(w.a, k7), Shut(w.b, k7)), Net(Shut(w.a, k8), Shut(w.b, k7)), m, [], m);
    steps := Both(w, CollectPeer, Net(Shut(w.a, k6), Shut(w.b, k6)), Net(Shut(w.a, k6), Shut(w.b, k7)),
                  Net(Shut(w.a, k7), Shut(w.b, k7)), steps, m);
    ShutStep(k5, Won(w.b, a, DISC, k5), w.a, b);
    ShutStep(k6, Shut(w.a, k5), w.b, a);
    steps := Both(w, ServeOne, Cut(w), Net(Shut(w.a, k5), Won(w.b, a, DISC, k6)),
                  Net(Shut(w.a, k6), Shut(w.b, k6)), steps, m);
  }

  // ----- exactly when -----

  ghost predicate AlwaysAgrees(w: World) {
    forall steps, m | Leads(InitNet(), steps, w, m) && BothOpen(m) :: exists s :: OpenOn(m, s)
  }

  ghost predicate AlwaysOpens(w: World) {
    forall steps, m | Leads(InitNet(), steps, w, m) && Settled(m) :: BothOpen(m)
  }

  /** Two peers with distinct hosts always agree on one living connection if and only if they do not both
      win the election. */
  lemma AgreesUnlessBothWin(w: World)
    requires w.a.identity != w.b.identity
    ensures AlwaysAgrees(w) <==> !BothWin(w)
  {
    if BothWin(w) {
      var steps := BothWinDisagree(w);
      assert Leads(InitNet(), steps, w, Split(w)) && BothOpen(Split(w));
      assert !exists s :: OpenOn(Split(w), s);
    } else {
      forall steps, m | Leads(InitNet(), steps, w, m) && BothOpen(m) ensures exists s :: OpenOn(m, s) {
        AgreeOnConnection(w, steps, m);
      }
    }
  }

  /** They always open if and only if exactly one of them wins it. */
  lemma OpensIfOneWins(w: World)
    requires w.a.identity != w.b.identity
    ensures AlwaysOpens(w) <==> (Beats(w.a, w.b) <==> !Beats(w.b, w.a))
  {
    if NobodyWins(w) {
      var steps, m := NobodyWinsDeadlocks(w);
      assert Leads(InitNet(), steps, w, m) && Settled(m);
    } else if BothWin(w) {
      var rest, m := CutCloses(w);
      var more := SplitIsCut(w, rest, m);
      var steps := ToSplit(w, more, m);
      assert Leads(InitNet(), steps, w, m) && Settled(m);
    } else {
      forall steps, m | Leads(InitNet(), steps, w, m) && Settled(m) ensures BothOpen(m) {
        SettledRunsAreOpen(w, steps, m);
      }
    }
  }

  /** The condition on the hosts: the padded names differ, and where the two sides' compilers disagree on
      the sign of `char` they first differ on one side of 0x80. */
  lemma OpensUnlessTie(w: World)
    requires w.a.identity != w.b.identity
    ensures AlwaysOpens(w) <==>
              !Tie(w.a.identity, w.b.identity)
              && (w.a.signedChar == w.b.signedChar || SameSide(w.a.identity, w.b.identity))
  {
    OpensIfOneWins(w);
    OneWinnerExactly(w.a.signedChar, w.b.signedChar, w.a.identity, w.b.identity);
  }
}
