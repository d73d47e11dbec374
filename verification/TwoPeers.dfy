/** Two peers that dial each other.

    Each side is a `Peer` of PeerFsm; between them lie the connection each one dials.  There are no
    timeouts, stops or transport failures: a connection ends only because one side let go of it.
    Each side calls its own connection OWN and the one the other side dialled PEER. */
module TwoPeers {
  import opened Common
  import opened Election
  import opened PeerFsm

  const OWN: nat := 0
  const PEER: nat := 1

  datatype Wire = Carry(command: Command) | Fin

  /** One end of a connection: in use, handed to the garbage collector, closed. */
  datatype End = Live | Released | Gone

  datatype Conn = Conn(
    up: bool,           // the dialler's connect completed
    known: bool,        // the other side has handed the CER and the transport to its peer entry
    cerSent: bool,
    ceaSent: bool,
    toResp: seq<Wire>,  // in flight from the dialler
    toInit: seq<Wire>,  // in flight to the dialler
    initEnd: End,
    respEnd: End)

  /** A side: its peer, whether `Start` was called, and the connection it dials. */
  datatype Node = Node(peer: Peer, called: bool, conn: Conn)

  datatype Net = Net(a: Node, b: Node)

  datatype Side = A | B

  datatype Act = CallStart     // the application starts the peer
               | ConnectUp     // the dialled connection is accepted
               | ServeOne      // the peer serves one event
               | CollectOwn    // the garbage collector closes this side's end of its own connection
               | CollectPeer   // ... of the other side's connection
               | ReceiveOwn    // a message or end-of-stream arrives on the own connection
               | ReceivePeer   // ... on the other side's connection
               | LoseOwn       // ... arrives at an end already released
               | LosePeer

  datatype Step = Step(side: Side, act: Act)

  function InitConn(): Conn {
    Conn(false, false, false, false, [], [], Live, Live)
  }

  function InitNode(): Node {
    Node(PeerFsm.Init(), false, InitConn())
  }

  function InitNet(): Net {
    Net(InitNode(), InitNode())
  }

  // ----- what one side's step does to both sides -----

  datatype Pair = Pair(x: Node, y: Node)

  function Release(e: End): End {
    if e == Live then Released else e
  }

  /** A message goes out on the transport the action chose. */
  function Transmit(s: Pair, m: Sent): Pair {
    if m.io == Some(OWN) then
      var c := s.x.conn;
      s.(x := s.x.(conn := c.(toResp := c.toResp + [Carry(m.command)], cerSent := c.cerSent || m.command.Cer?)))
    else if m.io == Some(PEER) then
      var c := s.y.conn;
      s.(y := s.y.(conn := c.(toInit := c.toInit + [Carry(m.command)], ceaSent := c.ceaSent || m.command.Cea?)))
    else s
  }

  function TransmitAll(s: Pair, ms: seq<Sent>): Pair
    decreases |ms|
  {
    if ms == [] then s else TransmitAll(Transmit(s, ms[0]), ms[1..])
  }

  function ReleaseAll(s: Pair, trash: seq<nat>): Pair {
    var cx, cy := s.x.conn, s.y.conn;
    Pair(if OWN in trash then s.x.(conn := cx.(initEnd := Release(cx.initEnd))) else s.x,
         if PEER in trash then s.y.(conn := cy.(respEnd := Release(cy.respEnd))) else s.y)
  }

  function Post(x: Node, e: Event, m: Msg, io: Option<nat>): Node {
    x.(peer := Notify(x.peer, Param(e, m, io)))
  }

  /** A message of the other side, whose identity is `host` and whose capabilities are valid. */
  function From(host: Host, c: Command): Msg {
    Msg(host, true, c == Cea(true))
  }

  predicate Enabled(x: Node, y: Node, act: Act) {
    match act
    case CallStart => !x.called
    case ConnectUp => x.called && !x.conn.up
    case ServeOne => x.peer.queue != []
    case CollectOwn => x.conn.initEnd == Released
    case CollectPeer => y.conn.respEnd == Released
    case ReceiveOwn => x.conn.toInit != [] && x.conn.initEnd != Gone
    case ReceivePeer => y.conn.toResp != [] && y.conn.respEnd != Gone
    case LoseOwn => x.conn.toInit != [] && x.conn.initEnd != Live
    case LosePeer => y.conn.toResp != [] && y.conn.respEnd != Live
  }

  ghost function Serving(x: Node, y: Node, cfg: Config): Pair
    requires x.peer.queue != []
  {
    var p := Serve(x.peer, cfg);
    ReleaseAll(TransmitAll(Pair(x.(peer := p.(outbox := [], trash := [])), y), p.outbox), p.trash)
  }

  function ReceivingOwn(x: Node, y: Node, theirs: Host): Pair
    requires x.conn.toInit != []
  {
    var w := x.conn.toInit[0];
    var x1 := x.(conn := x.conn.(toInit := x.conn.toInit[1..]));
    match w
    case Fin => Pair(Post(x1, IPeerDisc, NO_MSG, None), y)
    case Carry(c) =>
      match Arrival(x.peer, c)
      case None => Pair(x1, y)
      case Some(e) => Pair(Post(x1, e, From(theirs, c), None), y)
  }

  /** Until a CER has come in, the acceptor's pending responder owns the transport; anything but a CER
      makes it close the transport. */
  function ReceivingPeer(x: Node, y: Node, theirs: Host): Pair
    requires y.conn.toResp != []
  {
    var w := y.conn.toResp[0];
    var c1 := y.conn.(toResp := y.conn.toResp[1..]);
    if !y.conn.known then
      if w == Carry(Cer) then
        Pair(Post(x, RConnCer, From(theirs, Cer), Some(PEER)), y.(conn := c1.(known := true)))
      else Pair(x, y.(conn := c1.(respEnd := Release(c1.respEnd))))
    else
      match w
      case Fin => Pair(Post(x, RPeerDisc, NO_MSG, None), y.(conn := c1))
      case Carry(c) =>
        match Arrival(x.peer, c)
        case None => Pair(x, y.(conn := c1))
        case Some(e) => Pair(Post(x, e, From(theirs, c), None), y.(conn := c1))
  }

  ghost function Do(x: Node, y: Node, act: Act, cfg: Config, theirs: Host): Pair
    requires Enabled(x, y, act)
  {
    match act
    case CallStart => Pair(x.(peer := Dial(x.peer), called := true), y)
    case ConnectUp => Pair(Post(x.(conn := x.conn.(up := true)), IRcvConnAck, NO_MSG, Some(OWN)), y)
    case ServeOne => Serving(x, y, cfg)
    case CollectOwn => Pair(x.(conn := x.conn.(initEnd := Gone, toResp := x.conn.toResp + [Fin])), y)
    case CollectPeer => Pair(x, y.(conn := y.conn.(respEnd := Gone, toInit := y.conn.toInit + [Fin])))
    case ReceiveOwn => ReceivingOwn(x, y, theirs)
    case ReceivePeer => ReceivingPeer(x, y, theirs)
    case LoseOwn => Pair(x.(conn := x.conn.(toInit := x.conn.toInit[1..])), y)
    case LosePeer => Pair(x, y.(conn := y.conn.(toResp := y.conn.toResp[1..])))
  }

  datatype World = World(a: Config, b: Config)

  predicate CanStep(n: Net, s: Step) {
    if s.side == A then Enabled(n.a, n.b, s.act) else Enabled(n.b, n.a, s.act)
  }

  ghost function StepNet(n: Net, s: Step, w: World): Net
    requires CanStep(n, s)
  {
    if s.side == A then
      var r := Do(n.a, n.b, s.act, w.a, w.b.identity);
      Net(r.x, r.y)
    else
      var r := Do(n.b, n.a, s.act, w.b, w.a.identity);
      Net(r.y, r.x)
  }

  // ----- the invariant, seen from side x whose host is `mine` -----

  predicate Has(q: seq<Param>, e: Event) {
    exists i | 0 <= i < |q| :: q[i].event == e
  }

  /** The events that can wait in a queue, with what comes with them. */
  predicate Shape(e: Param, theirs: Host) {
    || (e.event in {Start, WinElection, IPeerDisc, RPeerDisc} && e.io.None?)
    || (e.event == IRcvConnAck && e.io == Some(OWN))
    || (e.event == RConnCer && e.io == Some(PEER) && e.msg == From(theirs, Cer))
    || (e.event == IRcvCea && e.io.None? && e.msg == From(theirs, Cea(true)))
  }

  predicate QueueOk(q: seq<Param>, theirs: Host) {
    && (forall i | 0 <= i < |q| :: Shape(q[i], theirs))
    && (forall i, j | 0 <= i < j < |q| :: q[i].event != q[j].event)
    && (forall i, j | 0 <= i < j < |q| :: q[j].event == Start ==> q[i].event != IRcvConnAck)
  }

  predicate ChannelsOk(x: Node, y: Node) {
    var c := x.conn;
    && (if c.cerSent && !c.known then c.toResp == [Carry(Cer)] || c.toResp == [Carry(Cer), Fin]
        else c.toResp == [] || c.toResp == [Fin])
    && (c.toInit == [] || c.toInit == [Carry(Cea(true))] || c.toInit == [Fin])
    && (Fin in c.toResp ==> c.initEnd == Gone && !Has(y.peer.queue, RPeerDisc))
    && (c.known ==> c.cerSent)
    && (c.cerSent ==> c.up)
    && (c.up ==> x.called)
    && (c.initEnd != Live ==> x.peer.state == ROpen)
    && (c.respEnd != Live ==> x.peer.state == ROpen && (c.cerSent ==> c.known))
    && (Fin in c.toInit ==> c.respEnd == Gone && !Has(x.peer.queue, IPeerDisc))
  }

  predicate TokensOk(x: Node, y: Node) {
    var q := x.peer.queue;
    && (Has(q, Start) ==> x.called)
    && (Has(q, IRcvConnAck) ==> x.conn.up)
    && (Has(q, RConnCer) ==> y.conn.known)
    && (Has(q, RPeerDisc) ==> y.conn.initEnd == Gone && y.conn.known)
    && (Has(q, IPeerDisc) ==> x.conn.respEnd == Gone)
    && (Has(q, WinElection) ==> x.peer.state == WaitReturns)
    && (y.conn.ceaSent <==> x.peer.state == ROpen)
    && (Has(q, IRcvCea) ==> x.conn.ceaSent && x.conn.toInit != [Carry(Cea(true))] && x.peer.state != IOpen)
    && (x.conn.toInit == [Carry(Cea(true))] ==> x.conn.ceaSent && x.peer.state != IOpen)
    && (x.peer.state == IOpen ==> x.conn.ceaSent)
    && (x.conn.ceaSent ==> Has(q, IRcvCea) || x.conn.toInit == [Carry(Cea(true))] || x.peer.state == IOpen)
  }

  ghost predicate StateOk(x: Node, y: Node, mine: Host, theirs: Host, signedChar: bool) {
    var p := x.peer;
    var q := p.queue;
    var dialled := x.called && !Has(q, Start);
    var acked := x.conn.up && !Has(q, IRcvConnAck);
    var offered := y.conn.known && !Has(q, RConnCer);
    match p.state
    case Closed =>
      !x.conn.cerSent && !dialled && !acked && !offered && p.initiator.None? && p.responder.None?
    case WaitConnAck =>
      !x.conn.cerSent && dialled && !acked && !offered && p.initiator.None? && p.responder.None?
    case WaitConnAckElect =>
      !x.conn.cerSent && dialled && !acked && offered && p.initiator.None? && p.responder == Some(PEER)
      && p.peerHost == theirs
    case WaitICea =>
      x.conn.cerSent && dialled && acked && p.initiator == Some(OWN) && p.responder.None?
      && (offered ==> y.conn.initEnd == Gone)
    case WaitReturns =>
      x.conn.cerSent && dialled && acked && offered && p.initiator == Some(OWN) && p.responder == Some(PEER)
      && (Has(q, WinElection) <==> Wins(signedChar, mine, theirs))
    case ROpen =>
      offered && p.initiator.None? && p.responder == Some(PEER)
      && (x.conn.cerSent ==> dialled && acked && Wins(signedChar, mine, theirs))
      && (acked ==> x.conn.initEnd != Live)
    case IOpen =>
      x.conn.cerSent && dialled && acked && p.initiator == Some(OWN) && p.responder.None?
    case Closing => false
  }

  ghost predicate Half(x: Node, y: Node, mine: Host, theirs: Host, signedChar: bool) {
    && x.peer.running && x.peer.eventIo.None? && x.peer.outbox == [] && x.peer.trash == []
    && QueueOk(x.peer.queue, theirs)
    && ChannelsOk(x, y)
    && TokensOk(x, y)
    && StateOk(x, y, mine, theirs, signedChar)
  }

  ghost predicate J(x: Node, y: Node, cx: Config, cy: Config) {
    && Half(x, y, cx.identity, cy.identity, cx.signedChar)
    && Half(y, x, cy.identity, cx.identity, cy.signedChar)
  }

  /** A side's verdict in the election against the other, by its own comparison of `char`s. */
  ghost predicate Beats(mine: Config, theirs: Config) {
    Wins(mine.signedChar, mine.identity, theirs.identity)
  }

  /** Distinct hosts, not each the winner in its own eyes. */
  ghost predicate ConfigsOk(mine: Config, theirs: Config) {
    mine.identity != theirs.identity && !(Beats(mine, theirs) && Beats(theirs, mine))
  }

  lemma InitHolds(w: World)
    requires ConfigsOk(w.a, w.b)
    ensures J(InitNode(), InitNode(), w.a, w.b)
  {
  }

  lemma QueueAppend(q: seq<Param>, e: Param, theirs: Host)
    requires QueueOk(q, theirs) && Shape(e, theirs) && !Has(q, e.event)
    requires e.event == Start ==> !Has(q, IRcvConnAck)
    ensures QueueOk(q + [e], theirs)
    ensures forall ev :: Has(q + [e], ev) <==> Has(q, ev) || ev == e.event
  {
    forall ev ensures Has(q + [e], ev) <==> Has(q, ev) || ev == e.event {
      if ev == e.event { assert (q + [e])[|q|].event == ev; }
      if Has(q, ev) {
        var i :| 0 <= i < |q| && q[i].event == ev;
        assert (q + [e])[i].event == ev;
      }
    }
  }

  lemma QueueHead(q: seq<Param>, theirs: Host)
    requires QueueOk(q, theirs) && q != []
    ensures QueueOk(q[1..], theirs)
    ensures forall ev :: Has(q[1..], ev) <==> Has(q, ev) && ev != q[0].event
  {
    forall ev ensures Has(q[1..], ev) <==> Has(q, ev) && ev != q[0].event {
      if Has(q[1..], ev) {
        var i :| 0 <= i < |q[1..]| && q[1..][i].event == ev;
        assert q[i + 1].event == ev;
      }
      if Has(q, ev) && ev != q[0].event {
        var i :| 0 <= i < |q| && q[i].event == ev;
        assert q[1..][i - 1].event == ev;
      }
    }
  }

  /** Were both sides open as responders, each would have beaten the other. */
  lemma OneResponder(x: Node, y: Node, cx: Config, cy: Config)
    requires J(x, y, cx, cy) && ConfigsOk(cx, cy)
    ensures !(x.peer.state == ROpen && y.peer.state == ROpen)
  {
  }

  lemma CallKeeps(x: Node, y: Node, cx: Config, cy: Config)
    requires J(x, y, cx, cy) && ConfigsOk(cx, cy) && Enabled(x, y, CallStart)
    ensures var r := Do(x, y, CallStart, cx, cy.identity); J(r.x, r.y, cx, cy)
  {
    QueueAppend(x.peer.queue, Param(Start, NO_MSG, None), cy.identity);
  }

  lemma ConnectKeeps(x: Node, y: Node, cx: Config, cy: Config)
    requires J(x, y, cx, cy) && ConfigsOk(cx, cy) && Enabled(x, y, ConnectUp)
    ensures var r := Do(x, y, ConnectUp, cx, cy.identity); J(r.x, r.y, cx, cy)
  {
    QueueAppend(x.peer.queue, Param(IRcvConnAck, NO_MSG, Some(OWN)), cy.identity);
  }

  lemma CollectOwnKeeps(x: Node, y: Node, cx: Config, cy: Config)
    requires J(x, y, cx, cy) && ConfigsOk(cx, cy) && Enabled(x, y, CollectOwn)
    ensures var r := Do(x, y, CollectOwn, cx, cy.identity); J(r.x, r.y, cx, cy)
  {
    OneResponder(x, y, cx, cy);
  }

  lemma CollectPeerKeeps(x: Node, y: Node, cx: Config, cy: Config)
    requires J(x, y, cx, cy) && ConfigsOk(cx, cy) && Enabled(x, y, CollectPeer)
    ensures var r := Do(x, y, CollectPeer, cx, cy.identity); J(r.x, r.y, cx, cy)
  {
    OneResponder(x, y, cx, cy);
    assert y.conn.toInit == [];
    assert y.conn.toInit + [Fin] == [Fin];
  }

  lemma LoseOwnKeeps(x: Node, y: Node, cx: Config, cy: Config)
    requires J(x, y, cx, cy) && ConfigsOk(cx, cy) && Enabled(x, y, LoseOwn)
    ensures var r := Do(x, y, LoseOwn, cx, cy.identity); J(r.x, r.y, cx, cy)
  {
    OneResponder(x, y, cx, cy);
  }

  lemma LosePeerKeeps(x: Node, y: Node, cx: Config, cy: Config)
    requires J(x, y, cx, cy) && ConfigsOk(cx, cy) && Enabled(x, y, LosePeer)
    ensures var r := Do(x, y, LosePeer, cx, cy.identity); J(r.x, r.y, cx, cy)
  {
    OneResponder(x, y, cx, cy);
  }

  lemma OwnFinEffect(x: Node, y: Node, cx: Config, cy: Config)
    requires J(x, y, cx, cy) && ConfigsOk(cx, cy) && Enabled(x, y, ReceiveOwn) && x.conn.toInit[0] == Fin
    ensures x.conn.toInit == [Fin]
    ensures Do(x, y, ReceiveOwn, cx, cy.identity) ==
              Pair(Post(x.(conn := x.conn.(toInit := [])), IPeerDisc, NO_MSG, None), y)
  {
    hide TokensOk, StateOk;
    assert x.conn.toInit == [Fin] && x.conn.toInit[1..] == [];
  }

  lemma OwnFinKeeps(x: Node, y: Node, x1: Node, cx: Config, cy: Config)
    requires J(x, y, cx, cy) && ConfigsOk(cx, cy) && x.conn.toInit == [Fin]
    requires x1 == Post(x.(conn := x.conn.(toInit := [])), IPeerDisc, NO_MSG, None)
    ensures J(x1, y, cx, cy)
  {
    QueueAppend(x.peer.queue, Param(IPeerDisc, NO_MSG, None), cy.identity);
  }

  lemma ReceiveOwnFin(x: Node, y: Node, cx: Config, cy: Config)
    requires J(x, y, cx, cy) && ConfigsOk(cx, cy) && Enabled(x, y, ReceiveOwn)
    requires x.conn.toInit[0] == Fin
    ensures var r := Do(x, y, ReceiveOwn, cx, cy.identity); J(r.x, r.y, cx, cy)
  {
    OwnFinEffect(x, y, cx, cy);
    OwnFinKeeps(x, y, Do(x, y, ReceiveOwn, cx, cy.identity).x, cx, cy);
  }

  /** Only a side that waits for a CEA receives one. */
  lemma ReceiveOwnCeaEffect(x: Node, y: Node, cx: Config, cy: Config)
    requires J(x, y, cx, cy) && ConfigsOk(cx, cy) && Enabled(x, y, ReceiveOwn)
    requires x.conn.toInit[0] != Fin
    ensures x.peer.state == WaitICea || x.peer.state == WaitReturns
    ensures x.conn.toInit == [Carry(Cea(true))]
    ensures Do(x, y, ReceiveOwn, cx, cy.identity) ==
              Pair(Post(x.(conn := x.conn.(toInit := [])), IRcvCea, From(cy.identity, Cea(true)), None), y)
  {
    OneResponder(x, y, cx, cy);
    assert x.conn.toInit == [Carry(Cea(true))] && x.conn.toInit[1..] == [];
  }

  lemma CeaArrivesKeeps(x: Node, y: Node, x1: Node, cx: Config, cy: Config)
    requires J(x, y, cx, cy) && ConfigsOk(cx, cy)
    requires x.conn.toInit == [Carry(Cea(true))] && (x.peer.state == WaitICea || x.peer.state == WaitReturns)
    requires x1 == Post(x.(conn := x.conn.(toInit := [])), IRcvCea, From(cy.identity, Cea(true)), None)
    ensures J(x1, y, cx, cy)
  {
    QueueAppend(x.peer.queue, Param(IRcvCea, From(cy.identity, Cea(true)), None), cy.identity);
  }

  lemma ReceiveOwnCea(x: Node, y: Node, cx: Config, cy: Config)
    requires J(x, y, cx, cy) && ConfigsOk(cx, cy) && Enabled(x, y, ReceiveOwn)
    requires x.conn.toInit[0] != Fin
    ensures var r := Do(x, y, ReceiveOwn, cx, cy.identity); J(r.x, r.y, cx, cy)
  {
    ReceiveOwnCeaEffect(x, y, cx, cy);
    CeaArrivesKeeps(x, y, Do(x, y, ReceiveOwn, cx, cy.identity).x, cx, cy);
  }

  lemma ReceivePeerFin(x: Node, y: Node, cx: Config, cy: Config)
    requires J(x, y, cx, cy) && ConfigsOk(cx, cy) && Enabled(x, y, ReceivePeer)
    requires y.conn.toResp[0] == Fin
    ensures var r := Do(x, y, ReceivePeer, cx, cy.identity); J(r.x, r.y, cx, cy)
  {
    OneResponder(x, y, cx, cy);
    assert y.conn.toResp == [Fin];
    if y.conn.known {
      QueueAppend(x.peer.queue, Param(RPeerDisc, NO_MSG, None), cy.identity);
    }
  }

  lemma ReceivePeerCer(x: Node, y: Node, cx: Config, cy: Config)
    requires J(x, y, cx, cy) && ConfigsOk(cx, cy) && Enabled(x, y, ReceivePeer)
    requires y.conn.toResp[0] != Fin
    ensures var r := Do(x, y, ReceivePeer, cx, cy.identity); J(r.x, r.y, cx, cy)
  {
    OneResponder(x, y, cx, cy);
    assert y.conn.toResp[0] == Carry(Cer) && (y.conn.toResp[1..] == [] || y.conn.toResp[1..] == [Fin]);
    QueueAppend(x.peer.queue, Param(RConnCer, From(cy.identity, Cer), Some(PEER)), cy.identity);
  }

  // ----- serving one event, by state and event -----

  /** The pairs of state and event that meet. */
  predicate Meeting(s: State, e: Event) {
    match s
    case Closed => e == Start || e == RConnCer
    case WaitConnAck => e == IRcvConnAck || e == RConnCer
    case WaitConnAckElect => e == IRcvConnAck
    case WaitICea => e == RConnCer || e == IRcvCea || e == RPeerDisc
    case WaitReturns => e == WinElection || e == IRcvCea || e == RPeerDisc
    case IOpen => e == RConnCer || e == RPeerDisc
    case ROpen => e == Start || e == IRcvConnAck || e == IPeerDisc
    case Closing => false
  }

  lemma HeadIsPending(q: seq<Param>)
    requires q != []
    ensures Has(q, q[0].event)
  {
  }

  /** No other pair meets. */
  lemma Meets(x: Node, y: Node, cx: Config, cy: Config)
    requires J(x, y, cx, cy) && ConfigsOk(cx, cy) && x.peer.queue != []
    ensures Meeting(x.peer.state, x.peer.queue[0].event)
  {
    OneResponder(x, y, cx, cy);
    assert Shape(x.peer.queue[0], cy.identity);
    HeadIsPending(x.peer.queue);
  }

  /** The queue after an election: only the winner posts an event. */
  ghost function Elected(q: seq<Param>, cfg: Config, theirs: Host): seq<Param> {
    if Wins(cfg.signedChar, cfg.identity, theirs) then q + [Param(WinElection, NO_MSG, None)] else q
  }

  /** What serving one event comes to: the parts of the peer that matter here, and whether a CER, a CEA,
      the own transport or the other side's leaves it. */
  datatype Outcome = Outcome(state: State, initiator: Option<nat>, responder: Option<nat>, queue: seq<Param>,
                             cer: bool, cea: bool, own: bool, peer: bool)

  ghost function After(p: Peer, cfg: Config, theirs: Host): Outcome
    requires p.queue != []
  {
    var e, rest := p.queue[0].event, p.queue[1..];
    var quiet := Outcome(p.state, p.initiator, p.responder, rest, false, false, false, false);
    match p.state
    case Closed =>
      if e == Start then quiet.(state := WaitConnAck) else quiet.(state := ROpen, responder := Some(PEER), cea := true)
    case WaitConnAck =>
      if e == IRcvConnAck then quiet.(state := WaitICea, initiator := Some(OWN), cer := true)
      else quiet.(state := WaitConnAckElect, responder := Some(PEER))
    case WaitConnAckElect =>
      quiet.(state := WaitReturns, initiator := Some(OWN), queue := Elected(rest, cfg, theirs), cer := true)
    case WaitICea =>
      if e == RConnCer then quiet.(state := WaitReturns, responder := Some(PEER), queue := Elected(rest, cfg, theirs))
      else if e == IRcvCea then quiet.(state := IOpen)
      else quiet
    case WaitReturns =>
      if e == WinElection then quiet.(state := ROpen, initiator := None, cea := true, own := true)
      else if e == IRcvCea then quiet.(state := IOpen, responder := None, peer := true)
      else quiet.(state := WaitICea, responder := None, peer := true)
    case IOpen => quiet.(peer := e == RConnCer)
    case _ => quiet.(own := e == IRcvConnAck)
  }

  predicate Idle(p: Peer) {
    p.running && p.eventIo.None? && p.outbox == [] && p.trash == []
  }

  predicate HoldsInitiator(s: State) {
    s in {WaitICea, WaitReturns, IOpen}
  }

  predicate HoldsResponder(s: State) {
    s in {WaitConnAckElect, WaitReturns, ROpen}
  }

  /** A peer of the network about to serve an event. */
  predicate Ready(p: Peer, cfg: Config, theirs: Host) {
    && Idle(p) && p.queue != [] && Shape(p.queue[0], theirs) && Meeting(p.state, p.queue[0].event)
    && p.initiator == (if HoldsInitiator(p.state) then Some(OWN) else None)
    && p.responder == (if HoldsResponder(p.state) then Some(PEER) else None)
    && (p.state == WaitConnAckElect ==> p.peerHost == theirs) && cfg.identity != theirs
  }

  predicate Served(p: Peer, o: Outcome, theirs: Host, outbox: seq<Sent>, trash: seq<nat>) {
    && p.running && p.eventIo.None? && p.outbox == outbox && p.trash == trash
    && p.state == o.state && p.initiator == o.initiator && p.responder == o.responder && p.queue == o.queue
    && (o.state == WaitConnAckElect ==> p.peerHost == theirs)
  }

  function OutboxOf(o: Outcome): seq<Sent> {
    if o.cer then [Sent(Cer, Some(OWN))] else if o.cea then [Sent(Cea(true), Some(PEER))] else []
  }

  function TrashOf(o: Outcome): seq<nat> {
    if o.own then [OWN] else if o.peer then [PEER] else []
  }

  lemma ServeDialling(p: Peer, cfg: Config, theirs: Host)
    requires Ready(p, cfg, theirs) && p.state in {Closed, WaitConnAck, WaitConnAckElect}
    ensures var o := After(p, cfg, theirs); Served(Serve(p, cfg), o, theirs, OutboxOf(o), TrashOf(o))
  {
  }

  lemma ServeWaitICea(p: Peer, cfg: Config, theirs: Host)
    requires Ready(p, cfg, theirs) && p.state == WaitICea
    ensures var o := After(p, cfg, theirs); Served(Serve(p, cfg), o, theirs, OutboxOf(o), TrashOf(o))
  {
  }

  lemma ServeWaitReturns(p: Peer, cfg: Config, theirs: Host)
    requires Ready(p, cfg, theirs) && p.state == WaitReturns
    ensures var o := After(p, cfg, theirs); Served(Serve(p, cfg), o, theirs, OutboxOf(o), TrashOf(o))
  {
  }

  lemma ServeOpen(p: Peer, cfg: Config, theirs: Host)
    requires Ready(p, cfg, theirs) && p.state in {IOpen, ROpen}
    ensures var o := After(p, cfg, theirs); Served(Serve(p, cfg), o, theirs, OutboxOf(o), TrashOf(o))
  {
  }

  lemma OneMessage(s: Pair, m: Sent)
    ensures TransmitAll(s, [m]) == Transmit(s, m)
  {
    assert TransmitAll(Transmit(s, m), []) == Transmit(s, m);
    assert [m][1..] == [];
  }

  /** The connection one dialled, after sending a CER on it or not, and releasing it or not. */
  function OwnConn(c: Conn, cer: bool, drop: bool): Conn {
    var sent := if cer then c.(toResp := c.toResp + [Carry(Cer)], cerSent := true) else c;
    if drop then sent.(initEnd := Release(sent.initEnd)) else sent
  }

  /** The connection the other side dialled, after sending a CEA on it or not, and releasing it or not. */
  function PeerConn(c: Conn, cea: bool, drop: bool): Conn {
    var sent := if cea then c.(toInit := c.toInit + [Carry(Cea(true))], ceaSent := true) else c;
    if drop then sent.(respEnd := Release(sent.respEnd)) else sent
  }

  /** The outcome on both sides, once messages are out and transports released. */
  predicate Becomes(x: Node, y: Node, r: Pair, o: Outcome, theirs: Host) {
    && Served(r.x.peer, o, theirs, [], []) && r.x.called == x.called
    && r.x.conn == OwnConn(x.conn, o.cer, o.own) && r.y == y.(conn := PeerConn(y.conn, o.cea, o.peer))
  }

  /** How what a peer hands out reaches the two connections. */
  lemma Flow(x: Node, y: Node, cfg: Config, o: Outcome, theirs: Host)
    requires x.peer.queue != [] && !(o.cer && o.cea) && !(o.own && o.peer)
    requires Served(Serve(x.peer, cfg), o, theirs, OutboxOf(o), TrashOf(o))
    ensures Becomes(x, y, Serving(x, y, cfg), o, theirs)
  {
    var s := Pair(x.(peer := Serve(x.peer, cfg).(outbox := [], trash := [])), y);
    if o.cer {
      OneMessage(s, Sent(Cer, Some(OWN)));
    }
    if o.cea {
      OneMessage(s, Sent(Cea(true), Some(PEER)));
    }
  }

  lemma IsReady(x: Node, y: Node, cx: Config, cy: Config)
    requires J(x, y, cx, cy) && ConfigsOk(cx, cy) && x.peer.queue != []
    ensures Ready(x.peer, cx, cy.identity)
  {
    hide ChannelsOk, TokensOk, Has;
    Meets(x, y, cx, cy);
    assert Shape(x.peer.queue[0], cy.identity);
  }

  lemma ServingBecomes(x: Node, y: Node, cx: Config, cy: Config)
    requires J(x, y, cx, cy) && ConfigsOk(cx, cy) && x.peer.queue != []
    ensures Becomes(x, y, Serving(x, y, cx), After(x.peer, cx, cy.identity), cy.identity)
  {
    hide J, ConfigsOk, Serving, Becomes, Served;
    IsReady(x, y, cx, cy);
    match x.peer.state {
      case Closed | WaitConnAck | WaitConnAckElect => ServeDialling(x.peer, cx, cy.identity);
      case WaitICea => ServeWaitICea(x.peer, cx, cy.identity);
      case WaitReturns => ServeWaitReturns(x.peer, cx, cy.identity);
      case _ => ServeOpen(x.peer, cx, cy.identity);
    }
    Flow(x, y, cx, After(x.peer, cx, cy.identity), cy.identity);
  }

  // ----- what each meeting does to the invariant -----

  ghost predicate Takes(x: Node, y: Node, r: Pair, cx: Config, cy: Config, state: State, event: Event) {
    && J(x, y, cx, cy) && ConfigsOk(cx, cy)
    && x.peer.queue != [] && x.peer.state == state && x.peer.queue[0].event == event
    && Becomes(x, y, r, After(x.peer, cx, cy.identity), cy.identity)
  }

  lemma ClosedStartKeeps(x: Node, y: Node, r: Pair, cx: Config, cy: Config)
    requires Takes(x, y, r, cx, cy, Closed, Start)
    ensures J(r.x, r.y, cx, cy)
  {
    QueueHead(x.peer.queue, cy.identity);
  }

  lemma ClosedRConnCerMine(x: Node, y: Node, r: Pair, cx: Config, cy: Config)
    requires Takes(x, y, r, cx, cy, Closed, RConnCer)
    ensures Half(r.x, r.y, cx.identity, cy.identity, cx.signedChar)
  {
    assert y.conn.toInit == [] && [] + [Carry(Cea(true))] == [Carry(Cea(true))];
    assert r.y == y.(conn := y.conn.(toInit := [Carry(Cea(true))], ceaSent := true)) && r.x.conn == x.conn;
    QueueHead(x.peer.queue, cy.identity);
  }

  lemma ClosedRConnCerTheirs(x: Node, y: Node, r: Pair, cx: Config, cy: Config)
    requires Takes(x, y, r, cx, cy, Closed, RConnCer)
    ensures Half(r.y, r.x, cy.identity, cx.identity, cy.signedChar)
  {
    assert y.conn.toInit == [] && [] + [Carry(Cea(true))] == [Carry(Cea(true))];
    assert r.y == y.(conn := y.conn.(toInit := [Carry(Cea(true))], ceaSent := true)) && r.x.conn == x.conn;
    OneResponder(x, y, cx, cy);
    QueueHead(x.peer.queue, cy.identity);
  }

  lemma ClosedRConnCerKeeps(x: Node, y: Node, r: Pair, cx: Config, cy: Config)
    requires Takes(x, y, r, cx, cy, Closed, RConnCer)
    ensures J(r.x, r.y, cx, cy)
  {
    hide Takes, Half;
    ClosedRConnCerMine(x, y, r, cx, cy);
    ClosedRConnCerTheirs(x, y, r, cx, cy);
  }

  lemma WaitConnAckIRcvConnAckKeeps(x: Node, y: Node, r: Pair, cx: Config, cy: Config)
    requires Takes(x, y, r, cx, cy, WaitConnAck, IRcvConnAck)
    ensures J(r.x, r.y, cx, cy)
  {
    assert x.conn.toResp == [] && [] + [Carry(Cer)] == [Carry(Cer)];
    assert r.x.conn == x.conn.(toResp := [Carry(Cer)], cerSent := true) && r.y == y;
    QueueHead(x.peer.queue, cy.identity);
  }

  lemma WaitConnAckRConnCerKeeps(x: Node, y: Node, r: Pair, cx: Config, cy: Config)
    requires Takes(x, y, r, cx, cy, WaitConnAck, RConnCer)
    ensures J(r.x, r.y, cx, cy)
  {
    QueueHead(x.peer.queue, cy.identity);
  }

  lemma WaitConnAckElectIRcvConnAckMine(x: Node, y: Node, r: Pair, cx: Config, cy: Config)
    requires Takes(x, y, r, cx, cy, WaitConnAckElect, IRcvConnAck)
    ensures Half(r.x, r.y, cx.identity, cy.identity, cx.signedChar)
  {
    assert x.conn.toResp == [] && [] + [Carry(Cer)] == [Carry(Cer)];
    assert r.x.conn == x.conn.(toResp := [Carry(Cer)], cerSent := true) && r.y == y;
    QueueHead(x.peer.queue, cy.identity);
    QueueAppend(x.peer.queue[1..], Param(WinElection, NO_MSG, None), cy.identity);
  }

  lemma WaitConnAckElectIRcvConnAckTheirs(x: Node, y: Node, r: Pair, cx: Config, cy: Config)
    requires Takes(x, y, r, cx, cy, WaitConnAckElect, IRcvConnAck)
    ensures Half(r.y, r.x, cy.identity, cx.identity, cy.signedChar)
  {
    assert x.conn.toResp == [] && [] + [Carry(Cer)] == [Carry(Cer)];
    assert r.x.conn == x.conn.(toResp := [Carry(Cer)], cerSent := true) && r.y == y;
    QueueHead(x.peer.queue, cy.identity);
    QueueAppend(x.peer.queue[1..], Param(WinElection, NO_MSG, None), cy.identity);
  }

  lemma WaitConnAckElectIRcvConnAckKeeps(x: Node, y: Node, r: Pair, cx: Config, cy: Config)
    requires Takes(x, y, r, cx, cy, WaitConnAckElect, IRcvConnAck)
    ensures J(r.x, r.y, cx, cy)
  {
    hide Takes, Half;
    WaitConnAckElectIRcvConnAckMine(x, y, r, cx, cy);
    WaitConnAckElectIRcvConnAckTheirs(x, y, r, cx, cy);
  }

  lemma WaitICeaRConnCerKeeps(x: Node, y: Node, r: Pair, cx: Config, cy: Config)
    requires Takes(x, y, r, cx, cy, WaitICea, RConnCer)
    ensures J(r.x, r.y, cx, cy)
  {
    QueueHead(x.peer.queue, cy.identity);
    QueueAppend(x.peer.queue[1..], Param(WinElection, NO_MSG, None), cy.identity);
  }

  lemma WaitICeaIRcvCeaKeeps(x: Node, y: Node, r: Pair, cx: Config, cy: Config)
    requires Takes(x, y, r, cx, cy, WaitICea, IRcvCea)
    ensures J(r.x, r.y, cx, cy)
  {
    QueueHead(x.peer.queue, cy.identity);
  }

  lemma WaitReturnsWinElectionKeeps(x: Node, y: Node, r: Pair, cx: Config, cy: Config)
    requires Takes(x, y, r, cx, cy, WaitReturns, WinElection)
    ensures J(r.x, r.y, cx, cy)
  {
    assert y.conn.toInit == [] && [] + [Carry(Cea(true))] == [Carry(Cea(true))];
    assert r.y == y.(conn := y.conn.(toInit := [Carry(Cea(true))], ceaSent := true));
    QueueHead(x.peer.queue, cy.identity);
  }

  lemma WaitReturnsIRcvCeaKeeps(x: Node, y: Node, r: Pair, cx: Config, cy: Config)
    requires Takes(x, y, r, cx, cy, WaitReturns, IRcvCea)
    ensures J(r.x, r.y, cx, cy)
  {
    QueueHead(x.peer.queue, cy.identity);
  }

  lemma WaitReturnsRPeerDiscKeeps(x: Node, y: Node, r: Pair, cx: Config, cy: Config)
    requires Takes(x, y, r, cx, cy, WaitReturns, RPeerDisc)
    ensures J(r.x, r.y, cx, cy)
  {
    assert r.x.conn == x.conn && r.y == y.(conn := y.conn.(respEnd := Release(y.conn.respEnd)));
    QueueHead(x.peer.queue, cy.identity);
  }

  lemma IOpenRConnCerKeeps(x: Node, y: Node, r: Pair, cx: Config, cy: Config)
    requires Takes(x, y, r, cx, cy, IOpen, RConnCer)
    ensures J(r.x, r.y, cx, cy)
  {
    QueueHead(x.peer.queue, cy.identity);
  }

  /** The other meetings have no row in the table: only a transport that came along is destroyed. */
  predicate Ignores(s: State, e: Event) {
    || (s == ROpen && e in {Start, IRcvConnAck, IPeerDisc})
    || (s in {WaitICea, IOpen} && e == RPeerDisc)
  }

  lemma IgnoredKeeps(x: Node, y: Node, r: Pair, cx: Config, cy: Config, o: Outcome)
    requires J(x, y, cx, cy) && ConfigsOk(cx, cy)
    requires x.peer.queue != [] && Ignores(x.peer.state, x.peer.queue[0].event)
    requires o == Outcome(x.peer.state, x.peer.initiator, x.peer.responder, x.peer.queue[1..], false, false,
                          x.peer.queue[0].event == IRcvConnAck, false)
    requires Becomes(x, y, r, o, cy.identity)
    ensures J(r.x, r.y, cx, cy)
  {
    QueueHead(x.peer.queue, cy.identity);
  }

  lemma TakesMeet(x: Node, y: Node, r: Pair, cx: Config, cy: Config, state: State, event: Event)
    requires Takes(x, y, r, cx, cy, state, event)
    ensures Meeting(state, event)
  {
    hide J, ConfigsOk, Becomes;
    Meets(x, y, cx, cy);
  }

  lemma BecomesKeeps(x: Node, y: Node, r: Pair, cx: Config, cy: Config, state: State, event: Event)
    requires Takes(x, y, r, cx, cy, state, event)
    ensures J(r.x, r.y, cx, cy)
  {
    hide J, Becomes;
    TakesMeet(x, y, r, cx, cy, state, event);
    if Ignores(state, event) {
      IgnoredKeeps(x, y, r, cx, cy, After(x.peer, cx, cy.identity));
    } else {
      match state
      case Closed =>
        if event == Start { ClosedStartKeeps(x, y, r, cx, cy); } else { ClosedRConnCerKeeps(x, y, r, cx, cy); }
      case WaitConnAck =>
        if event == RConnCer { WaitConnAckRConnCerKeeps(x, y, r, cx, cy); }
        else { WaitConnAckIRcvConnAckKeeps(x, y, r, cx, cy); }
      case WaitConnAckElect => WaitConnAckElectIRcvConnAckKeeps(x, y, r, cx, cy);
      case WaitICea =>
        if event == RConnCer { WaitICeaRConnCerKeeps(x, y, r, cx, cy); }
        else { WaitICeaIRcvCeaKeeps(x, y, r, cx, cy); }
      case WaitReturns =>
        if event == WinElection { WaitReturnsWinElectionKeeps(x, y, r, cx, cy); }
        else if event == IRcvCea { WaitReturnsIRcvCeaKeeps(x, y, r, cx, cy); }
        else { WaitReturnsRPeerDiscKeeps(x, y, r, cx, cy); }
      case IOpen => IOpenRConnCerKeeps(x, y, r, cx, cy);
    }
  }

  lemma ServeKeeps(x: Node, y: Node, cx: Config, cy: Config)
    requires J(x, y, cx, cy) && ConfigsOk(cx, cy) && x.peer.queue != []
    ensures var r := Serving(x, y, cx); J(r.x, r.y, cx, cy)
  {
    hide J, ConfigsOk, Serving, Becomes, After;
    ServingBecomes(x, y, cx, cy);
    BecomesKeeps(x, y, Serving(x, y, cx), cx, cy, x.peer.state, x.peer.queue[0].event);
  }

  lemma DoKeeps(x: Node, y: Node, act: Act, cx: Config, cy: Config)
    requires J(x, y, cx, cy) && ConfigsOk(cx, cy) && Enabled(x, y, act)
    ensures var r := Do(x, y, act, cx, cy.identity); J(r.x, r.y, cx, cy)
  {
    hide J, Serving;
    match act
    case CallStart => CallKeeps(x, y, cx, cy);
    case ConnectUp => ConnectKeeps(x, y, cx, cy);
    case ServeOne => ServeKeeps(x, y, cx, cy);
    case CollectOwn => CollectOwnKeeps(x, y, cx, cy);
    case CollectPeer => CollectPeerKeeps(x, y, cx, cy);
    case ReceiveOwn => if x.conn.toInit[0] == Fin { ReceiveOwnFin(x, y, cx, cy); } else { ReceiveOwnCea(x, y, cx, cy); }
    case ReceivePeer =>
      if y.conn.toResp[0] == Fin { ReceivePeerFin(x, y, cx, cy); } else { ReceivePeerCer(x, y, cx, cy); }
    case LoseOwn => LoseOwnKeeps(x, y, cx, cy);
    case LosePeer => LosePeerKeeps(x, y, cx, cy);
  }
}
