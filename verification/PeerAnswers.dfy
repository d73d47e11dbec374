/** What a peer answers.  Everything here is said of states and events in the terms of RFC 3588 section 5.6,
    without the table or the names of its actions: what serving one event does in each state, what is sent
    in every run, when a lost connection is taken up again, and what becomes of a message that arrives. */
module PeerAnswers {
  import opened Common
  import opened Election
  import opened PeerFsm
  import opened PeerSafety
  import opened PeerMachine

  // ----- one event in each state -----

  /** The event is consumed, and with it the transport that came with it and that nobody took. */
  function Consumed(p: Peer): Peer
    requires p.queue != []
  {
    p.(queue := p.queue[1..], trash := Discard(p.trash, p.queue[0].io))
  }

  /** Between two events. */
  predicate Ready(p: Peer) {
    p.running && p.eventIo.None? && p.queue != []
  }

  /** The peer has closed: nothing is held, nothing but a retry can be armed. */
  predicate Shut(p: Peer, q: Peer)
    requires p.queue != []
  {
    && q.state == Closed && q.running && q.queue == p.queue[1..] && q.peerHost == []
    && q.initiator.None? && q.responder.None? && q.eventIo.None?
    && q.timers.timeout.None? && q.timers.watchdog.None?
    && q.cause == p.cause && q.dials == p.dials
  }

  /** It will not connect again by itself. */
  predicate Rests(p: Peer, q: Peer) {
    q.timers.retry.None? && q.attempts == p.attempts
  }

  /** It will try to connect again after the configured interval, unless it has tried as often as configured
      or the interval is zero. */
  predicate Retries(p: Peer, q: Peer, cfg: Config) {
    if p.attempts >= cfg.reconnectMax then q.timers.retry.None? && q.attempts == 0
    else if cfg.reconnectInterval == 0 then Rests(p, q)
    else q.timers.retry == Some(cfg.reconnectInterval) && q.attempts == p.attempts + 1
  }

  /** The other side's CER has come: two names alike end the matter, else the winner tells itself. */
  ghost predicate Elects(p: Peer, q: Peer, host: Host, cfg: Config)
    requires p.queue != []
  {
    if host == cfg.identity then Shut(p, q) && Rests(p, q)
    else q.state == WaitReturns && q.timers == p.timers && q.attempts == p.attempts && q.peerHost == host
         && q.queue == p.queue[1..] + if Wins(cfg.signedChar, cfg.identity, host)
                                      then [Param(WinElection, NO_MSG, None)] else []
  }

  /** What an event served in CLOSED leads to. */
  predicate ClosedFits(p: Peer, q: Peer, cfg: Config)
    requires p.queue != []
  {
    var e, served := p.queue[0], Consumed(p);
    match e.event
    case Start => q == served.(state := WaitConnAck, timers := p.timers.(timeout := Some(30)))
    case RConnCer =>
      var greeted := p.outbox + [Sent(Cea(e.msg.valid), e.io)];
      if e.msg.valid then
        q == p.(state := ROpen, queue := p.queue[1..], responder := e.io, trash := Discard(p.trash, p.responder),
                peerHost := e.msg.host, timers := Timers(None, Some(cfg.watchdog), None), outbox := greeted)
      else Shut(p, q) && Rests(p, q) && q.outbox == greeted
    case ConnRetry =>
      q == served.(timers := p.timers.(retry := None), dials := p.dials + 1,
                   queue := p.queue[1..] + [Param(Start, NO_MSG, None)])
    case _ => Shut(p, q) && Rests(p, q) && q.outbox == p.outbox
  }

  lemma ClosedAnswers(p: Peer, cfg: Config)
    requires Ready(p) && p.state == Closed
    ensures ClosedFits(p, Serve(p, cfg), cfg)
  {
    hide Elect;
  }

  /** What an event served in WAIT_CONN_ACK leads to. */
  predicate WaitConnAckFits(p: Peer, q: Peer, cfg: Config)
    requires p.queue != []
  {
    var e, served := p.queue[0], Consumed(p);
    match e.event
    case IRcvConnAck =>
      q == p.(state := WaitICea, queue := p.queue[1..], initiator := e.io, trash := Discard(p.trash, p.initiator),
              outbox := p.outbox + [Sent(Cer, e.io)])
    case IRcvConnNack => Shut(p, q) && Retries(p, q, cfg) && q.outbox == p.outbox
    case RConnCer =>
      if e.msg.valid then
        q == p.(state := WaitConnAckElect, queue := p.queue[1..], responder := e.io,
                trash := Discard(p.trash, p.responder), peerHost := e.msg.host)
      else Shut(p, q) && Rests(p, q) && q.outbox == p.outbox
    case Timeout | Stop => Shut(p, q) && Rests(p, q) && q.outbox == p.outbox
    case _ => q == served
  }

  lemma WaitConnAckConnections(p: Peer, cfg: Config)
    requires Ready(p) && p.state == WaitConnAck
    requires p.queue[0].event in {RConnCer, IRcvConnAck, IRcvConnNack}
    ensures WaitConnAckFits(p, Serve(p, cfg), cfg)
  {
  }

  lemma WaitConnAckRest(p: Peer, cfg: Config)
    requires Ready(p) && p.state == WaitConnAck
    requires p.queue[0].event !in {RConnCer, IRcvConnAck, IRcvConnNack}
    ensures WaitConnAckFits(p, Serve(p, cfg), cfg)
  {
  }

  lemma WaitConnAckAnswers(p: Peer, cfg: Config)
    requires Ready(p) && p.state == WaitConnAck
    ensures WaitConnAckFits(p, Serve(p, cfg), cfg)
  {
    hide Serve, WaitConnAckFits;
    if p.queue[0].event in {RConnCer, IRcvConnAck, IRcvConnNack} {
      WaitConnAckConnections(p, cfg);
    } else {
      WaitConnAckRest(p, cfg);
    }
  }

  /** What an event served in WAIT_I_CEA leads to. */
  ghost predicate WaitICeaFits(p: Peer, q: Peer, cfg: Config)
    requires p.queue != []
  {
    var e, served := p.queue[0], Consumed(p);
    match e.event
    case IRcvCea =>
      if e.msg.success then
        q == served.(state := IOpen, peerHost := e.msg.host, timers := Timers(None, Some(cfg.watchdog), None))
      else Shut(p, q) && Rests(p, q) && q.outbox == p.outbox
    case RConnCer =>
      && q.outbox == p.outbox
      && if !e.msg.valid then Shut(p, q.(initiator := None)) && Rests(p, q) && q.initiator == p.initiator
         else Elects(p, q, e.msg.host, cfg)
              && (e.msg.host != cfg.identity ==> q.initiator == p.initiator && q.responder == e.io)
    case IPeerDisc => Shut(p, q) && Retries(p, q, cfg) && q.outbox == p.outbox
    case IRcvNonCea | Timeout | Stop => Shut(p, q) && Rests(p, q) && q.outbox == p.outbox
    case _ => q == served
  }

  lemma WaitICeaCapabilities(p: Peer, cfg: Config)
    requires Ready(p) && p.state == WaitICea
    requires p.queue[0].event in {RConnCer, IRcvCea}
    ensures WaitICeaFits(p, Serve(p, cfg), cfg)
  {
  }

  lemma WaitICeaRest(p: Peer, cfg: Config)
    requires Ready(p) && p.state == WaitICea
    requires p.queue[0].event !in {RConnCer, IRcvCea}
    ensures WaitICeaFits(p, Serve(p, cfg), cfg)
  {
    hide Elect;
  }

  lemma WaitICeaAnswers(p: Peer, cfg: Config)
    requires Ready(p) && p.state == WaitICea
    ensures WaitICeaFits(p, Serve(p, cfg), cfg)
  {
    hide Serve, WaitICeaFits;
    if p.queue[0].event in {RConnCer, IRcvCea} {
      WaitICeaCapabilities(p, cfg);
    } else {
      WaitICeaRest(p, cfg);
    }
  }

  /** What an event served in WAIT_CONN_ACK_ELECT leads to. */
  ghost predicate WaitConnAckElectFits(p: Peer, q: Peer, cfg: Config)
    requires p.queue != []
  {
    var e, served := p.queue[0], Consumed(p);
    match e.event
    case IRcvConnAck =>
      && q.outbox == p.outbox + [Sent(Cer, e.io)] && Elects(p, q, p.peerHost, cfg)
      && (p.peerHost != cfg.identity ==> q.initiator == e.io && q.responder == p.responder)
    case IRcvConnNack =>
      q == p.(state := ROpen, queue := p.queue[1..], responder := e.io, trash := Discard(p.trash, p.responder),
              timers := Timers(None, Some(cfg.watchdog), p.timers.retry),
              outbox := p.outbox + [Sent(Cea(true), e.io)])
    case RPeerDisc =>
      q == served.(state := WaitConnAck, responder := None, trash := Discard(Discard(p.trash, p.responder), e.io))
    case Timeout => Shut(p, q) && Rests(p, q) && q.outbox == p.outbox
    case _ => q == served
  }

  lemma WaitConnAckElectConnections(p: Peer, cfg: Config)
    requires Ready(p) && p.state == WaitConnAckElect
    requires p.queue[0].event in {IRcvConnAck, IRcvConnNack}
    ensures WaitConnAckElectFits(p, Serve(p, cfg), cfg)
  {
  }

  lemma WaitConnAckElectRest(p: Peer, cfg: Config)
    requires Ready(p) && p.state == WaitConnAckElect
    requires p.queue[0].event !in {IRcvConnAck, IRcvConnNack}
    ensures WaitConnAckElectFits(p, Serve(p, cfg), cfg)
  {
  }

  lemma WaitConnAckElectAnswers(p: Peer, cfg: Config)
    requires Ready(p) && p.state == WaitConnAckElect
    ensures WaitConnAckElectFits(p, Serve(p, cfg), cfg)
  {
    hide Serve, WaitConnAckElectFits;
    if p.queue[0].event in {IRcvConnAck, IRcvConnNack} {
      WaitConnAckElectConnections(p, cfg);
    } else {
      WaitConnAckElectRest(p, cfg);
    }
  }

  /** What an event served in WAIT_RETURNS leads to. */
  predicate WaitReturnsFits(p: Peer, q: Peer, cfg: Config)
    requires p.queue != []
  {
    var e, served := p.queue[0], Consumed(p);
    match e.event
    case WinElection | IPeerDisc =>
      q == served.(state := ROpen, initiator := None, trash := Discard(Discard(p.trash, p.initiator), e.io),
                   timers := Timers(None, Some(cfg.watchdog), p.timers.retry),
                   outbox := p.outbox + [Sent(Cea(true), p.responder)])
    case IRcvCea =>
      if e.msg.success then
        q == served.(state := IOpen, responder := None, trash := Discard(Discard(p.trash, p.responder), e.io),
                     timers := Timers(None, Some(cfg.watchdog), p.timers.retry), peerHost := e.msg.host)
      else Shut(p, q) && Rests(p, q) && q.outbox == p.outbox
    case RPeerDisc =>
      q == served.(state := WaitICea, responder := None, trash := Discard(Discard(p.trash, p.responder), e.io))
    case Timeout => Shut(p, q) && Rests(p, q) && q.outbox == p.outbox
    case _ => q == served
  }

  lemma WaitReturnsAnswers(p: Peer, cfg: Config)
    requires Ready(p) && p.state == WaitReturns
    ensures WaitReturnsFits(p, Serve(p, cfg), cfg)
  {
  }

  /** What an event served in R_OPEN leads to. */
  predicate ROpenFits(p: Peer, q: Peer, cfg: Config)
    requires p.queue != []
  {
    var e, served := p.queue[0], Consumed(p);
    match e.event
    case RRcvDwr => q == served.(outbox := p.outbox + [Sent(Dwa, p.responder)])
    case Watchdog => q == served.(outbox := p.outbox + [Sent(Dwr, p.responder)])
    case RRcvCer =>
      q == served.(peerHost := e.msg.host, outbox := p.outbox + [Sent(Cea(e.msg.valid), p.responder)])
    case Stop =>
      q == served.(state := Closing, timers := Timers(Some(30), None, p.timers.retry),
                   outbox := p.outbox + [Sent(Dpr, p.responder)])
    case RRcvDpr => Shut(p, q) && Rests(p, q) && q.outbox == p.outbox + [Sent(Dpa, p.responder)]
    case RPeerDisc => Shut(p, q) && Retries(p, q, cfg) && q.outbox == p.outbox
    case RRcvCea =>
      if e.msg.success then q == served.(peerHost := e.msg.host, timers := Timers(None, Some(cfg.watchdog), None))
      else Shut(p, q) && Rests(p, q) && q.outbox == p.outbox
    case RRcvDwa => if e.msg.success then q == served else Shut(p, q) && Rests(p, q) && q.outbox == p.outbox
    case _ => q == served
  }

  lemma ROpenRequests(p: Peer, cfg: Config)
    requires Ready(p) && p.state == ROpen
    requires p.queue[0].event in {RRcvDwr, RRcvCer, RRcvDpr}
    ensures ROpenFits(p, Serve(p, cfg), cfg)
  {
    hide Elect;
  }

  lemma ROpenLocal(p: Peer, cfg: Config)
    requires Ready(p) && p.state == ROpen
    requires p.queue[0].event in {Watchdog, Stop}
    ensures ROpenFits(p, Serve(p, cfg), cfg)
  {
    hide Elect;
  }

  lemma ROpenEnds(p: Peer, cfg: Config)
    requires Ready(p) && p.state == ROpen
    requires p.queue[0].event in {RRcvCea, RRcvDwa, RPeerDisc}
    ensures ROpenFits(p, Serve(p, cfg), cfg)
  {
  }

  lemma ROpenRest(p: Peer, cfg: Config)
    requires Ready(p) && p.state == ROpen
    requires p.queue[0].event !in {RRcvDwr, RRcvCer, RRcvDpr, Watchdog, Stop, RRcvCea, RRcvDwa, RPeerDisc}
    ensures ROpenFits(p, Serve(p, cfg), cfg)
  {
  }

  lemma ROpenAnswers(p: Peer, cfg: Config)
    requires Ready(p) && p.state == ROpen
    ensures ROpenFits(p, Serve(p, cfg), cfg)
  {
    hide Serve, ROpenFits;
    if p.queue[0].event in {RRcvDwr, RRcvCer, RRcvDpr} {
      ROpenRequests(p, cfg);
    } else if p.queue[0].event in {Watchdog, Stop} {
      ROpenLocal(p, cfg);
    } else if p.queue[0].event in {RRcvCea, RRcvDwa, RPeerDisc} {
      ROpenEnds(p, cfg);
    } else {
      ROpenRest(p, cfg);
    }
  }

  /** What an event served in I_OPEN leads to. */
  predicate IOpenFits(p: Peer, q: Peer, cfg: Config)
    requires p.queue != []
  {
    var e, served := p.queue[0], Consumed(p);
    match e.event
    case IRcvDwr => q == served.(outbox := p.outbox + [Sent(Dwa, p.initiator)])
    case Watchdog => q == served.(outbox := p.outbox + [Sent(Dwr, p.initiator)])
    case IRcvCer =>
      q == served.(peerHost := e.msg.host, outbox := p.outbox + [Sent(Cea(e.msg.valid), p.initiator)])
    case Stop =>
      q == served.(state := Closing, timers := Timers(Some(30), None, p.timers.retry),
                   outbox := p.outbox + [Sent(Dpr, p.initiator)])
    case IRcvDpr => Shut(p, q) && Rests(p, q) && q.outbox == p.outbox + [Sent(Dpa, p.initiator)]
    case IPeerDisc => Shut(p, q) && Retries(p, q, cfg) && q.outbox == p.outbox
    case IRcvCea =>
      if e.msg.success then q == served.(peerHost := e.msg.host, timers := Timers(None, Some(cfg.watchdog), None))
      else Shut(p, q) && Rests(p, q) && q.outbox == p.outbox
    case IRcvDwa => if e.msg.success then q == served else Shut(p, q) && Rests(p, q) && q.outbox == p.outbox
    case _ => q == served
  }

  lemma IOpenRequests(p: Peer, cfg: Config)
    requires Ready(p) && p.state == IOpen
    requires p.queue[0].event in {IRcvDwr, IRcvCer, IRcvDpr}
    ensures IOpenFits(p, Serve(p, cfg), cfg)
  {
    hide Elect;
  }

  lemma IOpenLocal(p: Peer, cfg: Config)
    requires Ready(p) && p.state == IOpen
    requires p.queue[0].event in {Watchdog, Stop}
    ensures IOpenFits(p, Serve(p, cfg), cfg)
  {
    hide Elect;
  }

  lemma IOpenEnds(p: Peer, cfg: Config)
    requires Ready(p) && p.state == IOpen
    requires p.queue[0].event in {IRcvCea, IRcvDwa, IPeerDisc}
    ensures IOpenFits(p, Serve(p, cfg), cfg)
  {
  }

  lemma IOpenRest(p: Peer, cfg: Config)
    requires Ready(p) && p.state == IOpen
    requires p.queue[0].event !in {IRcvDwr, IRcvCer, IRcvDpr, Watchdog, Stop, IRcvCea, IRcvDwa, IPeerDisc}
    ensures IOpenFits(p, Serve(p, cfg), cfg)
  {
  }

  lemma IOpenAnswers(p: Peer, cfg: Config)
    requires Ready(p) && p.state == IOpen
    ensures IOpenFits(p, Serve(p, cfg), cfg)
  {
    hide Serve, IOpenFits;
    if p.queue[0].event in {IRcvDwr, IRcvCer, IRcvDpr} {
      IOpenRequests(p, cfg);
    } else if p.queue[0].event in {Watchdog, Stop} {
      IOpenLocal(p, cfg);
    } else if p.queue[0].event in {IRcvCea, IRcvDwa, IPeerDisc} {
      IOpenEnds(p, cfg);
    } else {
      IOpenRest(p, cfg);
    }
  }

  /** What an event served in CLOSING leads to. */
  predicate ClosingFits(p: Peer, q: Peer, cfg: Config)
    requires p.queue != []
  {
    var e, served := p.queue[0], Consumed(p);
    match e.event
    case IRcvDpa | RRcvDpa =>
      Shut(p, q) && q.outbox == p.outbox && if p.cause == Rebooting then Retries(p, q, cfg) else Rests(p, q)
    case Timeout => Shut(p, q) && Rests(p, q) && q.outbox == p.outbox
    case IPeerDisc | RPeerDisc => Shut(p, q) && Retries(p, q, cfg) && q.outbox == p.outbox
    case _ => q == served
  }

  lemma ClosingAnswered(p: Peer, cfg: Config)
    requires Ready(p) && p.state == Closing
    requires p.queue[0].event in {IRcvDpa, RRcvDpa}
    ensures ClosingFits(p, Serve(p, cfg), cfg)
  {
  }

  lemma ClosingEnds(p: Peer, cfg: Config)
    requires Ready(p) && p.state == Closing
    requires p.queue[0].event in {Timeout, IPeerDisc, RPeerDisc}
    ensures ClosingFits(p, Serve(p, cfg), cfg)
  {
  }

  lemma ClosingRest(p: Peer, cfg: Config)
    requires Ready(p) && p.state == Closing
    requires p.queue[0].event !in {IRcvDpa, RRcvDpa, Timeout, IPeerDisc, RPeerDisc}
    ensures ClosingFits(p, Serve(p, cfg), cfg)
  {
  }

  lemma ClosingAnswers(p: Peer, cfg: Config)
    requires Ready(p) && p.state == Closing
    ensures ClosingFits(p, Serve(p, cfg), cfg)
  {
    hide Serve, ClosingFits;
    if p.queue[0].event in {IRcvDpa, RRcvDpa} {
      ClosingAnswered(p, cfg);
    } else if p.queue[0].event in {Timeout, IPeerDisc, RPeerDisc} {
      ClosingEnds(p, cfg);
    } else {
      ClosingRest(p, cfg);
    }
  }

  /** What serving an event does, whatever the state. */
  ghost predicate Answers(p: Peer, q: Peer, cfg: Config)
    requires p.queue != []
  {
    match p.state
    case Closed => ClosedFits(p, q, cfg)
    case WaitConnAck => WaitConnAckFits(p, q, cfg)
    case WaitICea => WaitICeaFits(p, q, cfg)
    case WaitConnAckElect => WaitConnAckElectFits(p, q, cfg)
    case WaitReturns => WaitReturnsFits(p, q, cfg)
    case ROpen => ROpenFits(p, q, cfg)
    case IOpen => IOpenFits(p, q, cfg)
    case Closing => ClosingFits(p, q, cfg)
  }

  /** Every event in every state has the answer that the protocol gives it there. */
  lemma EveryEventIsAnswered(p: Peer, cfg: Config)
    requires Ready(p)
    ensures Answers(p, Serve(p, cfg), cfg)
  {
    hide Serve, ClosedFits, WaitConnAckFits, WaitICeaFits, WaitConnAckElectFits, WaitReturnsFits, ROpenFits,
         IOpenFits, ClosingFits;
    match p.state
    case Closed => ClosedAnswers(p, cfg);
    case WaitConnAck => WaitConnAckAnswers(p, cfg);
    case WaitICea => WaitICeaAnswers(p, cfg);
    case WaitConnAckElect => WaitConnAckElectAnswers(p, cfg);
    case WaitReturns => WaitReturnsAnswers(p, cfg);
    case ROpen => ROpenAnswers(p, cfg);
    case IOpen => IOpenAnswers(p, cfg);
    case Closing => ClosingAnswers(p, cfg);
  }

  // ----- what is sent in every run -----

  /** An event, served in a state, calls for a message. */
  predicate CallsFor(s: State, e: Param, c: Command) {
    match c
    case Cer => (s == WaitConnAck || s == WaitConnAckElect) && e.event == IRcvConnAck
    case Cea(ok) =>
      || (s == Closed && e.event == RConnCer && e.msg.valid == ok)
      || (s == WaitConnAckElect && e.event == IRcvConnNack && ok)
      || (s == WaitReturns && (e.event == WinElection || e.event == IPeerDisc) && ok)
      || (s == IOpen && e.event == IRcvCer && e.msg.valid == ok)
      || (s == ROpen && e.event == RRcvCer && e.msg.valid == ok)
    case Dwr => (s == IOpen || s == ROpen) && e.event == Watchdog
    case Dwa => (s == IOpen && e.event == IRcvDwr) || (s == ROpen && e.event == RRcvDwr)
    case Dpr => (s == IOpen || s == ROpen) && e.event == Stop
    case Dpa => (s == IOpen && e.event == IRcvDpr) || (s == ROpen && e.event == RRcvDpr)
  }

  /** The transport for it: the one held in a state that holds one for the purpose, else the event's own. */
  function Line(p: Peer, e: Param): Option<nat> {
    match p.state
    case IOpen => p.initiator
    case ROpen | WaitReturns => p.responder
    case _ => e.io
  }

  /** How many messages of a kind went out on a transport. */
  function Tally(ms: seq<Sent>, x: Sent): nat {
    if ms == [] then 0 else Tally(ms[..|ms| - 1], x) + if ms[|ms| - 1] == x then 1 else 0
  }

  function Calling(p: Peer, i: Input, x: Sent): nat {
    if i.ServeOne? && p.queue != [] && CallsFor(p.state, p.queue[0], x.command) && Line(p, p.queue[0]) == x.io
    then 1 else 0
  }

  /** How many of the events served in a run called for one. */
  ghost function Calls(p: Peer, inputs: seq<Input>, cfg: Config, x: Sent): nat
    decreases |inputs|
  {
    if inputs == [] then 0 else Calling(p, inputs[0], x) + Calls(Step(p, inputs[0], cfg), inputs[1..], cfg, x)
  }

  lemma TallyAppends(ms: seq<Sent>, more: seq<Sent>, x: Sent)
    requires |more| <= 1
    ensures Tally(ms + more, x) == Tally(ms, x) + Tally(more, x)
  {
    if more == [] {
      assert ms + more == ms;
    } else {
      assert (ms + more)[..|ms|] == ms && more[..0] == [];
    }
  }

  lemma TallyOfOne(ms: seq<Sent>, x: Sent)
    requires |ms| <= 1
    ensures Tally(ms, x) == if ms == [x] then 1 else 0
  {
  }

  predicate IsCalledFor(s: State, e: Param, p: Peer, sent: seq<Sent>, x: Sent) {
    |sent| <= 1 && (sent == [x] <==> CallsFor(s, e, x.command) && Line(p.(state := s), e) == x.io)
  }

  lemma IOpenIsCalledFor(s: State, e: Param, p: Peer, row: Row, x: Sent)
    requires Transition(s, e.event) == Some(row) && p.state == row.next && p.eventIo == e.io
    requires s == IOpen
    ensures IsCalledFor(s, e, p, SentBy(row.action, p, e.msg), x)
  {
  }

  lemma ROpenIsCalledFor(s: State, e: Param, p: Peer, row: Row, x: Sent)
    requires Transition(s, e.event) == Some(row) && p.state == row.next && p.eventIo == e.io
    requires s == ROpen
    ensures IsCalledFor(s, e, p, SentBy(row.action, p, e.msg), x)
  {
  }

  lemma OpeningIsCalledFor(s: State, e: Param, p: Peer, row: Row, x: Sent)
    requires Transition(s, e.event) == Some(row) && p.state == row.next && p.eventIo == e.io
    requires s !in {IOpen, ROpen}
    ensures IsCalledFor(s, e, p, SentBy(row.action, p, e.msg), x)
  {
  }

  lemma NothingIsCalledFor(s: State, e: Param, c: Command)
    requires Transition(s, e.event).None?
    ensures !CallsFor(s, e, c)
  {
  }

  lemma ServeIsCounted(p: Peer, cfg: Config, x: Sent)
    requires Ready(p)
    ensures Tally(Serve(p, cfg).outbox, x) == Tally(p.outbox, x) + Calling(p, ServeOne, x)
  {
    hide Run, SentBy, CallsFor, Tally, Transition;
    var e := p.queue[0];
    match Transition(p.state, e.event)
    case None => NothingIsCalledFor(p.state, e, x.command);
    case Some(row) =>
      var p1 := p.(queue := p.queue[1..], eventIo := e.io, state := row.next);
      match p.state {
        case IOpen => IOpenIsCalledFor(p.state, e, p1, row, x);
        case ROpen => ROpenIsCalledFor(p.state, e, p1, row, x);
        case _ => OpeningIsCalledFor(p.state, e, p1, row, x);
      }
      TallyOfOne(SentBy(row.action, p1, e.msg), x);
      if Greets(row.action) {
        GreetingsSend(row.action, p1, e.msg, cfg);
      } else {
        OthersSend(row.action, p1, e.msg, cfg);
      }
      TallyAppends(p.outbox, SentBy(row.action, p1, e.msg), x);
  }

  /** In every run the messages of each kind that went out on each transport are as many as the events served
      that called for one while that transport was the one to use: as many DPAs as DPRs, DWAs as DWRs, and
      DWRs as watchdog events in the open states, and none besides. */
  lemma {:induction false} SentIsCounted(p: Peer, inputs: seq<Input>, cfg: Config, x: Sent)
    requires Inv(p)
    ensures Tally(RunFrom(p, inputs, cfg).outbox, x) == Tally(p.outbox, x) + Calls(p, inputs, cfg, x)
    decreases |inputs|
  {
    if inputs != [] {
      hide Inv, Tally, Calling;
      StepIsCounted(p, inputs[0], cfg, x);
      StepKeepsInv(p, inputs[0], cfg);
      SentIsCounted(Step(p, inputs[0], cfg), inputs[1..], cfg, x);
    }
  }

  lemma StepIsCounted(p: Peer, i: Input, cfg: Config, x: Sent)
    requires Inv(p)
    ensures Tally(Step(p, i, cfg).outbox, x) == Tally(p.outbox, x) + Calling(p, i, x)
  {
    if i.ServeOne? && p.queue != [] {
      hide Serve, Tally;
      ServeIsCounted(p, cfg, x);
    }
  }

  // ----- when a lost connection is taken up again -----

  /** The event ends a connection, or an attempt at one, that the peer wants back. */
  predicate Loses(p: Peer, e: Event) {
    match p.state
    case WaitConnAck => e == IRcvConnNack
    case WaitICea | IOpen => e == IPeerDisc
    case ROpen => e == RPeerDisc
    case Closing => e == IPeerDisc || e == RPeerDisc || ((e == IRcvDpa || e == RRcvDpa) && p.cause == Rebooting)
    case _ => false
  }

  /** Only such an event arms the retry timer and counts an attempt, unless it gives up. */
  lemma OnlyLossesRetry(p: Peer, cfg: Config)
    requires Ready(p)
    ensures var q := Serve(p, cfg);
            if Loses(p, p.queue[0].event) then Shut(p, q) && Retries(p, q, cfg)
            else q.attempts == p.attempts && (q.timers.retry.None? || q.timers.retry == p.timers.retry)
  {
    hide Serve;
    EveryEventIsAnswered(p, cfg);
  }

  function Loss(p: Peer, i: Input): (l: nat)
    ensures l <= 1
  {
    if i.ServeOne? && p.queue != [] && Loses(p, p.queue[0].event) then 1 else 0
  }

  ghost function Losses(p: Peer, inputs: seq<Input>, cfg: Config): nat
    decreases |inputs|
  {
    if inputs == [] then 0 else Loss(p, inputs[0]) + Losses(Step(p, inputs[0], cfg), inputs[1..], cfg)
  }

  lemma AtLeast(n: nat, d: int)
    requires d >= 1
    ensures n * d >= n
  {
    assert n * d == n * (d - 1) + n;
  }

  lemma OneRound(r: nat, n: nat)
    requires n > 0
    ensures (n + r) % n == r % n
  {
    var d := (n + r) / n - r / n - 1;
    assert n * d == r % n - (n + r) % n;
    if d >= 1 {
      AtLeast(n, d);
    } else if d <= -1 {
      AtLeast(n, -d);
    }
  }

  /** The count after so many losses: it starts again when the configured number of attempts is used up. */
  function CountAfter(losses: nat, max: nat): nat {
    losses % (max + 1)
  }

  lemma Rounds(a: nat, l: nat, r: nat, max: nat)
    requires a <= max && l <= 1
    ensures CountAfter((if l == 0 then a else if a < max then a + 1 else 0) + r, max) == CountAfter(a + (l + r), max)
  {
    OneRound(r, max + 1);
  }

  lemma NoRound(a: nat, max: nat)
    requires a <= max
    ensures CountAfter(a, max) == a
  {
  }

  lemma StepAttempts(p: Peer, i: Input, cfg: Config)
    requires Inv(p) && p.attempts <= cfg.reconnectMax && cfg.reconnectInterval > 0
    ensures Step(p, i, cfg).attempts
            == if Loss(p, i) == 0 then p.attempts else if p.attempts < cfg.reconnectMax then p.attempts + 1 else 0
  {
    if i.ServeOne? && p.queue != [] {
      hide Serve, Loses;
      OnlyLossesRetry(p, cfg);
    }
  }

  /** In every run the attempts count the losses in rounds: after as many attempts in a row as configured the
      next loss is not followed by one, and the count starts again. */
  lemma {:induction false} AttemptsCountLosses(p: Peer, inputs: seq<Input>, cfg: Config)
    requires Inv(p) && p.attempts <= cfg.reconnectMax && cfg.reconnectInterval > 0
    ensures RunFrom(p, inputs, cfg).attempts == CountAfter(p.attempts + Losses(p, inputs, cfg), cfg.reconnectMax)
    decreases |inputs|
  {
    hide Inv, Step, Loss, CountAfter;
    if inputs == [] {
      NoRound(p.attempts, cfg.reconnectMax);
    } else {
      StepAttempts(p, inputs[0], cfg);
      StepKeepsInv(p, inputs[0], cfg);
      AttemptsCountLosses(Step(p, inputs[0], cfg), inputs[1..], cfg);
      Rounds(p.attempts, Loss(p, inputs[0]), Losses(Step(p, inputs[0], cfg), inputs[1..], cfg), cfg.reconnectMax);
    }
  }

  // ----- messages as they arrive -----

  /** A request of the base protocol, arriving at an open peer and served there, is answered on the connection in
      use by its own answer; only a DPR closes. */
  lemma RequestsAreAnswered(p: Peer, code: nat, m: Msg, known: bool, cfg: Config)
    requires p.running && p.eventIo.None? && p.queue == [] && p.state in {IOpen, ROpen}
    requires code in {257, 280, 282}
    ensures var a := Arrived(p, code, true, m, known);
            a.queue != []
            && var q, line := Serve(a, cfg), if p.state == IOpen then p.initiator else p.responder;
               if code == 257 then
                 q == p.(peerHost := m.host, outbox := p.outbox + [Sent(Cea(m.valid), line)])
               else if code == 280 then q == p.(outbox := p.outbox + [Sent(Dwa, line)])
               else Shut(a, q) && Rests(p, q) && q.outbox == p.outbox + [Sent(Dpa, line)]
  {
    hide Serve;
    EveryEventIsAnswered(Arrived(p, code, true, m, known), cfg);
  }

  /** A base protocol answer that is known does what it says: a CEA or DWA reporting a failure closes. */
  lemma AnswersAreTaken(p: Peer, code: nat, m: Msg, cfg: Config)
    requires p.running && p.eventIo.None? && p.queue == [] && p.state in {IOpen, ROpen}
    requires code in {257, 280, 282}
    ensures var a := Arrived(p, code, false, m, true);
            a.queue != []
            && var q := Serve(a, cfg);
               if code == 282 || (code == 280 && m.success) then q == p
               else if code == 257 && m.success then
                 q == p.(peerHost := m.host, timers := Timers(None, Some(cfg.watchdog), None))
               else Shut(a, q) && Rests(p, q) && q.outbox == p.outbox
  {
    hide Serve;
    EveryEventIsAnswered(Arrived(p, code, false, m, true), cfg);
  }

  /** In CLOSING a DPA closes, and nothing else that can arrive changes anything. */
  lemma DpaCloses(p: Peer, code: nat, request: bool, m: Msg, known: bool, cfg: Config)
    requires p.running && p.eventIo.None? && p.queue == [] && p.state == Closing
    ensures var a := Arrived(p, code, request, m, known);
            if a.queue == [] then a == p && !(code == 282 && !request && known)
            else
              var q := Serve(a, cfg);
              && q.outbox == p.outbox
              && if code == 282 && !request && known then
                   Shut(a, q) && if p.cause == Rebooting then Retries(p, q, cfg) else Rests(p, q)
                 else q == p
  {
    hide Serve;
    var a := Arrived(p, code, request, m, known);
    if a.queue != [] {
      EveryEventIsAnswered(a, cfg);
    }
  }

  /** In WAIT_I_CEA a CEA that is known opens or closes, one that is not is dropped, and any other message closes. */
  lemma OnlyCeaOpens(p: Peer, code: nat, request: bool, m: Msg, known: bool, cfg: Config)
    requires p.running && p.eventIo.None? && p.queue == [] && p.state == WaitICea
    ensures var a := Arrived(p, code, request, m, known);
            if code == 257 && !request && !known then a == p
            else
              a.queue != []
              && var q := Serve(a, cfg);
                 if code == 257 && !request && m.success then
                   q == p.(state := IOpen, peerHost := m.host, timers := Timers(None, Some(cfg.watchdog), None))
                 else Shut(a, q) && Rests(p, q) && q.outbox == p.outbox
  {
    hide Serve;
    var a := Arrived(p, code, request, m, known);
    if a.queue != [] {
      EveryEventIsAnswered(a, cfg);
    }
  }

  /** In WAIT_RETURNS only a CEA that is known counts: it opens the connection dialled, or closes. */
  lemma CeaEndsElection(p: Peer, code: nat, request: bool, m: Msg, known: bool, cfg: Config)
    requires p.running && p.eventIo.None? && p.queue == [] && p.state == WaitReturns
    ensures var a := Arrived(p, code, request, m, known);
            if code != 257 || request || !known then a == p
            else
              a.queue != []
              && var q := Serve(a, cfg);
                 if m.success then
                   q == p.(state := IOpen, responder := None, trash := Discard(p.trash, p.responder),
                           timers := Timers(None, Some(cfg.watchdog), p.timers.retry), peerHost := m.host)
                 else Shut(a, q) && Rests(p, q) && q.outbox == p.outbox
  {
    hide Serve;
    var a := Arrived(p, code, request, m, known);
    if a.queue != [] {
      EveryEventIsAnswered(a, cfg);
    }
  }

  /** Another application's message is for open connections: there the machine accepts it and passes it on, in
      WAIT_I_CEA it closes as above, and elsewhere it is dropped, as every message is before a connection. */
  lemma OtherMessagesPass(p: Peer, code: nat, request: bool, m: Msg, known: bool, cfg: Config)
    requires p.running && p.eventIo.None? && p.queue == [] && p.state != WaitICea
    requires code !in {257, 280, 282} || p.state in {Closed, WaitConnAck, WaitConnAckElect}
    ensures var a := Arrived(p, code, request, m, known);
            if p.state in {IOpen, ROpen} then
              && a.queue != [] && Serve(a, cfg) == p
              && Transition(p.state, a.queue[0].event) == Some(Row(p.state, Process))
            else a == p
  {
    hide Serve;
    var a := Arrived(p, code, request, m, known);
    if a.queue != [] {
      EveryEventIsAnswered(a, cfg);
    }
  }

  /** A base protocol answer whose identifiers are not known is dropped; in WAIT_I_CEA only a CEA gets that far. */
  lemma UnknownAnswersAreDropped(p: Peer, code: nat, m: Msg)
    requires code in {257, 280, 282} && (p.state != WaitICea || code == 257)
    ensures Arrived(p, code, false, m, false) == p
  {
  }

  // ----- hello and goodbye -----

  /** Starting an idle peer dials once and waits for the connection under the timeout. */
  lemma CallDials(p: Peer, cfg: Config)
    requires p.running && p.eventIo.None? && p.queue == [] && p.state == Closed
    ensures Step(Step(p, Call, cfg), ServeOne, cfg)
            == p.(state := WaitConnAck, timers := p.timers.(timeout := Some(30)), dials := p.dials + 1)
  {
    hide Serve;
    assert [Param(Start, NO_MSG, None)][1..] == [];
    EveryEventIsAnswered(Step(p, Call, cfg), cfg);
  }

  /** Stopping an open peer sends its DPR on the connection in use; once the DPA has come the peer is closed, and
      connects again by itself only if the cause given was a reboot. */
  lemma GoodbyeRests(p: Peer, why: Cause, m: Msg, cfg: Config)
    requires p.running && p.eventIo.None? && p.queue == [] && p.state in {IOpen, ROpen}
    ensures var line := if p.state == IOpen then p.initiator else p.responder;
            var closing := Step(Step(p, Hangup(why), cfg), ServeOne, cfg);
            var arrived := Arrived(closing, 282, false, m, true);
            var q := Step(arrived, ServeOne, cfg);
            && closing == p.(state := Closing, cause := why, outbox := p.outbox + [Sent(Dpr, line)],
                             timers := Timers(Some(30), None, p.timers.retry))
            && arrived.queue != [] && Shut(arrived, q) && q.queue == [] && q.outbox == closing.outbox
            && if why == Rebooting then Retries(p, q, cfg) else Rests(p, q)
  {
    hide Serve;
    assert [Param(Stop, NO_MSG, None)][1..] == [];
    EveryEventIsAnswered(Step(p, Hangup(why), cfg), cfg);
    var closing := Step(Step(p, Hangup(why), cfg), ServeOne, cfg);
    DpaCloses(closing, 282, false, m, true, cfg);
  }
}
