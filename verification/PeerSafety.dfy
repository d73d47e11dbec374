/** What every run of one peer keeps, whatever its environment posts. */
module PeerSafety {
  import opened Common
  import opened Election
  import opened PeerFsm

  /** What can happen to a peer between two served events. */
  datatype Input = Post(param: Param)   // the transport layer reports something
                 | Expire(timer: Event) // an armed timer fires
                 | Call                 // the application starts the peer
                 | Hangup(cause: Cause) // the application stops the peer
                 | ServeOne             // the job queue serves one event

  /** A transport comes with a connection acknowledgement and with a CER on a new connection, and
      with nothing else. */
  predicate WellFormed(e: Param) {
    e.io.Some? <==> e.event in {IRcvConnAck, RConnCer}
  }

  predicate Armed(p: Peer, timer: Event) {
    || (timer == Timeout && p.timers.timeout.Some?)
    || (timer == Watchdog && p.timers.watchdog.Some?)
    || (timer == ConnRetry && p.timers.retry.Some?)
  }

  ghost function Step(p: Peer, i: Input, cfg: Config): Peer {
    match i
    case Post(e) => if WellFormed(e) then Notify(p, e) else p
    case Expire(t) => if Armed(p, t) then Notify(p, Param(t, NO_MSG, None)) else p
    case Call => Dial(p)
    case Hangup(cause) => Halt(p, cause)
    case ServeOne => if p.queue != [] then Serve(p, cfg) else p
  }

  ghost function RunFrom(p: Peer, inputs: seq<Input>, cfg: Config): Peer
    decreases |inputs|
  {
    if inputs == [] then p else RunFrom(Step(p, inputs[0], cfg), inputs[1..], cfg)
  }

  predicate Transient(s: State) {
    s in {WaitConnAck, WaitICea, WaitConnAckElect, WaitReturns, Closing}
  }

  predicate TimersFit(p: Peer) {
    && (Armed(p, Timeout) <==> Transient(p.state))
    && (Armed(p, Watchdog) <==> p.state in {IOpen, ROpen})
  }

  /** Who holds which transport.  R_OPEN is absent: see `OpenResponder`. */
  predicate TransportsFit(p: Peer) {
    match p.state
    case Closed => p.responder.None?
    case WaitConnAck => p.responder.None?
    case WaitICea => p.initiator.Some? && p.responder.None?
    case WaitConnAckElect => p.responder.Some?
    case WaitReturns => p.initiator.Some? && p.responder.Some?
    case IOpen => p.initiator.Some? && p.responder.None?
    case ROpen => true
    case Closing => true
  }

  predicate QueueFits(q: seq<Param>) {
    forall i | 0 <= i < |q| :: WellFormed(q[i])
  }

  predicate Inv(p: Peer) {
    p.running && p.eventIo.None? && QueueFits(p.queue) && TimersFit(p) && TransportsFit(p)
  }

  /** The only events an action posts are its own election victory and a new start. */
  lemma RunKeepsQueue(a: Action, p: Peer, m: Msg, cfg: Config)
    requires QueueFits(p.queue) && p.running
    ensures QueueFits(Run(a, p, m, cfg).queue) && Run(a, p, m, cfg).running
  {
    assert WellFormed(Param(WinElection, NO_MSG, None)) && WellFormed(Param(Start, NO_MSG, None));
  }

  /** When an action ends in `Cleanup` with the FSM bit. */
  predicate Closes(a: Action, p: Peer, m: Msg, cfg: Config) {
    || a in {CleanUp, Fail, ConnNack, Disconnect, DisconnectDpa, ISendDpaDisconnect, RSendDpaDisconnect}
    || (a in {RAcceptSendCea, RAccept, RAcceptElect} && !m.valid)
    || (a in {ProcessCea, RDisconnectIOpen, ProcessDwa} && !m.success)
    || (a == RAcceptElect && cfg.identity == m.host)
    || (a == ISendCerElect && cfg.identity == p.peerHost)
  }

  /** What every action does to the state, the two mandatory timers and the two transports. */
  predicate Effect(a: Action, p: Peer, m: Msg, cfg: Config, q: Peer) {
    if Closes(a, p, m, cfg) then
      && q.state == Closed && q.timers.timeout.None? && q.timers.watchdog.None?
      && q.responder.None? && q.initiator == (if a == RAcceptElect && !m.valid then p.initiator else None)
    else
      && q.state == p.state
      && q.timers.timeout == (
           if a in {RAcceptSendCea, ProcessCea, RSendCea, RDisconnectIOpen, IDisconnectSendCea} then None
           else if a in {ISendConnReq, ISendDpr, RSendDpr} then Some(CONNECT_ATTEMPT_TOUT)
           else p.timers.timeout)
      && q.timers.watchdog == (
           if a in {RAcceptSendCea, ProcessCea, RSendCea, RDisconnectIOpen, IDisconnectSendCea} then Some(cfg.watchdog)
           else if a in {ISendDpr, RSendDpr} then None
           else p.timers.watchdog)
      && q.initiator == (
           if a in {ISendCer, ISendCerElect} then p.eventIo
           else if a == IDisconnectSendCea then None
           else p.initiator)
      && q.responder == (
           if a in {RAcceptSendCea, RAccept, RAcceptElect, RSendCea} then p.eventIo
           else if a in {RDisconnectResp, RDisconnectIOpen} then None
           else p.responder)
  }

  lemma RunEffect(a: Action, p: Peer, m: Msg, cfg: Config)
    ensures Effect(a, p, m, cfg, Run(a, p, m, cfg))
  {
    hide Effect, Run;
    match a
    case RAcceptSendCea | RAccept | RSendCea | RAcceptElect => AcceptingEffect(a, p, m, cfg);
    case ISendCer | ISendCerElect | IDisconnectSendCea => DiallingEffect(a, p, m, cfg);
    case CleanUp | Fail | ConnNack | Disconnect | DisconnectDpa => CleanupEffect(a, p, m, cfg);
    case ISendDpaDisconnect | RSendDpaDisconnect | ProcessCea | ProcessDwa | RDisconnectIOpen =>
      PartingEffect(a, p, m, cfg);
    case RSendCeaOpen | ProcessDwrSendDwa | ISendDpr | RSendDpr | ISendCea | SendWatchdog =>
      SendingEffect(a, p, m, cfg);
    case _ => KeepingEffect(a, p, m, cfg);
  }

  lemma AcceptingEffect(a: Action, p: Peer, m: Msg, cfg: Config)
    requires a in {RAcceptSendCea, RAccept, RSendCea, RAcceptElect}
    ensures Effect(a, p, m, cfg, Run(a, p, m, cfg))
  {
  }

  lemma DiallingEffect(a: Action, p: Peer, m: Msg, cfg: Config)
    requires a in {ISendCer, ISendCerElect, IDisconnectSendCea}
    ensures Effect(a, p, m, cfg, Run(a, p, m, cfg))
  {
  }

  lemma CleanupEffect(a: Action, p: Peer, m: Msg, cfg: Config)
    requires a in {CleanUp, Fail, ConnNack, Disconnect, DisconnectDpa}
    ensures Effect(a, p, m, cfg, Run(a, p, m, cfg))
  {
  }

  lemma PartingEffect(a: Action, p: Peer, m: Msg, cfg: Config)
    requires a in {ISendDpaDisconnect, RSendDpaDisconnect, ProcessCea, ProcessDwa, RDisconnectIOpen}
    ensures Effect(a, p, m, cfg, Run(a, p, m, cfg))
  {
  }

  lemma SendingEffect(a: Action, p: Peer, m: Msg, cfg: Config)
    requires a in {RSendCeaOpen, ProcessDwrSendDwa, ISendDpr, RSendDpr, ISendCea, SendWatchdog}
    ensures Effect(a, p, m, cfg, Run(a, p, m, cfg))
  {
  }

  lemma KeepingEffect(a: Action, p: Peer, m: Msg, cfg: Config)
    requires a in {NoAction, ISendConnReq, Retry, RDisconnectResp, RReject, RSend, Process, ISend}
    ensures Effect(a, p, m, cfg, Run(a, p, m, cfg))
  {
  }

  lemma RunFitsTimers(a: Action, s: State, e: Param, p: Peer, cfg: Config, q: Peer)
    requires Transition(s, e.event) == Some(Row(p.state, a))
    requires TimersFit(p.(state := s))
    requires Effect(a, p, e.msg, cfg, q)
    ensures TimersFit(q)
  {
  }

  lemma RunFitsTransports(a: Action, s: State, e: Param, p: Peer, cfg: Config, q: Peer)
    requires Transition(s, e.event) == Some(Row(p.state, a))
    requires TransportsFit(p.(state := s))
    requires WellFormed(e) && p.eventIo == e.io
    requires Effect(a, p, e.msg, cfg, q)
    ensures TransportsFit(q)
  {
  }

  lemma ServeKeepsInv(p: Peer, cfg: Config)
    requires Inv(p) && p.queue != []
    ensures Inv(Serve(p, cfg))
  {
    hide Run, Effect, Transition;
    var e := p.queue[0];
    assert WellFormed(e);
    var p1 := p.(queue := p.queue[1..], eventIo := e.io);
    match Transition(p.state, e.event)
    case None =>
    case Some(row) =>
      var p2 := p1.(state := row.next);
      RunKeepsQueue(row.action, p2, e.msg, cfg);
      RunEffect(row.action, p2, e.msg, cfg);
      RunFitsTimers(row.action, p.state, e, p2, cfg, Run(row.action, p2, e.msg, cfg));
      RunFitsTransports(row.action, p.state, e, p2, cfg, Run(row.action, p2, e.msg, cfg));
  }

  lemma StepKeepsInv(p: Peer, i: Input, cfg: Config)
    requires Inv(p)
    ensures Inv(Step(p, i, cfg))
  {
    if i.ServeOne? && p.queue != [] {
      ServeKeepsInv(p, cfg);
    }
  }

  lemma {:induction false} EveryRunKeepsInv(p: Peer, inputs: seq<Input>, cfg: Config)
    requires Inv(p)
    ensures Inv(RunFrom(p, inputs, cfg))
    decreases |inputs|
  {
    if inputs != [] {
      StepKeepsInv(p, inputs[0], cfg);
      EveryRunKeepsInv(Step(p, inputs[0], cfg), inputs[1..], cfg);
    }
  }

  /** No run parks in a transient state without a way out: the timeout is armed there, and serving
      it closes the peer with nothing held and nothing armed. */
  lemma TransientHasWayOut(p: Peer, cfg: Config)
    requires Inv(p) && Transient(p.state)
    ensures Armed(p, Timeout)
    ensures var q := Handle(p, Param(Timeout, NO_MSG, None), cfg);
            q.state == Closed && q.running && q.timers == NO_TIMERS && q.initiator.None? && q.responder.None?
  {
  }

  /** The effect of serving an event that the table accepts. */
  lemma ServeEffect(p: Peer, cfg: Config, row: Row)
    requires p.running && p.queue != [] && Transition(p.state, p.queue[0].event) == Some(row)
    ensures var e := p.queue[0];
            Effect(row.action, p.(queue := p.queue[1..], eventIo := e.io, state := row.next), e.msg, cfg, Serve(p, cfg))
  {
    var e := p.queue[0];
    RunEffect(row.action, p.(queue := p.queue[1..], eventIo := e.io, state := row.next), e.msg, cfg);
  }

  // ----- the two places where a transport is not where its state suggests -----

  /** A step that enters R_OPEN brings a responder exactly when it was not the connection NACK, which
      overwrites the accepted responder with its own empty transport. */
  lemma OpeningResponder(p: Peer, i: Input, cfg: Config)
    requires Inv(p) && Step(p, i, cfg).state == ROpen
    ensures p.state != ROpen ==> i.ServeOne? && p.queue != []
    ensures p.state != ROpen ==> (Step(p, i, cfg).responder.Some? <==> p.queue[0].event != IRcvConnNack)
    ensures p.state == ROpen ==> Step(p, i, cfg).responder == p.responder
  {
    hide Run;
    if i.ServeOne? && p.queue != [] {
      var e := p.queue[0];
      assert WellFormed(e);
      if Transition(p.state, e.event).Some? {
        var row := Transition(p.state, e.event).value;
        ServeEffect(p, cfg, row);
        var p1 := p.(queue := p.queue[1..], eventIo := e.io, state := row.next);
        OpeningEffect(p.state, e, p1, row, cfg, Serve(p, cfg));
      }
    }
  }

  lemma OpeningEffect(s: State, e: Param, p: Peer, row: Row, cfg: Config, q: Peer)
    requires Transition(s, e.event) == Some(row) && p.state == row.next && p.eventIo == e.io
    requires TransportsFit(p.(state := s)) && WellFormed(e)
    requires Effect(row.action, p, e.msg, cfg, q) && q.state == ROpen
    ensures s != ROpen ==> (q.responder.Some? <==> e.event != IRcvConnNack)
    ensures s == ROpen ==> q.responder == p.responder
  {
  }

  /** Serving an event leaves an initiator behind in CLOSED exactly when an unacceptable CER ended
      WAIT_I_CEA, or when a retry found one already left behind. */
  lemma ClosedInitiator(p: Peer, cfg: Config)
    requires Inv(p) && p.queue != [] && Serve(p, cfg).state == Closed
    ensures Serve(p, cfg).initiator.Some? <==>
              || (p.state == WaitICea && p.queue[0].event == RConnCer && !p.queue[0].msg.valid)
              || (p.state == Closed && p.queue[0].event == ConnRetry && p.initiator.Some?)
  {
    hide Run;
    var e := p.queue[0];
    assert WellFormed(e);
    if Transition(p.state, e.event).Some? {
      var row := Transition(p.state, e.event).value;
      ServeEffect(p, cfg, row);
      var p1 := p.(queue := p.queue[1..], eventIo := e.io, state := row.next);
      ClosingEffect(p.state, e, p1, row, cfg, Serve(p, cfg));
    }
  }

  lemma ClosingEffect(s: State, e: Param, p: Peer, row: Row, cfg: Config, q: Peer)
    requires Transition(s, e.event) == Some(row) && p.state == row.next && p.eventIo == e.io
    requires TransportsFit(p.(state := s)) && WellFormed(e)
    requires Effect(row.action, p, e.msg, cfg, q) && q.state == Closed
    ensures q.initiator.Some? <==>
              || (s == WaitICea && e.event == RConnCer && !e.msg.valid)
              || (s == Closed && e.event == ConnRetry && p.initiator.Some?)
  {
  }

  lemma RunStep(p: Peer, inputs: seq<Input>, k: nat, cfg: Config)
    requires k < |inputs|
    ensures RunFrom(p, inputs[k..], cfg) == RunFrom(Step(p, inputs[k], cfg), inputs[k + 1..], cfg)
  {
    assert inputs[k..][1..] == inputs[k + 1..];
  }

  /** The peer that has dialled and waits, holding at most a transport it accepted. */
  function Dialled(state: State, responder: Option<nat>, host: Host): Peer {
    Init().(state := state, responder := responder, peerHost := host, dials := 1,
            timers := NO_TIMERS.(timeout := Some(CONNECT_ATTEMPT_TOUT)))
  }

  lemma DialledWaits(cfg: Config)
    ensures Step(Step(Init(), Call, cfg), ServeOne, cfg) == Dialled(WaitConnAck, None, [])
  {
    var p := Step(Init(), Call, cfg);
    assert p.queue == [Param(Start, NO_MSG, None)] && p.queue[1..] == [];
  }

  lemma PostAndServe(p: Peer, e: Param, cfg: Config)
    requires p.running && p.queue == [] && WellFormed(e)
    ensures Step(Step(p, Post(e), cfg), ServeOne, cfg) == DropEventIo(Handle(p.(eventIo := e.io), e, cfg))
  {
    assert [e][1..] == [] && [] + [e] == [e];
    var q := Step(p, Post(e), cfg);
    assert q.queue == [e];
    assert p.(eventIo := e.io) == q.(queue := [], eventIo := e.io);
  }

  lemma WaitingPeerServes(m: Msg, io: nat, cfg: Config)
    ensures var p := Dialled(WaitConnAck, None, []);
            var cer, ack := Param(RConnCer, m, Some(io)), Param(IRcvConnAck, NO_MSG, Some(io));
            && (m.valid ==> DropEventIo(Handle(p.(eventIo := cer.io), cer, cfg))
                            == Dialled(WaitConnAckElect, Some(io), m.host))
            && DropEventIo(Handle(p.(eventIo := ack.io), ack, cfg))
               == Send(p.(state := WaitICea, initiator := Some(io)), Cer, Some(io))
  {
  }

  /** A run that ends in R_OPEN with the accepted responder thrown away. */
  lemma NackLosesResponder(m: Msg, io: nat, cfg: Config)
    requires m.valid
    ensures var inputs := [Call, ServeOne, Post(Param(RConnCer, m, Some(io))), ServeOne,
                           Post(Param(IRcvConnNack, NO_MSG, None)), ServeOne];
            var q := RunFrom(Init(), inputs, cfg);
            q.state == ROpen && q.responder.None? && q.initiator.None? && q.trash == [io]
  {
    var nack, cer := Param(IRcvConnNack, NO_MSG, None), Param(RConnCer, m, Some(io));
    var q := RunFrom(Init(), [Call, ServeOne, Post(cer), ServeOne, Post(nack), ServeOne], cfg);
    assert q == DropEventIo(Handle(Dialled(WaitConnAckElect, Some(io), m.host), nack, cfg)) by {
      hide Handle, Step;
      SixSteps([Call, ServeOne, Post(cer), ServeOne, Post(nack), ServeOne], cfg);
      DialledWaits(cfg);
      PostAndServe(Dialled(WaitConnAck, None, []), cer, cfg);
      WaitingPeerServes(m, io, cfg);
      PostAndServe(Dialled(WaitConnAckElect, Some(io), m.host), nack, cfg);
    }
  }

  /** A run that ends in CLOSED with the initiator still held. */
  lemma RejectedCerKeepsInitiator(m: Msg, mine: nat, theirs: nat, cfg: Config)
    requires !m.valid
    ensures var inputs := [Call, ServeOne, Post(Param(IRcvConnAck, NO_MSG, Some(mine))), ServeOne,
                           Post(Param(RConnCer, m, Some(theirs))), ServeOne];
            var q := RunFrom(Init(), inputs, cfg);
            q.state == Closed && q.initiator == Some(mine) && q.trash == [theirs]
  {
    var ack, cer := Param(IRcvConnAck, NO_MSG, Some(mine)), Param(RConnCer, m, Some(theirs));
    var q := RunFrom(Init(), [Call, ServeOne, Post(ack), ServeOne, Post(cer), ServeOne], cfg);
    var p := Dialled(WaitConnAck, None, []);
    var waiting := Send(p.(state := WaitICea, initiator := Some(mine)), Cer, Some(mine));
    assert q == DropEventIo(Handle(waiting.(eventIo := cer.io), cer, cfg)) by {
      hide Handle, Step;
      SixSteps([Call, ServeOne, Post(ack), ServeOne, Post(cer), ServeOne], cfg);
      DialledWaits(cfg);
      PostAndServe(p, ack, cfg);
      WaitingPeerServes(m, mine, cfg);
      PostAndServe(waiting, cer, cfg);
    }
  }

  lemma SixSteps(inputs: seq<Input>, cfg: Config)
    requires |inputs| == 6
    ensures var p1 := Step(Init(), inputs[0], cfg);
            var p2 := Step(p1, inputs[1], cfg);
            var p3 := Step(p2, inputs[2], cfg);
            var p4 := Step(p3, inputs[3], cfg);
            RunFrom(Init(), inputs, cfg) == Step(Step(p4, inputs[4], cfg), inputs[5], cfg)
  {
    var p1 := Step(Init(), inputs[0], cfg);
    var p2 := Step(p1, inputs[1], cfg);
    var p3 := Step(p2, inputs[2], cfg);
    var p4 := Step(p3, inputs[3], cfg);
    var p5 := Step(p4, inputs[4], cfg);
    assert inputs[0..] == inputs;
    RunStep(Init(), inputs, 0, cfg);
    RunStep(p1, inputs, 1, cfg);
    RunStep(p2, inputs, 2, cfg);
    RunStep(p3, inputs, 3, cfg);
    RunStep(p4, inputs, 4, cfg);
    RunStep(p5, inputs, 5, cfg);
  }

  // ----- who holds what, and what is sent on it, told from the events of a run alone -----

  /** What a run has to remember: whether the last entry into R_OPEN was a connection NACK, whether any
      was, whether a refused CER has left an initiator behind, and whether the peer closes as initiator. */
  datatype Past = Past(nack: bool, everNack: bool, left: bool, own: bool)

  const NO_PAST := Past(false, false, false, false)

  predicate Dials(s: State) {
    s in {WaitICea, WaitReturns, IOpen}
  }

  /** Event e was served in state s and led to state t. */
  function NextPast(past: Past, s: State, e: Param, t: State): Past {
    Past(if s != ROpen && t == ROpen then e.event == IRcvConnNack else past.nack,
         past.everNack || (s == WaitConnAckElect && e.event == IRcvConnNack),
         if s == WaitICea && e.event == RConnCer && !e.msg.valid then true
         else if t == Closed && !(s == Closed && e.event == ConnRetry) then false
         else past.left && !Dials(t),
         if s == Closing then past.own else s == IOpen)
  }

  ghost function StepPast(past: Past, p: Peer, i: Input, cfg: Config): Past {
    if i.ServeOne? && p.queue != [] then NextPast(past, p.state, p.queue[0], Serve(p, cfg).state) else past
  }

  ghost function RunPast(past: Past, p: Peer, inputs: seq<Input>, cfg: Config): Past
    decreases |inputs|
  {
    if inputs == [] then past
    else RunPast(StepPast(past, p, inputs[0], cfg), Step(p, inputs[0], cfg), inputs[1..], cfg)
  }

  predicate InitiatorFits(p: Peer, past: Past) {
    && (p.initiator.Some? <==> Dials(p.state) || (p.state == Closing && past.own) || past.left)
    && (past.left ==> !Dials(p.state))
  }

  predicate ResponderFits(p: Peer, past: Past) {
    && (p.responder.Some? <==>
          || p.state == WaitConnAckElect || p.state == WaitReturns
          || (p.state == ROpen && !past.nack)
          || (p.state == Closing && !past.own && !past.nack))
    && (past.nack ==> past.everNack)
  }

  lemma InitiatorEffect(s: State, e: Param, p: Peer, row: Row, cfg: Config, q: Peer, past: Past)
    requires Transition(s, e.event) == Some(row) && p.state == row.next && p.eventIo == e.io
    requires InitiatorFits(p.(state := s), past) && WellFormed(e)
    requires Effect(row.action, p, e.msg, cfg, q)
    ensures InitiatorFits(q, NextPast(past, s, e, q.state))
  {
  }

  lemma ResponderEffect(s: State, e: Param, p: Peer, row: Row, cfg: Config, q: Peer, past: Past)
    requires Transition(s, e.event) == Some(row) && p.state == row.next && p.eventIo == e.io
    requires ResponderFits(p.(state := s), past) && WellFormed(e)
    requires Effect(row.action, p, e.msg, cfg, q)
    ensures ResponderFits(q, NextPast(past, s, e, q.state))
  {
  }

  lemma ServeFollowsPast(p: Peer, cfg: Config, past: Past)
    requires Inv(p) && p.queue != [] && InitiatorFits(p, past) && ResponderFits(p, past)
    ensures var next := NextPast(past, p.state, p.queue[0], Serve(p, cfg).state);
            InitiatorFits(Serve(p, cfg), next) && ResponderFits(Serve(p, cfg), next)
  {
    hide Run, Effect;
    var e := p.queue[0];
    assert WellFormed(e);
    if Transition(p.state, e.event).Some? {
      var row := Transition(p.state, e.event).value;
      var p1 := p.(queue := p.queue[1..], eventIo := e.io, state := row.next);
      ServeEffect(p, cfg, row);
      InitiatorEffect(p.state, e, p1, row, cfg, Serve(p, cfg), past);
      ResponderEffect(p.state, e, p1, row, cfg, Serve(p, cfg), past);
    }
  }

  /** In every run, in every state, the events tell exactly whether an initiator and a responder are held:
      R_OPEN and CLOSING included, and initiators that a refused CER left behind. */
  lemma {:induction false} TransportsFollowPast(p: Peer, inputs: seq<Input>, cfg: Config, past: Past)
    requires Inv(p) && InitiatorFits(p, past) && ResponderFits(p, past)
    ensures var q, after := RunFrom(p, inputs, cfg), RunPast(past, p, inputs, cfg);
            InitiatorFits(q, after) && ResponderFits(q, after)
    decreases |inputs|
  {
    if inputs != [] {
      hide Inv, InitiatorFits, ResponderFits;
      FollowsOneStep(p, inputs[0], cfg, past);
      StepKeepsInv(p, inputs[0], cfg);
      TransportsFollowPast(Step(p, inputs[0], cfg), inputs[1..], cfg, StepPast(past, p, inputs[0], cfg));
    }
  }

  lemma FollowsOneStep(p: Peer, i: Input, cfg: Config, past: Past)
    requires Inv(p) && InitiatorFits(p, past) && ResponderFits(p, past)
    ensures var q, after := Step(p, i, cfg), StepPast(past, p, i, cfg);
            InitiatorFits(q, after) && ResponderFits(q, after)
  {
    if i.ServeOne? && p.queue != [] {
      hide Serve, NextPast;
      ServeFollowsPast(p, cfg, past);
    }
  }

  /** In every run, a peer in R_OPEN holds a responder if and only if a NACK did not open it. */
  lemma OpenResponder(p: Peer, inputs: seq<Input>, cfg: Config, past: Past)
    requires Inv(p) && InitiatorFits(p, past) && ResponderFits(p, past)
    ensures var q := RunFrom(p, inputs, cfg);
            q.state == ROpen ==> (q.responder.Some? <==> !RunPast(past, p, inputs, cfg).nack)
  {
    TransportsFollowPast(p, inputs, cfg, past);
  }

  /** What an action hands to the transmitter. */
  function SentBy(a: Action, p: Peer, m: Msg): seq<Sent> {
    match a
    case RAcceptSendCea => [Sent(Cea(m.valid), if p.state == IOpen then p.initiator else p.eventIo)]
    case RSendCea => [Sent(Cea(true), if p.state == IOpen then p.initiator else p.eventIo)]
    case IDisconnectSendCea => [Sent(Cea(true), if p.state == IOpen then None else p.responder)]
    case ISendCer | ISendCerElect => [Sent(Cer, p.eventIo)]
    case RSendCeaOpen | ISendCea => [Sent(Cea(m.valid), OpenIo(p))]
    case ProcessDwrSendDwa => [Sent(Dwa, OpenIo(p))]
    case SendWatchdog => [Sent(Dwr, OpenIo(p))]
    case ISendDpr => [Sent(Dpr, p.initiator)]
    case RSendDpr => [Sent(Dpr, p.responder)]
    case ISendDpaDisconnect => [Sent(Dpa, p.initiator)]
    case RSendDpaDisconnect => [Sent(Dpa, p.responder)]
    case _ => []
  }

  predicate Greets(a: Action) {
    a in {RAcceptSendCea, RSendCea, IDisconnectSendCea, ISendCer, ISendCerElect, RSendCeaOpen, ISendCea}
  }

  lemma GreetingsSend(a: Action, p: Peer, m: Msg, cfg: Config)
    requires Greets(a)
    ensures Run(a, p, m, cfg).outbox == p.outbox + SentBy(a, p, m)
  {
  }

  lemma OthersSend(a: Action, p: Peer, m: Msg, cfg: Config)
    requires !Greets(a)
    ensures Run(a, p, m, cfg).outbox == p.outbox + SentBy(a, p, m)
  {
  }

  /** A message with no transport to go out on. */
  predicate Bare(ms: seq<Sent>) {
    exists i | 0 <= i < |ms| :: ms[i].io.None?
  }

  lemma BareAppends(ms: seq<Sent>, more: seq<Sent>)
    requires |more| <= 1
    ensures Bare(ms + more) <==> Bare(ms) || Bare(more)
  {
    if Bare(ms) {
      var i :| 0 <= i < |ms| && ms[i].io.None?;
      assert (ms + more)[i].io.None?;
    }
    if Bare(more) {
      assert (ms + more)[|ms|].io.None?;
    }
  }

  /** Only a peer that a NACK has opened sends without a transport, and being opened so it does. */
  lemma SentIsBare(s: State, e: Param, p: Peer, row: Row, past: Past)
    requires Transition(s, e.event) == Some(row) && p.state == row.next && p.eventIo == e.io && WellFormed(e)
    requires InitiatorFits(p.(state := s), past) && ResponderFits(p.(state := s), past)
    ensures var sent := SentBy(row.action, p, e.msg);
            && (Bare(sent) ==> NextPast(past, s, e, p.state).everNack)
            && (s == WaitConnAckElect && e.event == IRcvConnNack ==> Bare(sent))
            && |sent| <= 1
  {
    var sent := SentBy(row.action, p, e.msg);
    assert |sent| == 1 ==> (Bare(sent) <==> sent[0].io.None?);
  }

  lemma ServeSends(p: Peer, cfg: Config, past: Past)
    requires Inv(p) && p.queue != [] && InitiatorFits(p, past) && ResponderFits(p, past)
    requires Bare(p.outbox) <==> past.everNack
    ensures Bare(Serve(p, cfg).outbox) <==> NextPast(past, p.state, p.queue[0], Serve(p, cfg).state).everNack
  {
    hide Run, SentBy, InitiatorFits, ResponderFits, Bare;
    var e := p.queue[0];
    assert WellFormed(e);
    if Transition(p.state, e.event).Some? {
      var row := Transition(p.state, e.event).value;
      var p1 := p.(queue := p.queue[1..], eventIo := e.io, state := row.next);
      assert p1.(state := p.state) == p.(queue := p.queue[1..], eventIo := e.io);
      SameHolders(p, p1.(state := p.state), past);
      SentIsBare(p.state, e, p1, row, past);
      if Greets(row.action) {
        GreetingsSend(row.action, p1, e.msg, cfg);
      } else {
        OthersSend(row.action, p1, e.msg, cfg);
      }
      BareAppends(p.outbox, SentBy(row.action, p1, e.msg));
    }
  }

  lemma SameHolders(p: Peer, q: Peer, past: Past)
    requires InitiatorFits(p, past) && ResponderFits(p, past)
    requires p.state == q.state && p.initiator == q.initiator && p.responder == q.responder
    ensures InitiatorFits(q, past) && ResponderFits(q, past)
  {
  }

  /** In every run a message is handed to the transmitter without a transport if and only if the run has
      served a connection NACK in WAIT_CONN_ACK_ELECT. */
  lemma {:induction false} SendsBareAfterNack(p: Peer, inputs: seq<Input>, cfg: Config, past: Past)
    requires Inv(p) && InitiatorFits(p, past) && ResponderFits(p, past)
    requires Bare(p.outbox) <==> past.everNack
    ensures Bare(RunFrom(p, inputs, cfg).outbox) <==> RunPast(past, p, inputs, cfg).everNack
    decreases |inputs|
  {
    if inputs != [] {
      hide Inv, InitiatorFits, ResponderFits, Bare;
      SendsOneStep(p, inputs[0], cfg, past);
      FollowsOneStep(p, inputs[0], cfg, past);
      StepKeepsInv(p, inputs[0], cfg);
      SendsBareAfterNack(Step(p, inputs[0], cfg), inputs[1..], cfg, StepPast(past, p, inputs[0], cfg));
    }
  }

  lemma SendsOneStep(p: Peer, i: Input, cfg: Config, past: Past)
    requires Inv(p) && InitiatorFits(p, past) && ResponderFits(p, past)
    requires Bare(p.outbox) <==> past.everNack
    ensures Bare(Step(p, i, cfg).outbox) <==> StepPast(past, p, i, cfg).everNack
  {
    if i.ServeOne? && p.queue != [] {
      hide Serve, NextPast, Bare;
      ServeSends(p, cfg, past);
    }
  }

  /** A fresh peer meets all of this. */
  lemma InitFits()
    ensures Inv(Init()) && InitiatorFits(Init(), NO_PAST) && ResponderFits(Init(), NO_PAST) && !Bare(Init().outbox)
  {
  }

  // ----- conservation of transports -----

  function Is(io: Option<nat>, x: nat): nat {
    if io == Some(x) then 1 else 0
  }

  function InTrash(trash: seq<nat>, x: nat): nat {
    if trash == [] then 0 else InTrash(trash[..|trash| - 1], x) + Is(Some(trash[|trash| - 1]), x)
  }

  function InQueue(q: seq<Param>, x: nat): nat {
    if q == [] then 0 else InQueue(q[..|q| - 1], x) + Is(q[|q| - 1].io, x)
  }

  /** How many places hold transport x: waiting events, members, the event being served, the trash. */
  function Held(p: Peer, x: nat): nat {
    InQueue(p.queue, x) + Is(p.initiator, x) + Is(p.responder, x) + Is(p.eventIo, x) + InTrash(p.trash, x)
  }

  lemma {:induction false} InQueueHead(q: seq<Param>, x: nat)
    requires q != []
    ensures InQueue(q, x) == Is(q[0].io, x) + InQueue(q[1..], x)
  {
    if |q| > 1 {
      InQueueHead(q[..|q| - 1], x);
      assert q[..|q| - 1][1..] == q[1..][..|q| - 2];
    }
  }

  lemma DiscardCounts(trash: seq<nat>, io: Option<nat>, x: nat)
    ensures InTrash(Discard(trash, io), x) == InTrash(trash, x) + Is(io, x)
  {
    if io.Some? {
      assert (trash + [io.value])[..|trash|] == trash;
    }
  }

  lemma NotifyCounts(p: Peer, e: Param, x: nat)
    ensures Held(Notify(p, e), x) == Held(p, x) + (if p.running then Is(e.io, x) else 0)
  {
    assert (p.queue + [e])[..|p.queue|] == p.queue;
  }

  lemma ResponderCounts(p: Peer, x: nat)
    ensures Held(DropResponder(p), x) == Held(p, x)
    ensures Held(TakeResponder(p), x) == Held(p, x)
  {
    DiscardCounts(p.trash, p.responder, x);
  }

  lemma InitiatorCounts(p: Peer, x: nat)
    ensures Held(DropInitiator(p), x) == Held(p, x)
    ensures Held(TakeInitiator(p), x) == Held(p, x)
  {
    DiscardCounts(p.trash, p.initiator, x);
  }

  lemma EventIoCounts(p: Peer, x: nat)
    ensures Held(DropEventIo(p), x) == Held(p, x)
  {
    DiscardCounts(p.trash, p.eventIo, x);
  }

  lemma DropsCount(p: Peer, x: nat)
    ensures Held(DropResponder(p), x) == Held(p, x)
    ensures Held(DropInitiator(p), x) == Held(p, x)
    ensures Held(DropEventIo(p), x) == Held(p, x)
    ensures Held(TakeResponder(p), x) == Held(p, x)
    ensures Held(TakeInitiator(p), x) == Held(p, x)
  {
    hide *;
    ResponderCounts(p, x);
    InitiatorCounts(p, x);
    EventIoCounts(p, x);
  }

  /** Held depends on the transport slots alone. */
  lemma SameSlots(p: Peer, q: Peer, x: nat)
    requires p.queue == q.queue && p.initiator == q.initiator && p.responder == q.responder
    requires p.eventIo == q.eventIo && p.trash == q.trash
    ensures Held(p, x) == Held(q, x)
  {
  }

  lemma CleanupCounts(p: Peer, flags: CleanupFlags, x: nat)
    ensures Held(Cleanup(p, flags), x) == Held(p, x)
  {
    var t1 := if flags.ioR then Discard(p.trash, p.responder) else p.trash;
    var t2 := if flags.ioI then Discard(t1, p.initiator) else t1;
    DiscardCounts(p.trash, p.responder, x);
    DiscardCounts(t1, p.initiator, x);
    DiscardCounts(t2, p.eventIo, x);
  }

  lemma ElectCounts(p: Peer, cfg: Config, x: nat)
    ensures Held(Elect(p, cfg), x) == Held(p, x)
  {
    CleanupCounts(p, CLEANUP_ALL, x);
    NotifyCounts(p, Param(WinElection, NO_MSG, None), x);
  }

  lemma TakingCounts(a: Action, p: Peer, m: Msg, cfg: Config, x: nat)
    requires a in {RAcceptSendCea, RAccept, RSendCea, ISendCer, RAcceptElect, ISendCerElect}
    ensures Held(Run(a, p, m, cfg), x) == Held(p, x)
  {
    DropsCount(p, x);
    var r := TakeResponder(p).(peerHost := m.host);
    var i := Send(TakeInitiator(p), Cer, p.eventIo);
    match a
    case RAcceptSendCea => CleanupCounts(Send(r, Cea(m.valid), OpenIo(r)), CLEANUP_ALL, x);
    case RAccept => CleanupCounts(r, CLEANUP_ALL, x);
    case RAcceptElect =>
      CleanupCounts(r, CLEANUP_ALL.(ioI := false), x);
      ElectCounts(r, cfg, x);
    case ISendCerElect => ElectCounts(i, cfg, x);
    case _ =>
  }

  lemma ReConnectCounts(p: Peer, cfg: Config, x: nat)
    ensures Held(DoReConnect(p, cfg), x) == Held(p, x)
  {
  }

  lemma OpenedCounts(p: Peer, host: Host, cfg: Config, x: nat)
    ensures Held(Opened(StopReConnect(p.(peerHost := host)), cfg), x) == Held(p, x)
  {
  }

  lemma ClosingCounts(a: Action, p: Peer, m: Msg, cfg: Config, x: nat)
    requires a in {CleanUp, Fail, ConnNack, Disconnect, DisconnectDpa, ProcessCea, ProcessDwa}
    ensures Held(Run(a, p, m, cfg), x) == Held(p, x)
  {
    var q := Cleanup(p, CLEANUP_ALL);
    CleanupCounts(p, CLEANUP_ALL, x);
    match a
    case ConnNack | Disconnect | DisconnectDpa => ReConnectCounts(q, cfg, x);
    case ProcessCea => OpenedCounts(p, m.host, cfg, x);
    case _ =>
  }

  lemma DroppingCounts(a: Action, p: Peer, m: Msg, cfg: Config, x: nat)
    requires a in {RDisconnectResp, RReject, IDisconnectSendCea, RDisconnectIOpen, Retry,
                   ISendDpaDisconnect, RSendDpaDisconnect}
    ensures Held(Run(a, p, m, cfg), x) == Held(p, x)
  {
    DropsCount(p, x);
    match a
    case ISendDpaDisconnect => CleanupCounts(Send(p, Dpa, p.initiator), CLEANUP_ALL, x);
    case RSendDpaDisconnect => CleanupCounts(Send(p, Dpa, p.responder), CLEANUP_ALL, x);
    case RDisconnectIOpen =>
      DropsCount(Opened(p.(peerHost := m.host), cfg), x);
      CleanupCounts(p, CLEANUP_ALL, x);
    case Retry => NotifyCounts(StopReConnect(p), Param(Start, NO_MSG, None), x);
    case _ =>
  }

  lemma KeepingCounts(a: Action, p: Peer, m: Msg, cfg: Config, x: nat)
    requires a in {NoAction, ISendConnReq, RSendCeaOpen, RSend, Process, ProcessDwrSendDwa, ISendDpr, RSendDpr,
                   ISend, ISendCea, SendWatchdog}
    ensures Held(Run(a, p, m, cfg), x) == Held(p, x)
  {
  }

  /** No action loses a transport or gives one two owners. */
  lemma RunCounts(a: Action, p: Peer, m: Msg, cfg: Config, x: nat)
    ensures Held(Run(a, p, m, cfg), x) == Held(p, x)
  {
    if a in {RAcceptSendCea, RAccept, RSendCea, ISendCer, RAcceptElect, ISendCerElect} {
      TakingCounts(a, p, m, cfg, x);
    } else if a in {CleanUp, Fail, ConnNack, Disconnect, DisconnectDpa, ProcessCea, ProcessDwa} {
      ClosingCounts(a, p, m, cfg, x);
    } else if a in {RDisconnectResp, RReject, IDisconnectSendCea, RDisconnectIOpen, Retry,
                    ISendDpaDisconnect, RSendDpaDisconnect} {
      DroppingCounts(a, p, m, cfg, x);
    } else {
      KeepingCounts(a, p, m, cfg, x);
    }
  }

  function Given(i: Input, p: Peer, x: nat): nat {
    if i.Post? && WellFormed(i.param) && p.running then Is(i.param.io, x) else 0
  }

  /** How many times transport x was posted in a run. */
  ghost function GivenIn(p: Peer, inputs: seq<Input>, cfg: Config, x: nat): nat
    decreases |inputs|
  {
    if inputs == [] then 0 else Given(inputs[0], p, x) + GivenIn(Step(p, inputs[0], cfg), inputs[1..], cfg, x)
  }

  lemma ServeCounts(p: Peer, cfg: Config, x: nat)
    requires p.queue != [] && p.eventIo.None?
    ensures Held(Serve(p, cfg), x) == Held(p, x)
  {
    var e := p.queue[0];
    InQueueHead(p.queue, x);
    var p1 := p.(queue := p.queue[1..], eventIo := e.io);
    assert Held(p1, x) == Held(p, x);
    var h := Handle(p1, e, cfg);
    assert Held(h, x) == Held(p1, x) by {
      match Transition(p.state, e.event)
      case None =>
      case Some(row) =>
        var p2 := p1.(state := row.next);
        SameSlots(p1, p2, x);
        RunCounts(row.action, p2, e.msg, cfg, x);
    }
    DropsCount(h, x);
  }

  lemma StepCounts(p: Peer, i: Input, cfg: Config, x: nat)
    requires p.eventIo.None?
    ensures Held(Step(p, i, cfg), x) == Held(p, x) + Given(i, p, x)
  {
    match i
    case Post(e) => NotifyCounts(p, e, x);
    case Expire(t) => NotifyCounts(p, Param(t, NO_MSG, None), x);
    case Call =>
      NotifyCounts(p, Param(Start, NO_MSG, None), x);
      SameSlots(Notify(p, Param(Start, NO_MSG, None)), Step(p, i, cfg), x);
    case Hangup(cause) =>
      SameSlots(p, p.(cause := cause), x);
      NotifyCounts(p.(cause := cause), Param(Stop, NO_MSG, None), x);
    case ServeOne =>
      if p.queue != [] { ServeCounts(p, cfg, x); }
  }

  /** In every run each transport posted is in exactly one place at the end for each time it was
      posted: none leaks, none has two owners, none is released twice. */
  lemma {:induction false} TransportsAreConserved(p: Peer, inputs: seq<Input>, cfg: Config, x: nat)
    requires Inv(p)
    ensures Held(RunFrom(p, inputs, cfg), x) == Held(p, x) + GivenIn(p, inputs, cfg, x)
    decreases |inputs|
  {
    if inputs != [] {
      StepCounts(p, inputs[0], cfg, x);
      StepKeepsInv(p, inputs[0], cfg);
      TransportsAreConserved(Step(p, inputs[0], cfg), inputs[1..], cfg, x);
    }
  }
}
