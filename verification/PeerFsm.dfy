/** The peer state machine of RFC 3588 section 5.6 as a function from one state to the next.

    A transport is a handle.  What `ValidatePeer` says about a CER and whether an answer carries a
    success code are fields of the message.  Timers are scheduled with their own event as type. */
module PeerFsm {
  import opened Common
  import opened Election

  datatype State = Closed | WaitConnAck | WaitICea | WaitConnAckElect | WaitReturns
                 | IOpen | ROpen | Closing

  datatype Event = Start | Stop | Timeout | ConnRetry | RConnCer | IRcvConnAck | IRcvConnNack
                 | RRcvCea | IRcvCea | IPeerDisc | RPeerDisc | IRcvNonCea | WinElection | SendMessage
                 | RRcvMessage | IRcvMessage | RRcvDwr | IRcvDwr | RRcvDwa | IRcvDwa | RRcvDpr | IRcvDpr
                 | RRcvCer | IRcvCer | RRcvDpa | IRcvDpa | Watchdog

  datatype Action = NoAction | ISendConnReq | RAcceptSendCea | ISendCer | ConnNack | CleanUp | Retry
                  | RAccept | Fail | ProcessCea | RAcceptElect | Disconnect | DisconnectDpa
                  | ISendCerElect | RSendCea | RSendCeaOpen | RDisconnectResp | RDisconnectIOpen
                  | RReject | IDisconnectSendCea | RSend | Process | ProcessDwrSendDwa | ProcessDwa
                  | ISendDpr | RSendDpr | ISendDpaDisconnect | RSendDpaDisconnect | ISend | ISendCea
                  | SendWatchdog

  datatype Row = Row(next: State, action: Action)

  datatype Cause = Rebooting | Busy | DontWantToTalk

  /** The parts of a base protocol message that the actions read. */
  datatype Msg = Msg(host: Host, valid: bool, success: bool)

  /** An entry of the event queue: an event with the message and transport that came with it. */
  datatype Param = Param(event: Event, msg: Msg, io: Option<nat>)

  datatype Command = Cer | Cea(ok: bool) | Dwr | Dwa | Dpr | Dpa
  datatype Sent = Sent(command: Command, io: Option<nat>)

  datatype CleanupFlags = CleanupFlags(ioI: bool, ioR: bool, fsm: bool)
  const CLEANUP_ALL := CleanupFlags(true, true, true)

  datatype Config = Config(identity: Host, signedChar: bool, watchdog: nat,
                           reconnectMax: nat, reconnectInterval: nat)

  /** The three timer types a peer uses, each armed with a period or idle. */
  datatype Timers = Timers(timeout: Option<nat>, watchdog: Option<nat>, retry: Option<nat>)

  const NO_TIMERS := Timers(None, None, None)
  const NO_MSG := Msg([], false, false)
  const CONNECT_ATTEMPT_TOUT: nat := 30

  datatype Peer = Peer(
    state: State,
    running: bool,
    initiator: Option<nat>,
    responder: Option<nat>,
    eventIo: Option<nat>,     // transport of the event being served, until an action takes it
    peerHost: Host,           // Origin-Host of the capabilities last disassembled
    timers: Timers,
    attempts: nat,            // reconnection attempts
    cause: Cause,
    queue: seq<Param>,        // events waiting to be served
    outbox: seq<Sent>,        // messages handed to the transmitter
    trash: seq<nat>,          // transports handed to the garbage collector or destroyed
    dials: nat)               // connection attempts begun

  function Init(): Peer {
    Peer(Closed, true, None, None, None, [], NO_TIMERS, 0, DontWantToTalk, [], [], [], 0)
  }

  /** The state table.  Absent pairs are events the machine cannot accept. */
  function Transition(s: State, e: Event): Option<Row> {
    match s
    case Closed =>
      (match e
       case Start => Some(Row(WaitConnAck, ISendConnReq))
       case RConnCer => Some(Row(ROpen, RAcceptSendCea))
       case ConnRetry => Some(Row(Closed, Retry))
       case _ => Some(Row(Closed, CleanUp)))
    case WaitConnAck =>
      (match e
       case IRcvConnAck => Some(Row(WaitICea, ISendCer))
       case IRcvConnNack => Some(Row(Closed, ConnNack))
       case RConnCer => Some(Row(WaitConnAckElect, RAccept))
       case Timeout => Some(Row(Closed, Fail))
       case Stop => Some(Row(Closed, Fail))
       case _ => None)
    case WaitICea =>
      (match e
       case IRcvCea => Some(Row(IOpen, ProcessCea))
       case RConnCer => Some(Row(WaitReturns, RAcceptElect))
       case IPeerDisc => Some(Row(Closed, Disconnect))
       case IRcvNonCea => Some(Row(Closed, Fail))
       case Timeout => Some(Row(Closed, Fail))
       case Stop => Some(Row(Closed, Fail))
       case _ => None)
    case WaitConnAckElect =>
      (match e
       case IRcvConnAck => Some(Row(WaitReturns, ISendCerElect))
       case IRcvConnNack => Some(Row(ROpen, RSendCea))
       case RPeerDisc => Some(Row(WaitConnAck, RDisconnectResp))
       case RConnCer => Some(Row(WaitConnAckElect, RReject))
       case Timeout => Some(Row(Closed, Fail))
       case _ => None)
    case WaitReturns =>
      (match e
       case WinElection => Some(Row(ROpen, IDisconnectSendCea))
       case IPeerDisc => Some(Row(ROpen, IDisconnectSendCea))
       case IRcvCea => Some(Row(IOpen, RDisconnectIOpen))
       case RPeerDisc => Some(Row(WaitICea, RDisconnectResp))
       case RConnCer => Some(Row(WaitReturns, RReject))
       case Timeout => Some(Row(Closed, Fail))
       case _ => None)
    case ROpen =>
      (match e
       case SendMessage => Some(Row(ROpen, RSend))
       case RRcvMessage => Some(Row(ROpen, Process))
       case RRcvDwr => Some(Row(ROpen, ProcessDwrSendDwa))
       case RRcvDwa => Some(Row(ROpen, ProcessDwa))
       case RConnCer => Some(Row(ROpen, RReject))
       case Stop => Some(Row(Closing, RSendDpr))
       case RRcvDpr => Some(Row(Closed, RSendDpaDisconnect))
       case RPeerDisc => Some(Row(Closed, Disconnect))
       case RRcvCer => Some(Row(ROpen, RSendCeaOpen))
       case RRcvCea => Some(Row(ROpen, ProcessCea))
       case Watchdog => Some(Row(ROpen, SendWatchdog))
       case _ => None)
    case IOpen =>
      (match e
       case SendMessage => Some(Row(IOpen, ISend))
       case IRcvMessage => Some(Row(IOpen, Process))
       case IRcvDwr => Some(Row(IOpen, ProcessDwrSendDwa))
       case IRcvDwa => Some(Row(IOpen, ProcessDwa))
       case RConnCer => Some(Row(IOpen, RReject))
       case Stop => Some(Row(Closing, ISendDpr))
       case IRcvDpr => Some(Row(Closed, ISendDpaDisconnect))
       case IPeerDisc => Some(Row(Closed, Disconnect))
       case IRcvCer => Some(Row(IOpen, ISendCea))
       case IRcvCea => Some(Row(IOpen, ProcessCea))
       case Watchdog => Some(Row(IOpen, SendWatchdog))
       case _ => None)
    case Closing =>
      (match e
       case IRcvDpa => Some(Row(Closed, DisconnectDpa))
       case RRcvDpa => Some(Row(Closed, DisconnectDpa))
       case Timeout => Some(Row(Closed, Fail))
       case IPeerDisc => Some(Row(Closed, Disconnect))
       case RPeerDisc => Some(Row(Closed, Disconnect))
       case _ => Some(Row(Closing, NoAction)))
  }

  // ----- what the actions are made of -----

  function Discard(trash: seq<nat>, io: Option<nat>): seq<nat> {
    if io.Some? then trash + [io.value] else trash
  }

  function ArmTimeout(p: Peer): Peer {
    p.(timers := p.timers.(timeout := Some(CONNECT_ATTEMPT_TOUT)))
  }

  function StopReConnect(p: Peer): Peer {
    p.(timers := p.timers.(retry := None))
  }

  /** The CEA has been sent or accepted: from the connection timeout to the watchdog. */
  function Opened(p: Peer, cfg: Config): Peer {
    p.(timers := p.timers.(timeout := None, watchdog := Some(cfg.watchdog)))
  }

  /** A DPR is about to be sent: from the watchdog to the timeout. */
  function ClosingTimers(p: Peer): Peer {
    p.(timers := p.timers.(timeout := Some(CONNECT_ATTEMPT_TOUT), watchdog := None))
  }

  function Send(p: Peer, command: Command, io: Option<nat>): Peer {
    p.(outbox := p.outbox + [Sent(command, io)])
  }

  /** The transport that SendCEA, SendDWR and SendDWA choose by state. */
  function OpenIo(p: Peer): Option<nat> {
    if p.state == IOpen then p.initiator else p.responder
  }

  function Notify(p: Peer, e: Param): Peer {
    if p.running then p.(queue := p.queue + [e]) else p
  }

  function Cleanup(p: Peer, flags: CleanupFlags): Peer {
    var p1 := p.(peerHost := [], timers := NO_TIMERS);
    var p2 := if flags.ioR then DropResponder(p1) else p1;
    var p3 := if flags.ioI then DropInitiator(p2) else p2;
    if flags.fsm then DropEventIo(p3).(state := Closed, running := true) else p3
  }

  function DropResponder(p: Peer): Peer {
    p.(responder := None, trash := Discard(p.trash, p.responder))
  }

  function DropInitiator(p: Peer): Peer {
    p.(initiator := None, trash := Discard(p.trash, p.initiator))
  }

  function DropEventIo(p: Peer): Peer {
    p.(eventIo := None, trash := Discard(p.trash, p.eventIo))
  }

  /** Move the transport of the event into a member, destroying what the member held. */
  function TakeResponder(p: Peer): Peer {
    p.(responder := p.eventIo, eventIo := None, trash := Discard(p.trash, p.responder))
  }

  function TakeInitiator(p: Peer): Peer {
    p.(initiator := p.eventIo, eventIo := None, trash := Discard(p.trash, p.initiator))
  }

  ghost function Elect(p: Peer, cfg: Config): Peer {
    if cfg.identity == p.peerHost then Cleanup(p, CLEANUP_ALL)
    else if Wins(cfg.signedChar, cfg.identity, p.peerHost) then Notify(p, Param(WinElection, NO_MSG, None))
    else p
  }

  function DoReConnect(p: Peer, cfg: Config): Peer {
    if p.attempts < cfg.reconnectMax then
      if cfg.reconnectInterval > 0 then
        p.(attempts := p.attempts + 1, timers := p.timers.(retry := Some(cfg.reconnectInterval)))
      else p
    else p.(attempts := 0)
  }

  /** `DiameterPeerEntry::Start`. */
  function Dial(p: Peer): Peer {
    Notify(p, Param(Start, NO_MSG, None)).(dials := p.dials + 1)
  }

  /** `DiameterPeerEntry::Stop`. */
  function Halt(p: Peer, cause: Cause): Peer {
    Notify(p.(cause := cause), Param(Stop, NO_MSG, None))
  }

  /** The action of a table row, run when `p.state` is already the row's next state. */
  ghost function Run(a: Action, p: Peer, m: Msg, cfg: Config): Peer {
    match a
    case NoAction => p
    case ISendConnReq => ArmTimeout(p)
    case RAcceptSendCea =>
      var p1 := TakeResponder(p).(peerHost := m.host);
      var p2 := Send(p1, Cea(m.valid), OpenIo(p1));
      if m.valid then StopReConnect(Opened(p2, cfg)) else Cleanup(p2, CLEANUP_ALL)
    case ISendCer =>
      var p1 := TakeInitiator(p);
      Send(p1, Cer, p1.initiator)
    case ConnNack => DoReConnect(Cleanup(p, CLEANUP_ALL), cfg)
    case CleanUp => Cleanup(p, CLEANUP_ALL)
    case Retry => Dial(StopReConnect(p))
    case RAccept =>
      var p1 := TakeResponder(p).(peerHost := m.host);
      if m.valid then p1 else Cleanup(p1, CLEANUP_ALL)
    case Fail => Cleanup(p, CLEANUP_ALL)
    case ProcessCea =>
      if m.success then Opened(StopReConnect(p.(peerHost := m.host)), cfg) else Cleanup(p, CLEANUP_ALL)
    case RAcceptElect =>
      var p1 := TakeResponder(p).(peerHost := m.host);
      if m.valid then Elect(p1, cfg) else Cleanup(p1, CLEANUP_ALL.(ioI := false))
    case Disconnect => DoReConnect(Cleanup(p, CLEANUP_ALL), cfg)
    case DisconnectDpa =>
      var p1 := Cleanup(p, CLEANUP_ALL);
      if p.cause == Rebooting then DoReConnect(p1, cfg) else p1
    case ISendCerElect =>
      var p1 := TakeInitiator(p);
      Elect(Send(p1, Cer, p1.initiator), cfg)
    case RSendCea =>
      var p1 := TakeResponder(p);
      Opened(Send(p1, Cea(true), OpenIo(p1)), cfg)
    case RSendCeaOpen =>
      Send(p.(peerHost := m.host), Cea(m.valid), OpenIo(p))
    case RDisconnectResp => DropResponder(p)
    case RDisconnectIOpen =>
      if m.success then DropResponder(Opened(p.(peerHost := m.host), cfg)) else Cleanup(p, CLEANUP_ALL)
    case RReject => DropEventIo(p)
    case IDisconnectSendCea =>
      var p1 := DropInitiator(p);
      Opened(Send(p1, Cea(true), OpenIo(p1)), cfg)
    case RSend => p
    case Process => p
    case ProcessDwrSendDwa => Send(p, Dwa, OpenIo(p))
    case ProcessDwa => if m.success then p else Cleanup(p, CLEANUP_ALL)
    case ISendDpr => Send(ClosingTimers(p), Dpr, p.initiator)
    case RSendDpr => Send(ClosingTimers(p), Dpr, p.responder)
    case ISendDpaDisconnect => Cleanup(Send(p, Dpa, p.initiator), CLEANUP_ALL)
    case RSendDpaDisconnect => Cleanup(Send(p, Dpa, p.responder), CLEANUP_ALL)
    case ISend => p
    case ISendCea => Send(p.(peerHost := m.host), Cea(m.valid), OpenIo(p))
    case SendWatchdog => Send(p, Dwr, OpenIo(p))
  }

  /** `AAA_StateMachine::Event`: the state changes first, then the action runs. */
  ghost function Handle(p: Peer, e: Param, cfg: Config): Peer {
    if !p.running then p
    else match Transition(p.state, e.event)
      case None => p
      case Some(row) => Run(row.action, p.(state := row.next), e.msg, cfg)
  }

  /** `Serve`: take the oldest event, handle it, destroy the transport nobody took. */
  ghost function Serve(p: Peer, cfg: Config): Peer
    requires p.queue != []
  {
    var e := p.queue[0];
    DropEventIo(Handle(p.(queue := p.queue[1..], eventIo := e.io), e, cfg))
  }

  function InitiatorEvent(c: Command): Event {
    match c
    case Cer => IRcvCer
    case Cea(_) => IRcvCea
    case Dwr => IRcvDwr
    case Dwa => IRcvDwa
    case Dpr => IRcvDpr
    case Dpa => IRcvDpa
  }

  function ResponderEvent(c: Command): Event {
    match c
    case Cer => RRcvCer
    case Cea(_) => RRcvCea
    case Dwr => RRcvDwr
    case Dwa => RRcvDwa
    case Dpr => RRcvDpr
    case Dpa => RRcvDpa
  }

  /** `DiameterPeerEntry::Message` for a base protocol message whose identifiers were accepted: the
      state at the time of arrival, not of service, chooses the event. */
  function Arrival(p: Peer, c: Command): Option<Event> {
    match p.state
    case WaitICea => Some(if c.Cea? then IRcvCea else IRcvNonCea)
    case WaitReturns => if c.Cea? then Some(IRcvCea) else None
    case IOpen => Some(InitiatorEvent(c))
    case ROpen => Some(ResponderEvent(c))
    case Closing => Some(if p.initiator.Some? then InitiatorEvent(c) else ResponderEvent(c))
    case _ => None
  }
}
