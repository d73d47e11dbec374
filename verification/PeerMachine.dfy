/** The peer state machine as the object it is: fields that its actions update one at a time.  Each
    method is proved to take the object's model where the function of `PeerFsm` says. */
module PeerMachine {
  import opened Common
  import opened Election
  import opened PeerFsm
  import opened PeerSafety
  import opened PeerTable

  const CODES: seq<nat> := [257, 280, 282]  // capabilities exchange, device watchdog, disconnect peer
  const REQUEST_I_EVENTS := [IRcvCer, IRcvDwr, IRcvDpr]
  const REQUEST_R_EVENTS := [RRcvCer, RRcvDwr, RRcvDpr]
  const ANSWER_I_EVENTS := [IRcvCea, IRcvDwa, IRcvDpa]
  const ANSWER_R_EVENTS := [RRcvCea, RRcvDwa, RRcvDpa]

  /** The base protocol command of a code, if it is one. */
  function CommandOf(code: nat, request: bool, ok: bool): Option<Command> {
    if code == 257 then Some(if request then Cer else Cea(ok))
    else if code == 280 then Some(if request then Dwr else Dwa)
    else if code == 282 then Some(if request then Dpr else Dpa)
    else None
  }

  function Posted(p: Peer, e: Option<Event>, m: Msg): Peer {
    if e.Some? then Notify(p, Param(e.value, m, None)) else p
  }

  /** What the arrival of a message posts: in WAIT_I_CEA everything but a CEA counts as one event, an
      answer of the base protocol with unknown identifiers is dropped, other applications' messages are
      for open connections. */
  function Arrived(p: Peer, code: nat, request: bool, m: Msg, known: bool): Peer {
    var c := CommandOf(code, request, m.success);
    if p.state == WaitICea && (code != 257 || request) then Posted(p, Some(IRcvNonCea), NO_MSG)
    else if c.None? then
      Posted(p, if p.state == IOpen then Some(IRcvMessage) else if p.state == ROpen then Some(RRcvMessage) else None, m)
    else if !request && !known then p
    else Posted(p, Arrival(p, c.value), m)
  }

  lemma ArrivedKeepsInv(p: Peer, code: nat, request: bool, m: Msg, known: bool)
    requires Inv(p)
    ensures Inv(Arrived(p, code, request, m, known))
  {
  }

  class DiameterPeer {
    const cfg: Config
    var state: State
    var running: bool
    var ioInitiator: Option<nat>
    var ioResponder: Option<nat>
    var eventIo: Option<nat>          // transport of m_CurrentPeerEventParam
    var msg: Msg                      // message of m_CurrentPeerEventParam
    var host: Host
    var timerHandleMap: map<Event, nat>
    var reconnectAttempt: nat
    var cause: Cause
    var eventQueue: seq<Param>
    var outbox: seq<Sent>
    var trash: seq<nat>
    var dials: nat

    function Timer(ev: Event): Option<nat>
      reads this
    {
      if ev in timerHandleMap then Some(timerHandleMap[ev]) else None
    }

    function Model(): Peer
      reads this
    {
      Peer(state, running, ioInitiator, ioResponder, eventIo, host,
           Timers(Timer(Timeout), Timer(Watchdog), Timer(ConnRetry)),
           reconnectAttempt, cause, eventQueue, outbox, trash, dials)
    }

    constructor (cfg: Config)
      ensures Model() == Init() && this.cfg == cfg && Inv(Model())
    {
      this.cfg := cfg;
      state, running := Closed, true;
      ioInitiator, ioResponder, eventIo, msg, host := None, None, None, NO_MSG, [];
      timerHandleMap, reconnectAttempt, cause := map[], 0, DontWantToTalk;
      eventQueue, outbox, trash, dials := [], [], [], 0;
    }

    // ----- events, timers, transports -----

    method Post(e: Param)
      modifies this
      ensures Model() == Notify(old(Model()), e) && msg == old(msg)
    {
      if running {
        eventQueue := eventQueue + [e];
      }
    }

    method CancelTimer(ev: Event)
      modifies this`timerHandleMap
      ensures timerHandleMap == old(timerHandleMap) - {ev}
    {
      if ev in timerHandleMap {
        timerHandleMap := timerHandleMap - {ev};
      }
    }

    /** A timer that is already running is cancelled first. */
    method ScheduleTimer(ev: Event, sec: nat)
      modifies this`timerHandleMap
      ensures timerHandleMap == old(timerHandleMap)[ev := sec]
    {
      CancelTimer(ev);
      timerHandleMap := timerHandleMap[ev := sec];
    }

    /** Hand a transport to the garbage collector, or destroy it. */
    method Delete(io: Option<nat>)
      modifies this`trash
      ensures trash == Discard(old(trash), io)
    {
      if io.Some? {
        trash := trash + [io.value];
      }
    }

    method DeleteResponder()
      modifies this
      ensures Model() == DropResponder(old(Model())) && msg == old(msg)
    {
      Delete(ioResponder);
      ioResponder := None;
    }

    method DeleteInitiator()
      modifies this
      ensures Model() == DropInitiator(old(Model())) && msg == old(msg)
    {
      Delete(ioInitiator);
      ioInitiator := None;
    }

    method DeleteEventIo()
      modifies this
      ensures Model() == DropEventIo(old(Model())) && msg == old(msg)
    {
      Delete(eventIo);
      eventIo := None;
    }

    /** Move the event's transport into a member; what the member held is destroyed. */
    method AcceptResponder()
      modifies this
      ensures Model() == TakeResponder(old(Model())) && msg == old(msg)
    {
      Delete(ioResponder);
      ioResponder := eventIo;
      eventIo := None;
    }

    method AcceptInitiator()
      modifies this
      ensures Model() == TakeInitiator(old(Model())) && msg == old(msg)
    {
      Delete(ioInitiator);
      ioInitiator := eventIo;
      eventIo := None;
    }

    // ----- what the actions call -----

    method DisassembleCE()
      modifies this`host
      ensures host == msg.host
    {
      host := msg.host;
    }

    method SendCER()
      modifies this`outbox
      ensures Model() == Send(old(Model()), Cer, ioInitiator)
    {
      outbox := outbox + [Sent(Cer, ioInitiator)];
    }

    method SendCEA(ok: bool)
      modifies this`outbox
      ensures Model() == Send(old(Model()), Cea(ok), OpenIo(old(Model())))
    {
      var io := if state == IOpen then ioInitiator else ioResponder;
      outbox := outbox + [Sent(Cea(ok), io)];
    }

    method SendDWR()
      modifies this`outbox
      ensures Model() == Send(old(Model()), Dwr, OpenIo(old(Model())))
    {
      var io := if state == IOpen then ioInitiator else ioResponder;
      outbox := outbox + [Sent(Dwr, io)];
    }

    method SendDWA()
      modifies this`outbox
      ensures Model() == Send(old(Model()), Dwa, OpenIo(old(Model())))
    {
      var io := if state == IOpen then ioInitiator else ioResponder;
      outbox := outbox + [Sent(Dwa, io)];
    }

    method SendDPR(initiator: bool)
      modifies this`outbox
      ensures Model() == Send(old(Model()), Dpr, if initiator then ioInitiator else ioResponder)
    {
      var io := if initiator then ioInitiator else ioResponder;
      outbox := outbox + [Sent(Dpr, io)];
    }

    method SendDPA(initiator: bool)
      modifies this`outbox
      ensures Model() == Send(old(Model()), Dpa, if initiator then ioInitiator else ioResponder)
    {
      var io := if initiator then ioInitiator else ioResponder;
      outbox := outbox + [Sent(Dpa, io)];
    }

    method StopReConnectTimer()
      modifies this`timerHandleMap
      ensures timerHandleMap == old(timerHandleMap) - {ConnRetry}
    {
      CancelTimer(ConnRetry);
    }

    method ReConnect()
      modifies this
      ensures Model() == DoReConnect(old(Model()), cfg) && msg == old(msg)
    {
      if reconnectAttempt < cfg.reconnectMax {
        if cfg.reconnectInterval > 0 {
          reconnectAttempt := reconnectAttempt + 1;
          ScheduleTimer(ConnRetry, cfg.reconnectInterval);
        }
      } else {
        reconnectAttempt := 0;
      }
    }

    /** Forget the peer's capabilities and cancel every timer. */
    method ForgetPeer()
      modifies this
      ensures Model() == old(Model()).(peerHost := [], timers := NO_TIMERS) && msg == old(msg)
    {
      host := [];
      StopReConnectTimer();
      CancelTimer(Timeout);
      CancelTimer(Watchdog);
    }

    /** The order is the original's: the machine is stopped, the transports go, then that of the event
        being served, and the machine starts again in CLOSED. */
    method Cleanup(flags: CleanupFlags)
      modifies this
      ensures Model() == PeerFsm.Cleanup(old(Model()), flags) && msg == old(msg)
    {
      ForgetPeer();
      if flags.fsm {
        running := false;
      }
      if flags.ioR {
        DeleteResponder();
      }
      if flags.ioI {
        DeleteInitiator();
      }
      if flags.fsm {
        DeleteEventIo();
        state := Closed;
        running := true;
      }
    }

    method HoldElection()
      modifies this
      ensures Model() == Elect(old(Model()), cfg) && msg == old(msg)
    {
      var outcome := Compare(cfg.signedChar, cfg.identity, host);
      match outcome
      case SameHost => Cleanup(CLEANUP_ALL);
      case Win => Post(Param(WinElection, NO_MSG, None));
      case Lose =>
    }

    /** `DiameterPeerEntry::Start`: post the event, then let the connector dial. */
    method Call()
      modifies this
      ensures Model() == Dial(old(Model())) && msg == old(msg)
    {
      Post(Param(Start, NO_MSG, None));
      dials := dials + 1;
    }

    /** `DiameterPeerEntry::Stop`. */
    method Hangup(why: Cause)
      modifies this
      ensures Model() == Halt(old(Model()), why) && msg == old(msg)
    {
      cause := why;
      Post(Param(Stop, NO_MSG, None));
    }

    // ----- the actions -----

    method ActISendConnReq()
      modifies this
      ensures Model() == Run(ISendConnReq, old(Model()), old(msg), cfg)
    {
      ScheduleTimer(Timeout, CONNECT_ATTEMPT_TOUT);
    }

    method ActRAcceptSendCea()
      modifies this
      ensures Model() == Run(RAcceptSendCea, old(Model()), old(msg), cfg)
    {
      AcceptResponder();
      DisassembleCE();
      SendCEA(msg.valid);
      if !msg.valid {
        Cleanup(CLEANUP_ALL);
      } else {
        CancelTimer(Timeout);
        ScheduleTimer(Watchdog, cfg.watchdog);
        StopReConnectTimer();
      }
    }

    method ActISendCer()
      modifies this
      ensures Model() == Run(ISendCer, old(Model()), old(msg), cfg)
    {
      AcceptInitiator();
      SendCER();
    }

    method ActConnNack()
      modifies this
      ensures Model() == Run(ConnNack, old(Model()), old(msg), cfg)
    {
      Cleanup(CLEANUP_ALL);
      ReConnect();
    }

    method ActCleanUp()
      modifies this
      ensures Model() == Run(CleanUp, old(Model()), old(msg), cfg)
    {
      Cleanup(CLEANUP_ALL);
    }

    method ActRetry()
      modifies this
      ensures Model() == Run(Retry, old(Model()), old(msg), cfg)
    {
      StopReConnectTimer();
      Call();
    }

    method ActRAccept()
      modifies this
      ensures Model() == Run(RAccept, old(Model()), old(msg), cfg)
    {
      AcceptResponder();
      DisassembleCE();
      if !msg.valid {
        Cleanup(CLEANUP_ALL);
      }
    }

    method ActFail()
      modifies this
      ensures Model() == Run(Fail, old(Model()), old(msg), cfg)
    {
      Cleanup(CLEANUP_ALL);
    }

    method ActProcessCea()
      modifies this
      ensures Model() == Run(ProcessCea, old(Model()), old(msg), cfg)
    {
      if msg.success {
        DisassembleCE();
        StopReConnectTimer();
        CancelTimer(Timeout);
        ScheduleTimer(Watchdog, cfg.watchdog);
      } else {
        Cleanup(CLEANUP_ALL);
      }
    }

    method ActRAcceptElect()
      modifies this
      ensures Model() == Run(RAcceptElect, old(Model()), old(msg), cfg)
    {
      AcceptResponder();
      DisassembleCE();
      if !msg.valid {
        Cleanup(CLEANUP_ALL.(ioI := false));
      } else {
        HoldElection();
      }
    }

    method ActISendCerElect()
      modifies this
      ensures Model() == Run(ISendCerElect, old(Model()), old(msg), cfg)
    {
      AcceptInitiator();
      SendCER();
      HoldElection();
    }

    method ActRSendCea()
      modifies this
      ensures Model() == Run(RSendCea, old(Model()), old(msg), cfg)
    {
      AcceptResponder();
      SendCEA(true);
      CancelTimer(Timeout);
      ScheduleTimer(Watchdog, cfg.watchdog);
    }

    method ActRSendCeaOpen()
      modifies this
      ensures Model() == Run(RSendCeaOpen, old(Model()), old(msg), cfg)
    {
      DisassembleCE();
      SendCEA(msg.valid);
    }

    method ActRDisconnectResp()
      modifies this
      ensures Model() == Run(RDisconnectResp, old(Model()), old(msg), cfg)
    {
      DeleteResponder();
    }

    method ActRDisconnectIOpen()
      modifies this
      ensures Model() == Run(RDisconnectIOpen, old(Model()), old(msg), cfg)
    {
      if msg.success {
        DisassembleCE();
        CancelTimer(Timeout);
        ScheduleTimer(Watchdog, cfg.watchdog);
        DeleteResponder();
      } else {
        Cleanup(CLEANUP_ALL);
      }
    }

    method ActRReject()
      modifies this
      ensures Model() == Run(RReject, old(Model()), old(msg), cfg)
    {
      DeleteEventIo();
    }

    method ActIDisconnectSendCea()
      modifies this
      ensures Model() == Run(IDisconnectSendCea, old(Model()), old(msg), cfg)
    {
      DeleteInitiator();
      SendCEA(true);
      CancelTimer(Timeout);
      ScheduleTimer(Watchdog, cfg.watchdog);
    }

    method ActProcessDwrSendDwa()
      modifies this
      ensures Model() == Run(ProcessDwrSendDwa, old(Model()), old(msg), cfg)
    {
      SendDWA();
    }

    method ActProcessDwa()
      modifies this
      ensures Model() == Run(ProcessDwa, old(Model()), old(msg), cfg)
    {
      if !msg.success {
        Cleanup(CLEANUP_ALL);
      }
    }

    method ActISendDpr()
      modifies this
      ensures Model() == Run(ISendDpr, old(Model()), old(msg), cfg)
    {
      CancelTimer(Watchdog);
      ScheduleTimer(Timeout, CONNECT_ATTEMPT_TOUT);
      SendDPR(true);
    }

    method ActRSendDpr()
      modifies this
      ensures Model() == Run(RSendDpr, old(Model()), old(msg), cfg)
    {
      CancelTimer(Watchdog);
      ScheduleTimer(Timeout, CONNECT_ATTEMPT_TOUT);
      SendDPR(false);
    }

    method ActISendDpaDisconnect()
      modifies this
      ensures Model() == Run(ISendDpaDisconnect, old(Model()), old(msg), cfg)
    {
      SendDPA(true);
      Cleanup(CLEANUP_ALL);
    }

    method ActRSendDpaDisconnect()
      modifies this
      ensures Model() == Run(RSendDpaDisconnect, old(Model()), old(msg), cfg)
    {
      SendDPA(false);
      Cleanup(CLEANUP_ALL);
    }

    method ActDisconnect()
      modifies this
      ensures Model() == Run(Disconnect, old(Model()), old(msg), cfg)
    {
      Cleanup(CLEANUP_ALL);
      ReConnect();
    }

    method ActDisconnectDpa()
      modifies this
      ensures Model() == Run(DisconnectDpa, old(Model()), old(msg), cfg)
    {
      Cleanup(CLEANUP_ALL);
      if cause == Rebooting {
        ReConnect();
      }
    }

    method ActISendCea()
      modifies this
      ensures Model() == Run(ISendCea, old(Model()), old(msg), cfg)
    {
      DisassembleCE();
      SendCEA(msg.valid);
    }

    method ActSendWatchdog()
      modifies this
      ensures Model() == Run(SendWatchdog, old(Model()), old(msg), cfg)
    {
      SendDWR();
    }

    method Act(a: Action)
      modifies this
      ensures Model() == Run(a, old(Model()), old(msg), cfg)
    {
      match a
      case ISendConnReq => ActISendConnReq();
      case RAcceptSendCea => ActRAcceptSendCea();
      case ISendCer => ActISendCer();
      case ConnNack => ActConnNack();
      case CleanUp => ActCleanUp();
      case Retry => ActRetry();
      case RAccept => ActRAccept();
      case Fail => ActFail();
      case ProcessCea => ActProcessCea();
      case RAcceptElect => ActRAcceptElect();
      case ISendCerElect => ActISendCerElect();
      case RSendCea => ActRSendCea();
      case RSendCeaOpen => ActRSendCeaOpen();
      case RDisconnectResp => ActRDisconnectResp();
      case RDisconnectIOpen => ActRDisconnectIOpen();
      case RReject => ActRReject();
      case IDisconnectSendCea => ActIDisconnectSendCea();
      case ProcessDwrSendDwa => ActProcessDwrSendDwa();
      case ProcessDwa => ActProcessDwa();
      case ISendDpr => ActISendDpr();
      case RSendDpr => ActRSendDpr();
      case ISendDpaDisconnect => ActISendDpaDisconnect();
      case RSendDpaDisconnect => ActRSendDpaDisconnect();
      case Disconnect => ActDisconnect();
      case DisconnectDpa => ActDisconnectDpa();
      case ISendCea => ActISendCea();
      case SendWatchdog => ActSendWatchdog();
      case NoAction =>
      case RSend =>
      case ISend =>
      case Process =>
    }

    // ----- the machine -----

    /** `AAA_StateMachine::Event`: look the event up in the table all peers share, change the state, run
        the action. */
    method HandleEvent(t: DiameterPeerStateTable, e: Param)
      requires e.msg == msg && t.Complete()
      modifies this
      ensures Model() == Handle(old(Model()), e, cfg)
    {
      if !running {
        return;
      }
      var entry := t.table.FindStateTableEntry(state, e.event);
      assert Lookup(t.table.list, state, e.event) == Transition(state, e.event);
      if entry.None? {
        return;
      }
      state := entry.value.next;
      Act(entry.value.action);
    }

    method ServeOne(t: DiameterPeerStateTable)
      requires eventQueue != [] && t.Complete()
      modifies this
      ensures Model() == Serve(old(Model()), cfg)
      ensures Inv(old(Model())) ==> Inv(Model())
    {
      hide Inv, Handle;
      if Inv(Model()) {
        ServeKeepsInv(Model(), cfg);
      }
      var e := eventQueue[0];
      eventQueue := eventQueue[1..];
      eventIo, msg := e.io, e.msg;
      HandleEvent(t, e);
      DeleteEventIo();
    }

    /** `DiameterPeerEntry::Message`; `known` is what MsgIdRxMessage says of the identifiers. */
    method Message(code: nat, request: bool, m: Msg, known: bool)
      modifies this
      ensures Model() == Arrived(old(Model()), code, request, m, known)
    {
      if state == WaitICea {
        if code != 257 || request {
          Post(Param(IRcvNonCea, NO_MSG, None));
          return;
        }
      }
      var i := 0;
      while i < |CODES|
        invariant 0 <= i <= |CODES| && Model() == old(Model()) && forall j | 0 <= j < i :: CODES[j] != code
      {
        if CODES[i] == code {
          if !known && !request {
            return;
          }
          var iEvent := if request then REQUEST_I_EVENTS[i] else ANSWER_I_EVENTS[i];
          var rEvent := if request then REQUEST_R_EVENTS[i] else ANSWER_R_EVENTS[i];
          match state {
            case IOpen => Post(Param(iEvent, m, None));
            case ROpen => Post(Param(rEvent, m, None));
            case Closing =>
              if ioInitiator.Some? {
                Post(Param(iEvent, m, None));
              } else {
                Post(Param(rEvent, m, None));
              }
            case WaitReturns | WaitICea =>
              if code == 257 && !request {
                Post(Param(IRcvCea, m, None));
              }
            case _ =>
          }
          return;
        }
        i := i + 1;
      }
      assert code != 257 && code != 280 && code != 282 by {
        assert CODES[0] != code && CODES[1] != code && CODES[2] != code;
      }
      match state {
        case IOpen => Post(Param(IRcvMessage, m, None));
        case ROpen => Post(Param(RRcvMessage, m, None));
        case _ =>
      }
    }
  }
}
