/** The peer's state table, built entry by entry as `DiameterPeerStateTable` does, answers every state
    and event as `PeerFsm.Transition` says. */
module PeerTable {
  import opened Common
  import opened PeerFsm
  import opened StateTable

  type Entries = seq<Entry<State, Event, Action>>

  function Lookup(l: Entries, st: State, ev: Event): Option<Row> {
    match Resolve(l, st, ev)
    case Some(x) => Some(Row(x.next, x.action))
    case None => None
  }

  lemma LookupAdded(l: Entries, x: Entry<State, Event, Action>, st: State, ev: Event)
    ensures Lookup(Add(l, x), st, ev) ==
              if Lookup(l, st, ev).Some? then Lookup(l, st, ev)
              else if x.prev == st && (x.event.None? || x.event == Some(ev)) then Some(Row(x.next, x.action))
              else None
  {
    hide Resolve, Add;
    AddResolves(l, x, st, ev);
  }

  /** The order in which the constructor fills in the states. */
  function Place(st: State): nat {
    match st
    case Closed => 0
    case WaitConnAck => 1
    case WaitICea => 2
    case WaitConnAckElect => 3
    case WaitReturns => 4
    case ROpen => 5
    case IOpen => 6
    case Closing => 7
  }

  /** So far the table has the entries of `Transition` for the first `done` states, and in the next one
      for the events `evs`. */
  ghost predicate Agrees(l: Entries, done: nat, evs: set<Event>) {
    forall st, ev :: Lookup(l, st, ev) ==
                       if Place(st) < done || (Place(st) == done && ev in evs) then Transition(st, ev) else None
  }

  lemma PutAgrees(l: Entries, done: nat, evs: set<Event>, x: Entry<State, Event, Action>, ev: Event)
    requires Agrees(l, done, evs) && done == Place(x.prev) && x.event == Some(ev) && ev !in evs
    requires Transition(x.prev, ev) == Some(Row(x.next, x.action))
    ensures Agrees(Add(l, x), done, evs + {ev}) && !Refused(l, x)
  {
    hide Transition, Lookup, Add, Resolve;
    forall st, e ensures Lookup(Add(l, x), st, e) ==
              if Place(st) < done || (Place(st) == done && e in evs + {ev}) then Transition(st, e) else None {
      LookupAdded(l, x, st, e);
    }
    NotRefused(l, x, ev);
  }

  lemma NotRefused(l: Entries, x: Entry<State, Event, Action>, ev: Event)
    requires x.event == Some(ev) && Lookup(l, x.prev, ev).None?
    ensures !Refused(l, x)
  {
  }

  lemma WildcardAgrees(l: Entries, done: nat, evs: set<Event>, x: Entry<State, Event, Action>)
    requires Agrees(l, done, evs) && done == Place(x.prev) && x.event.None?
    requires forall ev :: if ev in evs then Transition(x.prev, ev).Some?
                          else Transition(x.prev, ev) == Some(Row(x.next, x.action))
    ensures Agrees(Add(l, x), done + 1, {})
  {
    hide Transition, Lookup, Add, Resolve;
    forall st, e ensures Lookup(Add(l, x), st, e) == if Place(st) < done + 1 then Transition(st, e) else None {
      LookupAdded(l, x, st, e);
      assert st == x.prev ==> Transition(x.prev, e).Some?;
    }
  }

  lemma FinishAgrees(l: Entries, st: State, evs: set<Event>)
    requires Agrees(l, Place(st), evs) && forall ev | ev !in evs :: Transition(st, ev).None?
    ensures Agrees(l, Place(st) + 1, {})
  {
    hide Transition, Lookup;
  }

  class DiameterPeerStateTable {
    const table: StateTable<State, Event, Action>
    ghost var done: nat         // how many states have all their entries
    ghost var evs: set<Event>   // the events that have an entry in the state being filled

    ghost predicate Valid()
      reads this, table
    {
      Agrees(table.list, done, evs)
    }

    ghost predicate Complete()
      reads table
    {
      forall st, ev :: Lookup(table.list, st, ev) == Transition(st, ev)
    }

    constructor ()
      ensures fresh(table) && Complete()
    {
      table := new StateTable();
      done, evs := 0, {};
      new;
      hide Transition;
      FillClosed();
      FillWaitConnAck();
      FillWaitICea();
      FillWaitConnAckElect();
      FillWaitReturns();
      FillROpen();
      FillIOpen();
      FillClosing();
    }

    /** An entry for one event; the original throws if there is one already. */
    method Put(pSt: State, ev: Event, nSt: State, ac: Action)
      requires Valid() && done == Place(pSt) && ev !in evs && Transition(pSt, ev) == Some(Row(nSt, ac))
      modifies this, table
      ensures Valid() && done == old(done) && evs == old(evs) + {ev}
    {
      hide Transition, Agrees, Add;
      PutAgrees(table.list, done, evs, Entry(pSt, Some(ev), nSt, ac), ev);
      var status := table.AddStateTableEntry(pSt, ev, nSt, ac);
      assert status == Added;
      evs := evs + {ev};
    }

    /** An entry for every event that has none. */
    method PutWildcard(pSt: State, nSt: State, ac: Action)
      requires Valid() && done == Place(pSt)
      requires forall ev :: if ev in evs then Transition(pSt, ev).Some? else Transition(pSt, ev) == Some(Row(nSt, ac))
      modifies this, table
      ensures Valid() && done == old(done) + 1 && evs == {}
    {
      hide Transition, Agrees, Add;
      WildcardAgrees(table.list, done, evs, Entry(pSt, None, nSt, ac));
      var status := table.AddWildcardStateTableEntry(pSt, nSt, ac);
      done, evs := done + 1, {};
    }

    /** The other events of the state have no entry. */
    ghost method Finish(pSt: State)
      requires Valid() && done == Place(pSt) && forall ev | ev !in evs :: Transition(pSt, ev).None?
      modifies this
      ensures Valid() && done == old(done) + 1 && evs == {}
    {
      FinishAgrees(table.list, pSt, evs);
      done, evs := done + 1, {};
    }

    method FillClosed()
      requires Valid() && done == 0 && evs == {}
      modifies this, table
      ensures Valid() && done == 1 && evs == {}
    {
      hide Agrees;
      Put(Closed, Start, WaitConnAck, ISendConnReq);
      Put(Closed, RConnCer, ROpen, RAcceptSendCea);
      Put(Closed, ConnRetry, Closed, Retry);
      PutWildcard(Closed, Closed, CleanUp);
    }

    method FillWaitConnAck()
      requires Valid() && done == 1 && evs == {}
      modifies this, table
      ensures Valid() && done == 2 && evs == {}
    {
      hide Agrees;
      Put(WaitConnAck, IRcvConnAck, WaitICea, ISendCer);
      Put(WaitConnAck, IRcvConnNack, Closed, ConnNack);
      Put(WaitConnAck, RConnCer, WaitConnAckElect, RAccept);
      Put(WaitConnAck, Timeout, Closed, Fail);
      Put(WaitConnAck, Stop, Closed, Fail);
      Finish(WaitConnAck);
    }

    method FillWaitICea()
      requires Valid() && done == 2 && evs == {}
      modifies this, table
      ensures Valid() && done == 3 && evs == {}
    {
      hide Agrees;
      Put(WaitICea, IRcvCea, IOpen, ProcessCea);
      Put(WaitICea, RConnCer, WaitReturns, RAcceptElect);
      Put(WaitICea, IPeerDisc, Closed, Disconnect);
      Put(WaitICea, IRcvNonCea, Closed, Fail);
      Put(WaitICea, Timeout, Closed, Fail);
      Put(WaitICea, Stop, Closed, Fail);
      Finish(WaitICea);
    }

    method FillWaitConnAckElect()
      requires Valid() && done == 3 && evs == {}
      modifies this, table
      ensures Valid() && done == 4 && evs == {}
    {
      hide Agrees;
      Put(WaitConnAckElect, IRcvConnAck, WaitReturns, ISendCerElect);
      Put(WaitConnAckElect, IRcvConnNack, ROpen, RSendCea);
      Put(WaitConnAckElect, RPeerDisc, WaitConnAck, RDisconnectResp);
      Put(WaitConnAckElect, RConnCer, WaitConnAckElect, RReject);
      Put(WaitConnAckElect, Timeout, Closed, Fail);
      Finish(WaitConnAckElect);
    }

    method FillWaitReturns()
      requires Valid() && done == 4 && evs == {}
      modifies this, table
      ensures Valid() && done == 5 && evs == {}
    {
      hide Agrees;
      Put(WaitReturns, WinElection, ROpen, IDisconnectSendCea);
      Put(WaitReturns, IPeerDisc, ROpen, IDisconnectSendCea);
      Put(WaitReturns, IRcvCea, IOpen, RDisconnectIOpen);
      Put(WaitReturns, RPeerDisc, WaitICea, RDisconnectResp);
      Put(WaitReturns, RConnCer, WaitReturns, RReject);
      Put(WaitReturns, Timeout, Closed, Fail);
      Finish(WaitReturns);
    }

    method BeginROpen()
      requires Valid() && done == 5 && evs == {}
      modifies this, table
      ensures Valid() && done == 5
      ensures evs == {SendMessage, RRcvMessage, RRcvDwr, RRcvDwa, RConnCer, Stop}
    {
      hide Agrees;
      Put(ROpen, SendMessage, ROpen, RSend);
      Put(ROpen, RRcvMessage, ROpen, Process);
      Put(ROpen, RRcvDwr, ROpen, ProcessDwrSendDwa);
      Put(ROpen, RRcvDwa, ROpen, ProcessDwa);
      Put(ROpen, RConnCer, ROpen, RReject);
      Put(ROpen, Stop, Closing, RSendDpr);
    }

    method ContinueROpen()
      requires Valid() && done == 5 && evs == {SendMessage, RRcvMessage, RRcvDwr, RRcvDwa, RConnCer, Stop}
      modifies this, table
      ensures Valid() && done == 5
      ensures evs == {SendMessage, RRcvMessage, RRcvDwr, RRcvDwa, RConnCer, Stop,
                      RRcvDpr, RPeerDisc, RRcvCer, RRcvCea, Watchdog}
    {
      hide Agrees;
      Put(ROpen, RRcvDpr, Closed, RSendDpaDisconnect);
      Put(ROpen, RPeerDisc, Closed, Disconnect);
      Put(ROpen, RRcvCer, ROpen, RSendCeaOpen);
      Put(ROpen, RRcvCea, ROpen, ProcessCea);
      Put(ROpen, Watchdog, ROpen, SendWatchdog);
    }

    method FillROpen()
      requires Valid() && done == 5 && evs == {}
      modifies this, table
      ensures Valid() && done == 6 && evs == {}
    {
      hide Agrees;
      BeginROpen();
      ContinueROpen();
      Finish(ROpen);
    }

    method BeginIOpen()
      requires Valid() && done == 6 && evs == {}
      modifies this, table
      ensures Valid() && done == 6
      ensures evs == {SendMessage, IRcvMessage, IRcvDwr, IRcvDwa, RConnCer, Stop}
    {
      hide Agrees;
      Put(IOpen, SendMessage, IOpen, ISend);
      Put(IOpen, IRcvMessage, IOpen, Process);
      Put(IOpen, IRcvDwr, IOpen, ProcessDwrSendDwa);
      Put(IOpen, IRcvDwa, IOpen, ProcessDwa);
      Put(IOpen, RConnCer, IOpen, RReject);
      Put(IOpen, Stop, Closing, ISendDpr);
    }

    method ContinueIOpen()
      requires Valid() && done == 6 && evs == {SendMessage, IRcvMessage, IRcvDwr, IRcvDwa, RConnCer, Stop}
      modifies this, table
      ensures Valid() && done == 6
      ensures evs == {SendMessage, IRcvMessage, IRcvDwr, IRcvDwa, RConnCer, Stop,
                      IRcvDpr, IPeerDisc, IRcvCer, IRcvCea, Watchdog}
    {
      hide Agrees;
      Put(IOpen, IRcvDpr, Closed, ISendDpaDisconnect);
      Put(IOpen, IPeerDisc, Closed, Disconnect);
      Put(IOpen, IRcvCer, IOpen, ISendCea);
      Put(IOpen, IRcvCea, IOpen, ProcessCea);
      Put(IOpen, Watchdog, IOpen, SendWatchdog);
    }

    method FillIOpen()
      requires Valid() && done == 6 && evs == {}
      modifies this, table
      ensures Valid() && done == 7 && evs == {}
    {
      hide Agrees;
      BeginIOpen();
      ContinueIOpen();
      Finish(IOpen);
    }

    method FillClosing()
      requires Valid() && done == 7 && evs == {}
      modifies this, table
      ensures Valid() && done == 8 && evs == {}
    {
      hide Agrees;
      Put(Closing, IRcvDpa, Closed, DisconnectDpa);
      Put(Closing, RRcvDpa, Closed, DisconnectDpa);
      Put(Closing, Timeout, Closed, Fail);
      Put(Closing, IPeerDisc, Closed, Disconnect);
      Put(Closing, RPeerDisc, Closed, Disconnect);
      PutWildcard(Closing, Closing, NoAction);
    }
  }
}
