/** The message identifiers of the base protocol: what a peer puts on the messages it sends and which
    answers it accepts. */
module MsgIds {
  /** A hop-by-hop and an end-to-end identifier. */
  datatype Pair = Pair(hop: nat, end: nat)

  const NO_PAIR := Pair(0, 0)

  /** Identifiers of requests sent and not yet answered, and of requests received and not yet
      answered. */
  datatype Ids = Ids(txHop: map<nat, nat>, txEnd: map<nat, nat>, rxHop: seq<nat>, rxEnd: seq<nat>)

  const NO_IDS := Ids(map[], map[], [], [])

  /** Insertion into a map keeps an entry that is already there. */
  function Insert(m: map<nat, nat>, k: nat): map<nat, nat> {
    if k in m then m else m[k := k]
  }

  function Front(q: seq<nat>): nat {
    if q == [] then 0 else q[0]
  }

  function Rest(q: seq<nat>): seq<nat> {
    if q == [] then [] else q[1..]
  }

  function SendRequest(s: Ids, p: Pair): Ids {
    s.(txHop := Insert(s.txHop, p.hop), txEnd := Insert(s.txEnd, p.end))
  }

  function SendAnswer(s: Ids): (Ids, Pair) {
    (s.(rxHop := Rest(s.rxHop), rxEnd := Rest(s.rxEnd)), Pair(Front(s.rxHop), Front(s.rxEnd)))
  }

  function ReceiveRequest(s: Ids, p: Pair): Ids {
    s.(rxHop := s.rxHop + [p.hop], rxEnd := s.rxEnd + [p.end])
  }

  /** A known hop-by-hop identifier is used up even when the end-to-end identifier is unknown. */
  function ReceiveAnswer(s: Ids, p: Pair): (Ids, bool) {
    if p.hop !in s.txHop then (s, false)
    else if p.end !in s.txEnd then (s.(txHop := s.txHop - {p.hop}), false)
    else (s.(txHop := s.txHop - {p.hop}, txEnd := s.txEnd - {p.end}), true)
  }

  class DiameterMsgId {
    var lastTxHopId: map<nat, nat>
    var lastTxEndId: map<nat, nat>
    var lastRxHopId: seq<nat>
    var lastRxEndId: seq<nat>

    function Value(): Ids
      reads this
    {
      Ids(lastTxHopId, lastTxEndId, lastRxHopId, lastRxEndId)
    }

    constructor ()
      ensures Value() == NO_IDS
    {
      lastTxHopId, lastTxEndId, lastRxHopId, lastRxEndId := map[], map[], [], [];
    }

    /** `next` is what the two generators would give. */
    method MsgIdTxMessage(request: bool, next: Pair) returns (hdr: Pair)
      modifies this
      ensures request ==> hdr == next && Value() == SendRequest(old(Value()), next)
      ensures !request ==> (Value(), hdr) == SendAnswer(old(Value()))
    {
      if request {
        if next.hop !in lastTxHopId {
          lastTxHopId := lastTxHopId[next.hop := next.hop];
        }
        if next.end !in lastTxEndId {
          lastTxEndId := lastTxEndId[next.end := next.end];
        }
        return next;
      }
      var hh, ee := 0, 0;
      if lastRxHopId != [] {
        hh := lastRxHopId[0];
        lastRxHopId := lastRxHopId[1..];
      }
      if lastRxEndId != [] {
        ee := lastRxEndId[0];
        lastRxEndId := lastRxEndId[1..];
      }
      hdr := Pair(hh, ee);
    }

    method MsgIdRxMessage(request: bool, hdr: Pair) returns (accepted: bool)
      modifies this
      ensures request ==> accepted && Value() == ReceiveRequest(old(Value()), hdr)
      ensures !request ==> (Value(), accepted) == ReceiveAnswer(old(Value()), hdr)
    {
      if request {
        lastRxHopId := lastRxHopId + [hdr.hop];
        lastRxEndId := lastRxEndId + [hdr.end];
        return true;
      }
      if hdr.hop in lastTxHopId {
        lastTxHopId := lastTxHopId - {hdr.hop};
        if hdr.end in lastTxEndId {
          lastTxEndId := lastTxEndId - {hdr.end};
          return true;
        }
      }
      return false;
    }
  }

  // ----- every run -----

  datatype Op = TxRequest(ids: Pair) | TxAnswer | RxRequest(ids: Pair) | RxAnswer(ids: Pair)

  function Apply(s: Ids, op: Op): Ids {
    match op
    case TxRequest(p) => SendRequest(s, p)
    case TxAnswer => SendAnswer(s).0
    case RxRequest(p) => ReceiveRequest(s, p)
    case RxAnswer(p) => ReceiveAnswer(s, p).0
  }

  function Before(ops: seq<Op>): seq<Op>
    requires ops != []
  {
    ops[..|ops| - 1]
  }

  function Last(ops: seq<Op>): Op
    requires ops != []
  {
    ops[|ops| - 1]
  }

  function Run(ops: seq<Op>): Ids {
    if ops == [] then NO_IDS else Apply(Run(Before(ops)), Last(ops))
  }

  /** The requests received, in order. */
  function Received(ops: seq<Op>): seq<Pair> {
    if ops == [] then []
    else Received(Before(ops)) + (if Last(ops).RxRequest? then [Last(ops).ids] else [])
  }

  /** How many of the requests received have been answered. */
  function Answered(ops: seq<Op>): (n: nat)
    ensures n <= |Received(ops)|
  {
    if ops == [] then 0
    else
      var n := Answered(Before(ops));
      if Last(ops).TxAnswer? && n < |Received(Before(ops))| then n + 1 else n
  }

  predicate Waiting(s: Ids, ps: seq<Pair>) {
    |s.rxHop| == |s.rxEnd| == |ps| && forall i | 0 <= i < |ps| :: Pair(s.rxHop[i], s.rxEnd[i]) == ps[i]
  }

  lemma {:induction false} WaitingRequests(ops: seq<Op>)
    ensures Waiting(Run(ops), Received(ops)[Answered(ops)..])
  {
    if ops != [] {
      WaitingRequests(Before(ops));
      var n, r := Answered(Before(ops)), Received(Before(ops));
      if Last(ops).RxRequest? {
        assert Received(ops)[n..] == r[n..] + [Last(ops).ids];
      } else {
        assert Received(ops) == r;
        assert Answered(ops) > n ==> r[n..][1..] == r[n + 1..];
      }
    }
  }

  /** Requests are answered in the order they came, each at most once: the answer sent after any run
      carries exactly the pair of the oldest unanswered request, or (0, 0) if there is none. */
  lemma AnswersFollowRequests(ops: seq<Op>)
    ensures SendAnswer(Run(ops)).1 ==
              if Answered(ops) < |Received(ops)| then Received(ops)[Answered(ops)] else NO_PAIR
    ensures Answered(ops + [TxAnswer]) ==
              if Answered(ops) < |Received(ops)| then Answered(ops) + 1 else Answered(ops)
  {
    WaitingRequests(ops);
    var rest := Received(ops)[Answered(ops)..];
    if rest != [] {
      assert Pair(Run(ops).rxHop[0], Run(ops).rxEnd[0]) == rest[0];
    }
    assert Before(ops + [TxAnswer]) == ops;
  }

  /** A request with this hop-by-hop identifier was sent after the last answer that carried it. */
  predicate HopOpen(ops: seq<Op>, hop: nat) {
    ops != []
    && match Last(ops)
       case TxRequest(p) => p.hop == hop || HopOpen(Before(ops), hop)
       case RxAnswer(p) => p.hop != hop && HopOpen(Before(ops), hop)
       case _ => HopOpen(Before(ops), hop)
  }

  /** A request with this end-to-end identifier was sent after the last answer that carried it with an
      open hop-by-hop identifier. */
  predicate EndOpen(ops: seq<Op>, end: nat) {
    ops != []
    && match Last(ops)
       case TxRequest(p) => p.end == end || EndOpen(Before(ops), end)
       case RxAnswer(p) => !(p.end == end && HopOpen(Before(ops), p.hop)) && EndOpen(Before(ops), end)
       case _ => EndOpen(Before(ops), end)
  }

  /** After any run an answer is accepted if and only if both its identifiers are open. */
  lemma {:induction false} AcceptedMeansOpen(ops: seq<Op>, p: Pair)
    ensures p.hop in Run(ops).txHop <==> HopOpen(ops, p.hop)
    ensures p.end in Run(ops).txEnd <==> EndOpen(ops, p.end)
    ensures ReceiveAnswer(Run(ops), p).1 <==> HopOpen(ops, p.hop) && EndOpen(ops, p.end)
  {
    if ops != [] {
      AcceptedMeansOpen(Before(ops), p);
      if Last(ops).RxAnswer? {
        AcceptedMeansOpen(Before(ops), Last(ops).ids);
      }
    }
  }

  /** How often requests with a hop-by-hop (or end-to-end) identifier were sent. */
  function SentHop(ops: seq<Op>, hop: nat): nat {
    if ops == [] then 0
    else SentHop(Before(ops), hop) + (if Last(ops).TxRequest? && Last(ops).ids.hop == hop then 1 else 0)
  }

  function SentEnd(ops: seq<Op>, end: nat): nat {
    if ops == [] then 0
    else SentEnd(Before(ops), end) + (if Last(ops).TxRequest? && Last(ops).ids.end == end then 1 else 0)
  }

  predicate AcceptsLast(ops: seq<Op>)
    requires ops != []
  {
    Last(ops).RxAnswer? && ReceiveAnswer(Run(Before(ops)), Last(ops).ids).1
  }

  function AcceptedHop(ops: seq<Op>, hop: nat): nat {
    if ops == [] then 0
    else AcceptedHop(Before(ops), hop) + (if AcceptsLast(ops) && Last(ops).ids.hop == hop then 1 else 0)
  }

  function AcceptedEnd(ops: seq<Op>, end: nat): nat {
    if ops == [] then 0
    else AcceptedEnd(Before(ops), end) + (if AcceptsLast(ops) && Last(ops).ids.end == end then 1 else 0)
  }

  function Open(m: map<nat, nat>, k: nat): nat {
    if k in m then 1 else 0
  }

  /** In every run no identifier is accepted on more answers than it was sent on requests, so with
      identifiers that do not repeat each is accepted at most once. */
  lemma {:induction false} AcceptedAtMostSent(ops: seq<Op>, hop: nat, end: nat)
    ensures AcceptedHop(ops, hop) + Open(Run(ops).txHop, hop) <= SentHop(ops, hop)
    ensures AcceptedEnd(ops, end) + Open(Run(ops).txEnd, end) <= SentEnd(ops, end)
  {
    if ops != [] {
      AcceptedAtMostSent(Before(ops), hop, end);
    }
  }

  /** The two identifiers are not matched as a pair: an answer that mixes two requests is accepted, and
      then neither of the two right answers is. */
  lemma MixedAnswerIsAccepted(p: Pair, q: Pair)
    requires p.hop != q.hop && p.end != q.end
    ensures var ops := [TxRequest(p), TxRequest(q)];
            && ReceiveAnswer(Run(ops), Pair(p.hop, q.end)).1
            && !ReceiveAnswer(Run(ops + [RxAnswer(Pair(p.hop, q.end))]), p).1
            && !ReceiveAnswer(Run(ops + [RxAnswer(Pair(p.hop, q.end))]), q).1
  {
    var one, two := [TxRequest(p)], [TxRequest(p), TxRequest(q)];
    var three := two + [RxAnswer(Pair(p.hop, q.end))];
    assert Before(one) == [] && Before(two) == one && Before(three) == two;
  }
}
