/** The two-word counter behind session identifiers, and the list that hands them out. */
module SessionCounter {
  import opened Common

  const WORD: nat := 0x1_0000_0000
  const LAST: nat := 0xffff_ffff

  /** A 32-bit unsigned word. */
  type word = x: int | 0 <= x < 0x1_0000_0000 witness 0

  datatype Counter = Counter(high: word, low: word)

  const NULL_COUNTER := Counter(0, 0)

  function Increment(w: word): word {
    (w + 1) % WORD
  }

  /** What operator++ makes of a counter: a low word that reaches the last value carries, a high word
      that reaches it starts over. */
  function Succ(c: Counter): Counter {
    var low := Increment(c.low);
    var high := if low == LAST then Increment(c.high) else c.high;
    Counter(if high == LAST then 0 else high, if low == LAST then 0 else low)
  }

  predicate Less(c: Counter, d: Counter) {
    c.high < d.high || (c.high == d.high && c.low < d.low)
  }

  class DiameterSessionCounter {
    var high: word
    var low: word

    function Value(): Counter
      reads this
    {
      Counter(high, low)
    }

    constructor (h: word, l: word)
      ensures Value() == Counter(h, l)
    {
      high, low := h, l;
    }

    /** operator++ */
    method Advance()
      modifies this
      ensures Value() == Succ(old(Value()))
    {
      low := Increment(low);
      if low == LAST {
        low := 0;
        high := Increment(high);
      }
      if high == LAST {
        high := 0;
      }
    }
  }

  // ----- operator++ is a successor -----

  /** How many values the counter runs through. */
  const CYCLE: nat := 0xffff_fffe_0000_0001

  predicate InRange(c: Counter) {
    c.high < LAST && c.low < LAST
  }

  function Rank(c: Counter): nat {
    c.high * LAST + c.low
  }

  /** Whatever it starts from, the counter never holds the last value of a word again; from a start
      without it, it counts modulo (2^32 - 1)^2. */
  lemma SuccIsSuccessor(c: Counter)
    ensures InRange(Succ(c))
    ensures InRange(c) ==> Rank(c) < CYCLE && Rank(Succ(c)) == if Rank(c) + 1 < CYCLE then Rank(c) + 1 else 0
  {
  }

  /** operator< is the order of the ranks, and equal ranks are equal counters. */
  lemma LessIsRankOrder(c: Counter, d: Counter)
    requires InRange(c) && InRange(d)
    ensures Less(c, d) <==> Rank(c) < Rank(d)
    ensures c == d <==> Rank(c) == Rank(d)
  {
    if c.high < d.high {
      assert Rank(c) < (c.high + 1) * LAST <= Rank(d);
    } else if d.high < c.high {
      assert Rank(d) < (d.high + 1) * LAST <= Rank(c);
    }
  }

  /** The counter after n increments. */
  function Nth(c: Counter, n: nat): Counter {
    if n == 0 then c else Succ(Nth(c, n - 1))
  }

  /** After n increments the counter is n further, less whole laps. */
  lemma {:induction false} RankOfNth(c: Counter, n: nat) returns (laps: nat)
    requires InRange(c)
    ensures InRange(Nth(c, n)) && Rank(Nth(c, n)) == Rank(c) + n - laps * CYCLE
    ensures Rank(c) < CYCLE && Rank(Nth(c, n)) < CYCLE
  {
    if n == 0 {
      laps := 0;
    } else {
      laps := RankOfNth(c, n - 1);
      var before := Nth(c, n - 1);
      SuccIsSuccessor(before);
      if Rank(before) + 1 == CYCLE {
        laps := laps + 1;
      }
    }
  }

  lemma LapsApart(a: int, b: int, l: int, m: int)
    requires a < b < a + CYCLE
    ensures a - l * CYCLE != b - m * CYCLE
  {
  }

  /** From any start, two counter values drawn less than a whole cycle apart differ. */
  lemma DrawsDiffer(c: Counter, i: nat, j: nat)
    requires 1 <= i < j < i + CYCLE
    ensures Nth(c, i) != Nth(c, j)
  {
    NthFromFirst(c, i);
    NthFromFirst(c, j);
    SuccIsSuccessor(c);
    var l := RankOfNth(Succ(c), i - 1);
    var m := RankOfNth(Succ(c), j - 1);
    LapsApart(Rank(Succ(c)) + i - 1, Rank(Succ(c)) + j - 1, l, m);
  }

  lemma {:induction false} NthFromFirst(c: Counter, n: nat)
    requires n >= 1
    ensures Nth(c, n) == Nth(Succ(c), n - 1)
  {
    if n > 1 {
      NthFromFirst(c, n - 1);
    }
  }

  /** From a start without the last value, the draws increase under operator< until the wrap. */
  lemma DrawsIncrease(c: Counter, i: nat, j: nat)
    requires InRange(c) && i < j && Rank(c) + j < CYCLE
    ensures Less(Nth(c, i), Nth(c, j))
  {
    var l := RankOfNth(c, i);
    var m := RankOfNth(c, j);
    LessIsRankOrder(Nth(c, i), Nth(c, j));
  }

  // ----- the entry list -----

  datatype Entry<T> = Entry(id: Counter, data: T)

  function Find<T>(entries: seq<Entry<T>>, id: Counter): Option<T> {
    if entries == [] then None
    else if entries[0].id == id then Some(entries[0].data)
    else Find(entries[1..], id)
  }

  function Without<T>(entries: seq<Entry<T>>, id: Counter): seq<Entry<T>> {
    if entries == [] then []
    else if entries[0].id == id then entries[1..]
    else [entries[0]] + Without(entries[1..], id)
  }

  /** The sessions of one Diameter identity and optional value. */
  class SessionEntryList<T> {
    var entries: seq<Entry<T>>
    const lastKnown: DiameterSessionCounter

    /** The first draw follows the time of construction. */
    constructor (seconds: word, micros: word)
      ensures entries == [] && lastKnown.Value() == Counter(seconds, micros) && fresh(lastKnown)
    {
      entries := [];
      lastKnown := new DiameterSessionCounter(seconds, micros);
    }

    /** A session without an identifier is given the next one. */
    method Add(id: Counter, data: T) returns (given: Counter)
      modifies this, lastKnown
      ensures lastKnown.Value() == if id == NULL_COUNTER then Succ(old(lastKnown.Value())) else old(lastKnown.Value())
      ensures given == if id == NULL_COUNTER then lastKnown.Value() else id
      ensures entries == [Entry(given, data)] + old(entries)
    {
      given := id;
      if id == NULL_COUNTER {
        lastKnown.Advance();
        given := Counter(lastKnown.high, lastKnown.low);
      }
      entries := [Entry(given, data)] + entries;
    }

    method Lookup(id: Counter) returns (data: Option<T>)
      ensures data == Find(entries, id)
    {
      var i := 0;
      while i < |entries|
        invariant 0 <= i <= |entries| && Find(entries, id) == Find(entries[i..], id)
      {
        if entries[i].id == id {
          return Some(entries[i].data);
        }
        i := i + 1;
      }
      return None;
    }

    method Remove(id: Counter) returns (found: bool)
      modifies this
      ensures entries == Without(old(entries), id)
      ensures found <==> Find(old(entries), id).Some?
    {
      var i := 0;
      while i < |entries|
        invariant 0 <= i <= |entries| && entries == old(entries)
        invariant forall j | 0 <= j < i :: entries[j].id != id
      {
        if entries[i].id == id {
          FirstOccurrence(entries, id, i);
          entries := entries[..i] + entries[i + 1..];
          return true;
        }
        i := i + 1;
      }
      FirstOccurrence(entries, id, i);
      return false;
    }
  }

  lemma {:induction false} FirstOccurrence<T>(entries: seq<Entry<T>>, id: Counter, i: nat)
    requires i <= |entries| && forall j | 0 <= j < i :: entries[j].id != id
    requires i < |entries| ==> entries[i].id == id
    ensures Without(entries, id) == if i < |entries| then entries[..i] + entries[i + 1..] else entries
    ensures Find(entries, id).Some? <==> i < |entries|
  {
    if i > 0 {
      FirstOccurrence(entries[1..], id, i - 1);
      assert entries == [entries[0]] + entries[1..];
    }
  }

  // ----- every sequence of operations -----

  datatype Op<T> = Add(id: Counter, data: T) | Remove(id: Counter)

  /** The list's state, and every identifier handed out so far, in order. */
  datatype Db<T> = Db(entries: seq<Entry<T>>, last: Counter, handed: seq<Counter>)

  function Apply<T>(db: Db<T>, op: Op<T>): Db<T> {
    match op
    case Remove(id) => db.(entries := Without(db.entries, id))
    case Add(id, data) =>
      if id == NULL_COUNTER then
        var next := Succ(db.last);
        Db([Entry(next, data)] + db.entries, next, db.handed + [next])
      else db.(entries := [Entry(id, data)] + db.entries)
  }

  function Run<T>(start: Counter, ops: seq<Op<T>>): Db<T> {
    if ops == [] then Db([], start, []) else Apply(Run(start, ops[..|ops| - 1]), ops[|ops| - 1])
  }

  lemma {:induction false} HandedAreDraws<T>(start: Counter, ops: seq<Op<T>>)
    ensures var db := Run(start, ops);
            db.last == Nth(start, |db.handed|) && forall i | 0 <= i < |db.handed| :: db.handed[i] == Nth(start, i + 1)
  {
    if ops != [] {
      HandedAreDraws(start, ops[..|ops| - 1]);
    }
  }

  /** Over every sequence of additions and removals, from whatever time the list starts, up to
      (2^32 - 1)^2 identifiers handed out are pairwise distinct. */
  lemma HandedAreDistinct<T>(start: Counter, ops: seq<Op<T>>)
    requires |Run(start, ops).handed| <= CYCLE
    ensures var handed := Run(start, ops).handed;
            forall i, j | 0 <= i < j < |handed| :: handed[i] != handed[j]
  {
    HandedAreDraws(start, ops);
    var handed := Run(start, ops).handed;
    forall i, j | 0 <= i < j < |handed| ensures handed[i] != handed[j] {
      DrawsDiffer(start, i + 1, j + 1);
    }
  }

  /** The bound is exact: one more identifier repeats the first. */
  lemma CycleRepeats(start: Counter)
    ensures Nth(start, CYCLE + 1) == Nth(start, 1)
  {
    NthFromFirst(start, CYCLE + 1);
    SuccIsSuccessor(start);
    var laps := RankOfNth(Succ(start), CYCLE);
    assert laps == 1;
    LessIsRankOrder(Nth(Succ(start), CYCLE), Succ(start));
  }

  // ----- whose session a lookup finds -----

  /** The sessions added under an identifier and not yet removed, the newest first. */
  function Sessions<T>(entries: seq<Entry<T>>, id: Counter): seq<T> {
    if entries == [] then []
    else (if entries[0].id == id then [entries[0].data] else []) + Sessions(entries[1..], id)
  }

  lemma {:induction false} FindIsNewest<T>(entries: seq<Entry<T>>, id: Counter)
    ensures Find(entries, id) == if Sessions(entries, id) == [] then None else Some(Sessions(entries, id)[0])
  {
    if entries != [] && entries[0].id != id {
      FindIsNewest(entries[1..], id);
    }
  }

  lemma {:induction false} WithoutTakesNewest<T>(entries: seq<Entry<T>>, id: Counter, other: Counter)
    ensures Sessions(Without(entries, id), other)
            == if other != id || Sessions(entries, id) == [] then Sessions(entries, other)
               else Sessions(entries, id)[1..]
  {
    if entries != [] && entries[0].id != id {
      WithoutTakesNewest(entries[1..], id, other);
      assert ([entries[0]] + Without(entries[1..], id))[1..] == Without(entries[1..], id);
    }
  }

  /** What the operations alone leave under an identifier: each addition under it, or that is handed it, goes on top
      and each removal takes the top. */
  function Stack<T>(start: Counter, ops: seq<Op<T>>, id: Counter): seq<T> {
    if ops == [] then []
    else
      var before, rest := ops[..|ops| - 1], Stack(start, ops[..|ops| - 1], id);
      match ops[|ops| - 1]
      case Add(given, data) =>
        if id == (if given == Counter(0, 0) then Succ(Run(start, before).last) else given) then [data] + rest else rest
      case Remove(gone) => if gone == id && rest != [] then rest[1..] else rest
  }

  /** Over every sequence of operations a lookup gives the data of the newest session under the identifier that
      was not removed: after an addition what was added, after a removal the one before. */
  lemma {:induction false} LookupIsTop<T>(start: Counter, ops: seq<Op<T>>, id: Counter)
    ensures Sessions(Run(start, ops).entries, id) == Stack(start, ops, id)
    ensures Find(Run(start, ops).entries, id)
            == if Stack(start, ops, id) == [] then None else Some(Stack(start, ops, id)[0])
  {
    FindIsNewest(Run(start, ops).entries, id);
    if ops != [] {
      var before := ops[..|ops| - 1];
      LookupIsTop(start, before, id);
      match ops[|ops| - 1]
      case Add(given, data) =>
        assert Run(start, ops).entries[1..] == Run(start, before).entries;
      case Remove(gone) => WithoutTakesNewest(Run(start, before).entries, gone, id);
    }
  }
}
