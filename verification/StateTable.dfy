/** State tables: a list of entries searched for a state and an event, where an entry may stand for any
    event of its state. */
module StateTable {
  import opened Common

  /** An entry for one event, or for any (`event` is None). */
  datatype Entry<S, E, A> = Entry(prev: S, event: Option<E>, next: S, action: A)

  datatype Status = Added | FoundDuplicate

  predicate Specific<S(==), E(==), A>(x: Entry<S, E, A>, st: S, ev: E) {
    x.prev == st && x.event == Some(ev)
  }

  predicate Wildcard<S(==), E, A>(x: Entry<S, E, A>, st: S) {
    x.prev == st && x.event.None?
  }

  /** The first entry for exactly this state and event. */
  function FindSpecific<S(==), E(==), A>(l: seq<Entry<S, E, A>>, st: S, ev: E): Option<Entry<S, E, A>> {
    if l == [] then None
    else if Specific(l[0], st, ev) then Some(l[0])
    else FindSpecific(l[1..], st, ev)
  }

  /** The last entry for any event of this state. */
  function FindWildcard<S(==), E, A>(l: seq<Entry<S, E, A>>, st: S): Option<Entry<S, E, A>> {
    if l == [] then None
    else if Wildcard(l[|l| - 1], st) then Some(l[|l| - 1])
    else FindWildcard(l[..|l| - 1], st)
  }

  function Resolve<S(==), E(==), A>(l: seq<Entry<S, E, A>>, st: S, ev: E): Option<Entry<S, E, A>> {
    if FindSpecific(l, st, ev).Some? then FindSpecific(l, st, ev) else FindWildcard(l, st)
  }

  predicate Refused<S(==), E(==), A>(l: seq<Entry<S, E, A>>, x: Entry<S, E, A>) {
    match x.event
    case Some(ev) => Resolve(l, x.prev, ev).Some?
    case None => FindWildcard(l, x.prev).Some?
  }

  /** What either Add function makes of a list. */
  function Add<S(==), E(==), A>(l: seq<Entry<S, E, A>>, x: Entry<S, E, A>): seq<Entry<S, E, A>> {
    if Refused(l, x) then l else l + [x]
  }

  class StateTable<S(==), E(==), A> {
    var list: seq<Entry<S, E, A>>

    constructor ()
      ensures list == []
    {
      list := [];
    }

    /** The search: an entry for the event ends it, an entry for any event is kept in mind. */
    method FindStateTableEntry(st: S, ev: E) returns (entry: Option<Entry<S, E, A>>)
      ensures entry == Resolve(list, st, ev)
    {
      entry := None;
      var i := 0;
      while i < |list|
        invariant 0 <= i <= |list|
        invariant FindSpecific(list, st, ev) == FindSpecific(list[i..], st, ev)
        invariant entry == FindWildcard(list[..i], st)
      {
        var e := list[i];
        assert list[..i + 1][..i] == list[..i];
        i := i + 1;
        if e.prev != st {
          continue;
        }
        if e.event.None? {
          entry := Some(e);
          continue;
        }
        if e.event == Some(ev) {
          return Some(e);
        }
      }
      assert list[..i] == list;
    }

    method FindWildcardEntry(st: S) returns (found: bool)
      ensures found <==> FindWildcard(list, st).Some?
    {
      var i := 0;
      while i < |list|
        invariant 0 <= i <= |list| && FindWildcard(list[..i], st).None?
      {
        assert list[..i + 1][..i] == list[..i];
        if list[i].prev == st && list[i].event.None? {
          WildcardExists(list, st, i);
          return true;
        }
        i := i + 1;
      }
      assert list[..i] == list;
      return false;
    }

    method AddStateTableEntry(pSt: S, ev: E, nSt: S, ac: A) returns (status: Status)
      modifies this
      ensures list == Add(old(list), Entry(pSt, Some(ev), nSt, ac))
      ensures status == FoundDuplicate <==> Refused(old(list), Entry(pSt, Some(ev), nSt, ac))
    {
      var dummy := FindStateTableEntry(pSt, ev);
      if dummy.Some? {
        return FoundDuplicate;
      }
      list := list + [Entry(pSt, Some(ev), nSt, ac)];
      return Added;
    }

    method AddWildcardStateTableEntry(pSt: S, nSt: S, ac: A) returns (status: Status)
      modifies this
      ensures list == Add(old(list), Entry(pSt, None, nSt, ac))
      ensures status == FoundDuplicate <==> Refused(old(list), Entry(pSt, None, nSt, ac))
    {
      var dummy := FindWildcardEntry(pSt);
      if dummy {
        return FoundDuplicate;
      }
      list := list + [Entry(pSt, None, nSt, ac)];
      return Added;
    }
  }

  lemma {:induction false} WildcardExists<S, E, A>(l: seq<Entry<S, E, A>>, st: S, i: nat)
    requires i < |l| && Wildcard(l[i], st)
    ensures FindWildcard(l, st).Some?
  {
    if i < |l| - 1 {
      WildcardExists(l[..|l| - 1], st, i);
    }
  }

  lemma {:induction false} SpecificAppended<S, E, A>(l: seq<Entry<S, E, A>>, x: Entry<S, E, A>, st: S, ev: E)
    ensures FindSpecific(l + [x], st, ev) ==
              if FindSpecific(l, st, ev).Some? then FindSpecific(l, st, ev)
              else if Specific(x, st, ev) then Some(x) else None
  {
    if l != [] {
      assert (l + [x])[1..] == l[1..] + [x];
      SpecificAppended(l[1..], x, st, ev);
    }
  }

  /** An addition answers the pairs it was made for, and only those that had no answer: once a pair
      resolves, no later addition changes its entry. */
  lemma AddResolves<S, E, A>(l: seq<Entry<S, E, A>>, x: Entry<S, E, A>, st: S, ev: E)
    ensures Resolve(Add(l, x), st, ev) ==
              if Resolve(l, st, ev).Some? then Resolve(l, st, ev)
              else if x.prev == st && (x.event.None? || x.event == Some(ev)) then Some(x)
              else None
  {
    if !Refused(l, x) {
      SpecificAppended(l, x, st, ev);
      assert (l + [x])[..|l|] == l;
    }
  }

  // ----- every table built by additions -----

  function Build<S(==), E(==), A>(xs: seq<Entry<S, E, A>>): seq<Entry<S, E, A>> {
    if xs == [] then [] else Add(Build(xs[..|xs| - 1]), xs[|xs| - 1])
  }

  /** No two entries for the same state and event, nor two for any event of the same state. */
  ghost predicate Unambiguous<S, E, A>(l: seq<Entry<S, E, A>>) {
    forall i, j | 0 <= i < j < |l| :: l[i].prev != l[j].prev || l[i].event != l[j].event
  }

  lemma {:induction false} FoundIsEntry<S, E, A>(l: seq<Entry<S, E, A>>, st: S, ev: E)
    ensures FindSpecific(l, st, ev).Some? ==>
              FindSpecific(l, st, ev).value in l && Specific(FindSpecific(l, st, ev).value, st, ev)
    ensures FindSpecific(l, st, ev).None? ==> forall i | 0 <= i < |l| :: !Specific(l[i], st, ev)
  {
    if l != [] {
      FoundIsEntry(l[1..], st, ev);
      assert l == [l[0]] + l[1..];
    }
  }

  lemma {:induction false} FoundIsWildcard<S, E, A>(l: seq<Entry<S, E, A>>, st: S)
    ensures FindWildcard(l, st).Some? ==> FindWildcard(l, st).value in l && Wildcard(FindWildcard(l, st).value, st)
    ensures FindWildcard(l, st).None? ==> forall i | 0 <= i < |l| :: !Wildcard(l[i], st)
  {
    if l != [] {
      FoundIsWildcard(l[..|l| - 1], st);
      assert l == l[..|l| - 1] + [l[|l| - 1]];
    }
  }

  lemma {:induction false} BuiltIsUnambiguous<S, E, A>(xs: seq<Entry<S, E, A>>)
    ensures Unambiguous(Build(xs))
  {
    if xs != [] {
      var l, x := Build(xs[..|xs| - 1]), xs[|xs| - 1];
      BuiltIsUnambiguous(xs[..|xs| - 1]);
      FoundIsWildcard(l, x.prev);
      if x.event.Some? {
        FoundIsEntry(l, x.prev, x.event.value);
      }
    }
  }

  /** In every table built by additions a search gives the one entry for the state and event, else the
      one entry for any event of the state, else nothing. */
  lemma SearchIsExact<S, E, A>(xs: seq<Entry<S, E, A>>, st: S, ev: E, i: nat)
    requires i < |Build(xs)|
    ensures var l := Build(xs);
            Specific(l[i], st, ev) ==> Resolve(l, st, ev) == Some(l[i])
    ensures var l := Build(xs);
            Wildcard(l[i], st) && (forall j | 0 <= j < |l| :: !Specific(l[j], st, ev)) ==>
              Resolve(l, st, ev) == Some(l[i])
    ensures var l := Build(xs);
            (forall j | 0 <= j < |l| :: !Specific(l[j], st, ev) && !Wildcard(l[j], st)) ==> Resolve(l, st, ev).None?
  {
    var l := Build(xs);
    BuiltIsUnambiguous(xs);
    FoundIsEntry(l, st, ev);
    FoundIsWildcard(l, st);
  }
}
