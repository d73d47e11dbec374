/** The servers of a realm and application, kept in the order of their metric, and the router's walk
    over them. */
module RouteServers {
  import opened Common
  import opened RouteNetwork

  /** A server entry; `at` tells apart the objects the list points to. */
  datatype ServerEntry = ServerEntry(at: nat, server: Id, metric: int)

  type Servers = seq<ServerEntry>

  /** The list without the first entry of that name. */
  function Without(s: Servers, name: Id): Servers {
    if s == [] then []
    else if s[0].server == name then s[1..]
    else [s[0]] + Without(s[1..], name)
  }

  /** The list with an entry put before the first whose metric is no less. */
  function Inserted(s: Servers, e: ServerEntry): Servers {
    if s == [] || s[0].metric >= e.metric then [e] + s else [s[0]] + Inserted(s[1..], e)
  }

  function Added(s: Servers, e: ServerEntry): Servers {
    Inserted(Without(s, e.server), e)
  }

  function Find(s: Servers, name: Id): Option<ServerEntry> {
    if s == [] then None
    else if s[0].server == name then Some(s[0])
    else Find(s[1..], name)
  }

  function After(s: Servers, e: ServerEntry): Option<ServerEntry> {
    if s == [] then None
    else if s[0] == e then if |s| > 1 then Some(s[1]) else None
    else After(s[1..], e)
  }

  predicate Sorted(s: Servers) {
    forall i, j | 0 <= i < j < |s| :: s[i].metric <= s[j].metric
  }

  predicate UniqueNames(s: Servers) {
    forall i, j | 0 <= i < j < |s| :: s[i].server != s[j].server
  }

  predicate Ordered(s: Servers) {
    Sorted(s) && UniqueNames(s)
  }

  function Names(s: Servers): seq<Id> {
    seq(|s|, i requires 0 <= i < |s| => s[i].server)
  }

  class RouteServers {
    var list: Servers

    constructor ()
      ensures list == []
    {
      list := [];
    }

    method Add(e: ServerEntry)
      modifies this
      ensures list == Added(old(list), e)
    {
      var found := Remove(e.server);
      ghost var s := list;
      var i := 0;
      while i < |list|
        invariant 0 <= i <= |list| && list == s
        invariant forall j | 0 <= j < i :: s[j].metric < e.metric
      {
        if list[i].metric >= e.metric {
          list := list[..i] + [e] + list[i..];
          InsertedAt(s, e, i);
          return;
        }
        i := i + 1;
      }
      list := list + [e];
      InsertedAt(s, e, i);
      assert s[..i] == s && s[i..] == [];
    }

    method Remove(name: Id) returns (found: bool)
      modifies this
      ensures list == Without(old(list), name)
      ensures found <==> Find(old(list), name).Some?
    {
      var i := 0;
      while i < |list|
        invariant 0 <= i <= |list| && list == old(list)
        invariant forall j | 0 <= j < i :: list[j].server != name
      {
        if list[i].server == name {
          FirstOfName(list, name, i);
          list := list[..i] + list[i + 1..];
          return true;
        }
        i := i + 1;
      }
      FirstOfName(list, name, i);
      return false;
    }

    method Lookup(name: Id) returns (e: Option<ServerEntry>)
      ensures e == Find(list, name)
    {
      var i := 0;
      while i < |list|
        invariant 0 <= i <= |list| && Find(list, name) == Find(list[i..], name)
      {
        if list[i].server == name {
          return Some(list[i]);
        }
        i := i + 1;
      }
      return None;
    }

    /** The original reads the front of the list without asking whether there is one. */
    method First() returns (e: ServerEntry)
      requires list != []
      ensures e == list[0]
    {
      e := list[0];
    }

    method Next(prev: ServerEntry) returns (e: Option<ServerEntry>)
      ensures e == After(list, prev)
    {
      var i := 0;
      while i < |list|
        invariant 0 <= i <= |list| && After(list, prev) == After(list[i..], prev)
      {
        if prev == list[i] {
          i := i + 1;
          if i < |list| {
            return Some(list[i]);
          }
          return None;
        }
        i := i + 1;
      }
      return None;
    }
  }

  lemma {:induction false} InsertedAt(s: Servers, e: ServerEntry, i: nat)
    requires i <= |s| && forall j | 0 <= j < i :: s[j].metric < e.metric
    requires i < |s| ==> s[i].metric >= e.metric
    ensures Inserted(s, e) == s[..i] + [e] + s[i..]
  {
    if i > 0 {
      InsertedAt(s[1..], e, i - 1);
      assert s[..i] == [s[0]] + s[1..][..i - 1] && s[i..] == s[1..][i - 1..];
    }
  }

  lemma {:induction false} FirstOfName(s: Servers, name: Id, i: nat)
    requires i <= |s| && forall j | 0 <= j < i :: s[j].server != name
    requires i < |s| ==> s[i].server == name
    ensures Without(s, name) == if i < |s| then s[..i] + s[i + 1..] else s
    ensures Find(s, name).Some? <==> i < |s|
  {
    if i > 0 {
      FirstOfName(s[1..], name, i - 1);
      assert s == [s[0]] + s[1..];
    }
  }

  /** RcRouted's walk by First and Next: it stops at the first server whose peer is open. */
  method SelectServer(t: Table, servers: RouteServers) returns (dest: Option<nat>)
    requires servers.list != [] && UniqueNames(servers.list)
    ensures dest == FirstOpen(t, Names(servers.list))
  {
    ghost var s := servers.list;
    var first := servers.First();
    var server: Option<ServerEntry> := Some(first);
    ghost var i := 0;
    while server.Some?
      invariant 0 <= i <= |s| && server == if i < |s| then Some(s[i]) else None
      invariant FirstOpen(t, Names(s)) == FirstOpen(t, Names(s[i..]))
      decreases |s| - i
    {
      var peer := OpenPeer(t, server.value.server);
      if peer.Some? {
        return peer;
      }
      assert Names(s[i..])[1..] == Names(s[i + 1..]);
      NextIsNext(s, i);
      server := servers.Next(server.value);
      i := i + 1;
    }
    dest := None;
  }

  /** First and Next visit each server once, in list order. */
  lemma {:induction false} NextIsNext(s: Servers, i: nat)
    requires UniqueNames(s) && i < |s|
    ensures After(s, s[i]) == if i + 1 < |s| then Some(s[i + 1]) else None
  {
    if i > 0 {
      assert s[0].server != s[i].server;
      assert s[1..][i - 1] == s[i];
      NextIsNext(s[1..], i - 1);
    }
  }

  // ----- what the order means to routing -----

  lemma {:induction false} FirstOpenIndex(t: Table, servers: seq<Id>) returns (i: nat)
    ensures FirstOpen(t, servers).None? ==> i == |servers|
    ensures FirstOpen(t, servers).Some? ==>
              i < |servers| && OpenPeer(t, servers[i]) == FirstOpen(t, servers)
    ensures forall j | 0 <= j < i :: OpenPeer(t, servers[j]).None?
  {
    if servers == [] || OpenPeer(t, servers[0]).Some? {
      i := 0;
    } else {
      i := FirstOpenIndex(t, servers[1..]);
      i := i + 1;
    }
  }

  /** The peer chosen is in the peer table, under the name of a server and with an open connection; no
      server that can be reached has a smaller metric, and none is chosen exactly when none can be reached. */
  lemma ChosenHasLeastMetric(t: Table, s: Servers)
    requires Ordered(s)
    ensures FirstOpen(t, Names(s)).None? <==> forall e | e in s :: Unreachable(t, e.server)
    ensures FirstOpen(t, Names(s)).Some? ==>
              exists e | e in s :: Reaches(t, e.server, FirstOpen(t, Names(s)).value)
                                   && forall o | o in s && !Unreachable(t, o.server) :: e.metric <= o.metric
  {
    var i := FirstOpenIndex(t, Names(s));
    forall j | 0 <= j < i ensures Unreachable(t, s[j].server) {
      assert Names(s)[j] == s[j].server;
    }
    if FirstOpen(t, Names(s)).Some? {
      var e := s[i];
      assert Reaches(t, e.server, FirstOpen(t, Names(s)).value);
      forall o | o in s && !Unreachable(t, o.server) ensures e.metric <= o.metric {
        var j :| 0 <= j < |s| && s[j] == o;
        assert i <= j;
      }
    }
  }

  // ----- what Add and Remove keep -----

  predicate Precedes(h: ServerEntry, s: Servers) {
    forall x | x in s :: h.metric <= x.metric && h.server != x.server
  }

  lemma ConsOrder(h: ServerEntry, s: Servers)
    ensures Ordered([h] + s) <==> Ordered(s) && Precedes(h, s)
  {
    var l := [h] + s;
    assert l[1..] == s;
    if Ordered(l) {
      forall x | x in s ensures h.metric <= x.metric && h.server != x.server {
        var j :| 0 <= j < |s| && s[j] == x;
        assert l[0] == h && l[j + 1] == x;
      }
      assert forall i | 0 <= i < |s| :: s[i] == l[i + 1];
    }
  }

  lemma {:induction false} RemoveKeepsOrder(s: Servers, name: Id)
    requires Ordered(s)
    ensures Ordered(Without(s, name))
    ensures forall e :: e in Without(s, name) <==> e in s && e.server != name
  {
    if s != [] {
      assert s == [s[0]] + s[1..];
      ConsOrder(s[0], s[1..]);
      if s[0].server != name {
        RemoveKeepsOrder(s[1..], name);
        ConsOrder(s[0], Without(s[1..], name));
      }
    }
  }

  lemma {:induction false} InsertedElements(s: Servers, e: ServerEntry)
    ensures forall x :: x in Inserted(s, e) <==> x == e || x in s
  {
    if s != [] && s[0].metric < e.metric {
      InsertedElements(s[1..], e);
    }
  }

  lemma {:induction false} InsertKeepsOrder(s: Servers, e: ServerEntry)
    requires Ordered(s) && forall x | x in s :: x.server != e.server
    ensures Ordered(Inserted(s, e))
  {
    if s != [] {
      assert s == [s[0]] + s[1..] && s[0] in s;
      ConsOrder(s[0], s[1..]);
      if s[0].metric < e.metric {
        InsertKeepsOrder(s[1..], e);
        InsertedElements(s[1..], e);
        ConsOrder(s[0], Inserted(s[1..], e));
      } else {
        ConsOrder(e, s);
      }
    }
  }

  /** The list stays sorted by metric with one entry a name. */
  lemma AddKeepsOrder(s: Servers, e: ServerEntry)
    requires Ordered(s)
    ensures Ordered(Added(s, e))
    ensures forall x :: x in Added(s, e) <==> x == e || (x in s && x.server != e.server)
  {
    RemoveKeepsOrder(s, e.server);
    InsertKeepsOrder(Without(s, e.server), e);
    InsertedElements(Without(s, e.server), e);
  }

  /** An addition replaces the entry of the same name and comes before every other of its metric. */
  lemma {:induction false} InsertedPlace(s: Servers, e: ServerEntry) returns (i: nat)
    ensures i < |Inserted(s, e)| && Inserted(s, e)[i] == e
    ensures Inserted(s, e)[..i] + Inserted(s, e)[i + 1..] == s
    ensures forall j | 0 <= j < i :: Inserted(s, e)[j].metric < e.metric
    ensures i < |s| ==> s[i].metric >= e.metric
  {
    if s == [] || s[0].metric >= e.metric {
      i := 0;
    } else {
      var k := InsertedPlace(s[1..], e);
      i := k + 1;
      var t := Inserted(s[1..], e);
      assert s == [s[0]] + (t[..k] + t[k + 1..]);
    }
  }

  /** With one entry a name, looking up finds exactly the entry of that name. */
  lemma {:induction false} FindIsMembership(s: Servers, name: Id, e: ServerEntry)
    requires UniqueNames(s)
    ensures Find(s, name) == Some(e) <==> e in s && e.server == name
  {
    if s != [] && s[0].server != name {
      FindIsMembership(s[1..], name, e);
    }
  }

  // ----- every sequence of operations -----

  datatype Op = Add(e: ServerEntry) | Remove(name: Id)

  function Apply(s: Servers, op: Op): Servers {
    match op
    case Add(e) => Added(s, e)
    case Remove(name) => Without(s, name)
  }

  function RunOps(ops: seq<Op>): Servers {
    if ops == [] then [] else Apply(RunOps(ops[..|ops| - 1]), ops[|ops| - 1])
  }

  /** What the last operation on a name left there. */
  function Latest(ops: seq<Op>, name: Id): Option<ServerEntry> {
    if ops == [] then None
    else
      match ops[|ops| - 1]
      case Add(e) => if e.server == name then Some(e) else Latest(ops[..|ops| - 1], name)
      case Remove(n) => if n == name then None else Latest(ops[..|ops| - 1], name)
  }

  /** After any sequence of additions and removals the list is in order and holds for each name what
      the last operation on that name left: the list is a map from names to servers. */
  lemma {:induction false} ListIsAMap(ops: seq<Op>)
    ensures Ordered(RunOps(ops))
    ensures forall e :: e in RunOps(ops) <==> Latest(ops, e.server) == Some(e)
  {
    if ops != [] {
      var before := ops[..|ops| - 1];
      ListIsAMap(before);
      match ops[|ops| - 1]
      case Add(e) => AddKeepsOrder(RunOps(before), e);
      case Remove(name) => RemoveKeepsOrder(RunOps(before), name);
    }
  }

  lemma {:induction false} LatestHasTheName(ops: seq<Op>, name: Id)
    ensures Latest(ops, name).Some? ==> Latest(ops, name).value.server == name
  {
    if ops != [] {
      LatestHasTheName(ops[..|ops| - 1], name);
    }
  }

  /** So looking a name up gives what the last operation on it left. */
  lemma LookupIsLatest(ops: seq<Op>, name: Id)
    ensures Find(RunOps(ops), name) == Latest(ops, name)
  {
    hide RunOps, Latest, Find;
    ListIsAMap(ops);
    LatestHasTheName(ops, name);
    if Find(RunOps(ops), name).Some? {
      FindIsMembership(RunOps(ops), name, Find(RunOps(ops), name).value);
    }
    if Latest(ops, name).Some? {
      FindIsMembership(RunOps(ops), name, Latest(ops, name).value);
    }
  }
}
