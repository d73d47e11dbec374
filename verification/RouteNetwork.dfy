/** Request routing: what one node does with a request, and how far a request can travel through a
    network of nodes. */
module RouteNetwork {
  import opened Common

  type Id = string

  /** The AVPs and header fields that routing reads. */
  datatype Request = Request(destHost: Option<Id>, destRealm: Option<string>, originHost: Option<Id>,
                             appId: nat, avpAppId: Option<nat>, vendorApp: Option<VendorApp>,
                             records: seq<Id>)

  /** A Vendor-Specific-Application-Id: the vendor and the first application id, each if present. */
  datatype VendorApp = VendorApp(vendor: Option<nat>, app: Option<nat>)

  datatype Action = Local | Relay | Proxy | Redirect

  /** A realm's route: servers in metric order for each application and vendor. */
  datatype Route = Route(action: Action, apps: map<(nat, nat), seq<Id>>)

  /** An entry of the peer table: which node it is, and whether its connection is open. */
  datatype Peer = Peer(node: nat, open: bool)

  /** What a node knows when it handles a request.  Peers and realms are looked up ignoring case. */
  datatype Table = Table(realm: string, apps: set<nat>, peers: map<Id, Peer>,
                         routes: map<string, Route>, default: Option<Route>)

  datatype Decision = Deliver                             // consumed here
                    | Stop                                // answered, rejected or refused here
                    | HostForward(next: nat)              // to the peer named by Destination-Host
                    | RealmForward(next: nat, req: Request) // to a server of the realm

  function Lower(c: char): char {
    if 'A' <= c <= 'Z' then c + 32 as char else c
  }

  function Fold(s: string): string {
    seq(|s|, i requires 0 <= i < |s| => Lower(s[i]))
  }

  /** RcLocal. */
  predicate IsLocal(me: Id, t: Table, r: Request) {
    if r.destHost.Some? then Fold(r.destHost.value) == Fold(me)
    else if r.destRealm.Some? then Fold(r.destRealm.value) == Fold(t.realm) && r.appId in t.apps
    else true
  }

  function OpenPeer(t: Table, id: Id): Option<nat> {
    var key := Fold(id);
    if key in t.peers && t.peers[key].open then Some(t.peers[key].node) else None
  }

  /** RcForwarded: an open peer named by Destination-Host. */
  function ForwardLookup(t: Table, r: Request): Option<nat> {
    if r.destHost.Some? then OpenPeer(t, r.destHost.value) else None
  }

  function RouteOf(t: Table, realm: string): Option<Route> {
    if Fold(realm) in t.routes then Some(t.routes[Fold(realm)]) else t.default
  }

  /** The servers for a request: by the header's application id, else by its AVPs. */
  function ServersOf(route: Route, r: Request): Option<seq<Id>> {
    if (r.appId, 0) in route.apps then Some(route.apps[(r.appId, 0)])
    else if r.avpAppId.Some? then
      if (r.avpAppId.value, 0) in route.apps then Some(route.apps[(r.avpAppId.value, 0)]) else None
    else
      match r.vendorApp
      case Some(VendorApp(Some(v), Some(a))) => if (a, v) in route.apps then Some(route.apps[(a, v)]) else None
      case _ => None
  }

  function FirstOpen(t: Table, servers: seq<Id>): Option<nat> {
    if servers == [] then None
    else if OpenPeer(t, servers[0]).Some? then OpenPeer(t, servers[0])
    else FirstOpen(t, servers[1..])
  }

  predicate LoopDetected(me: Id, r: Request) {
    me in r.records
  }

  predicate IsOrigin(me: Id, r: Request) {
    r.originHost == Some(me)
  }

  /** DcRouted for a relayed or proxied request: only a node that did not originate it checks for a
      loop and appends a Route-Record, and what it appends is its own identity. */
  function Relayed(me: Id, next: nat, r: Request): Decision {
    if IsOrigin(me, r) then RealmForward(next, r)
    else if LoopDetected(me, r) then Stop
    else RealmForward(next, r.(records := r.records + [me]))
  }

  /** RcRouted and DcRouted. */
  function RouteByRealm(me: Id, t: Table, r: Request): Decision {
    if r.destRealm.None? then Stop
    else
      match RouteOf(t, r.destRealm.value)
      case None => Stop
      case Some(route) =>
        match ServersOf(route, r)
        case None => Stop
        case Some(servers) =>
          if route.action == Redirect then Stop
          else
            match FirstOpen(t, servers)
            case None => Stop
            case Some(next) => if route.action == Local then Deliver else Relayed(me, next, r)
  }

  /** The request chain: local, forwarded, routed, rejected. */
  function Decide(me: Id, t: Table, r: Request): Decision {
    if IsLocal(me, t, r) then Deliver
    else
      match ForwardLookup(t, r)
      case Some(next) => if LoopDetected(me, r) then Stop else HostForward(next)
      case None => RouteByRealm(me, t, r)
  }

  // ----- what the decision promises, condition by condition -----

  /** Names are the same but for the case of ASCII letters. */
  predicate SameLetter(a: char, b: char) {
    a == b || ('A' <= a <= 'Z' && b as int == a as int + 32) || ('A' <= b <= 'Z' && a as int == b as int + 32)
  }

  lemma FoldIgnoresCase(a: string, b: string)
    ensures Fold(a) == Fold(b) <==> |a| == |b| && forall i | 0 <= i < |a| :: SameLetter(a[i], b[i])
  {
    if Fold(a) == Fold(b) {
      forall i | 0 <= i < |a| ensures SameLetter(a[i], b[i]) {
        assert Fold(a)[i] == Fold(b)[i];
      }
    }
  }

  /** The peer table has this node under this name, with an open connection. */
  predicate Reaches(t: Table, id: Id, n: nat) {
    Fold(id) in t.peers && t.peers[Fold(id)] == Peer(n, true)
  }

  predicate Unreachable(t: Table, id: Id) {
    Fold(id) in t.peers ==> !t.peers[Fold(id)].open
  }

  /** The request is for this node: by name, by its realm and a supported application, or by naming neither. */
  predicate Ours(me: Id, t: Table, r: Request) {
    || (r.destHost.Some? && Fold(r.destHost.value) == Fold(me))
    || (r.destHost.None? && r.destRealm.Some? && Fold(r.destRealm.value) == Fold(t.realm) && r.appId in t.apps)
    || (r.destHost.None? && r.destRealm.None?)
  }

  /** The request names another node that can be reached. */
  predicate ForPeer(me: Id, t: Table, r: Request, n: nat) {
    r.destHost.Some? && Fold(r.destHost.value) != Fold(me) && Reaches(t, r.destHost.value, n)
  }

  predicate ForRealm(me: Id, t: Table, r: Request) {
    !Ours(me, t, r) && (r.destHost.Some? ==> Unreachable(t, r.destHost.value))
  }

  /** The route of a realm: its own, else the default one. */
  predicate Routes(t: Table, r: Request, route: Route) {
    && r.destRealm.Some?
    && if Fold(r.destRealm.value) in t.routes then route == t.routes[Fold(r.destRealm.value)]
       else t.default == Some(route)
  }

  /** The servers of the header's application; if there are none, of the application an AVP names; without such an
      AVP, of the vendor's application. */
  predicate Serves(route: Route, r: Request, servers: seq<Id>) {
    if (r.appId, 0) in route.apps then servers == route.apps[(r.appId, 0)]
    else if r.avpAppId.Some? then
      (r.avpAppId.value, 0) in route.apps && servers == route.apps[(r.avpAppId.value, 0)]
    else
      && r.vendorApp.Some? && r.vendorApp.value.vendor.Some? && r.vendorApp.value.app.Some?
      && (r.vendorApp.value.app.value, r.vendorApp.value.vendor.value) in route.apps
      && servers == route.apps[(r.vendorApp.value.app.value, r.vendorApp.value.vendor.value)]
  }

  /** The first server that can be reached. */
  ghost predicate Nearest(t: Table, servers: seq<Id>, n: nat) {
    exists k: nat :: FirstAt(t, servers, n, k)
  }

  predicate FirstAt(t: Table, servers: seq<Id>, n: nat, k: nat) {
    k < |servers| && Reaches(t, servers[k], n) && forall j | 0 <= j < k :: Unreachable(t, servers[j])
  }

  /** The route, the servers and the next node that routing by realm finds. */
  ghost predicate Finds(me: Id, t: Table, r: Request, route: Route, servers: seq<Id>, n: nat) {
    ForRealm(me, t, r) && Routes(t, r, route) && Serves(route, r, servers) && Nearest(t, servers, n)
  }

  lemma {:induction false} FirstOpenIsNearest(t: Table, servers: seq<Id>, n: nat)
    ensures FirstOpen(t, servers) == Some(n) <==> Nearest(t, servers, n)
  {
    if servers != [] {
      FirstOpenIsNearest(t, servers[1..], n);
      if FirstOpen(t, servers) == Some(n) {
        if OpenPeer(t, servers[0]).Some? {
          assert FirstAt(t, servers, n, 0);
        } else {
          var k: nat :| FirstAt(t, servers[1..], n, k);
          assert FirstAt(t, servers, n, k + 1);
        }
      }
      if Nearest(t, servers, n) {
        var k: nat :| FirstAt(t, servers, n, k);
        if k > 0 {
          assert FirstAt(t, servers[1..], n, k - 1) by {
            forall j | 0 <= j < k - 1 ensures Unreachable(t, servers[1..][j]) {
              assert servers[1..][j] == servers[j + 1];
            }
          }
        }
      }
    }
  }

  /** A request for this node is consumed here, and a request that names another node that can be reached goes
      there, unless it has been here before. */
  lemma NamesComeFirst(me: Id, t: Table, r: Request, n: nat)
    ensures Ours(me, t, r) ==> Decide(me, t, r) == Deliver
    ensures ForPeer(me, t, r, n) ==> Decide(me, t, r) == if me in r.records then Stop else HostForward(n)
  {
  }

  /** A request for another realm is consumed under a local route, stops under one that redirects, and under the
      others goes to the first server that can be reached, with this node's Route-Record if it is not the
      origin, unless that is on it already. */
  lemma ActionsDecide(me: Id, t: Table, r: Request, route: Route, servers: seq<Id>, n: nat)
    requires Finds(me, t, r, route, servers, n)
    ensures match route.action
            case Local => Decide(me, t, r) == Deliver
            case Redirect => Decide(me, t, r) == Stop
            case Relay | Proxy =>
              Decide(me, t, r) == if r.originHost == Some(me) then RealmForward(n, r)
                                  else if me in r.records then Stop
                                  else RealmForward(n, r.(records := r.records + [me]))
  {
    FirstOpenIsNearest(t, servers, n);
  }

  /** Nothing else happens: a request that is consumed is this node's or came by a local route, one that is forwarded
      goes where it names or where a relaying or proxying route sends it, and all others stop. */
  lemma NothingElseIsDecided(me: Id, t: Table, r: Request)
    ensures match Decide(me, t, r)
            case Deliver =>
              Ours(me, t, r)
              || exists route, servers, n: nat :: Finds(me, t, r, route, servers, n) && route.action == Local
            case HostForward(n) => ForPeer(me, t, r, n) && me !in r.records
            case RealmForward(n, _) =>
              exists route, servers :: Finds(me, t, r, route, servers, n) && route.action in {Relay, Proxy}
            case Stop =>
              !Ours(me, t, r) && forall route, servers, n: nat :: Finds(me, t, r, route, servers, n) ==>
                route.action == Redirect
                || (route.action != Local && r.originHost != Some(me) && me in r.records)
  {
    hide Nearest;
    if r.destRealm.Some? && RouteOf(t, r.destRealm.value).Some? {
      var route := RouteOf(t, r.destRealm.value).value;
      if ServersOf(route, r).Some? {
        var servers := ServersOf(route, r).value;
        if FirstOpen(t, servers).Some? {
          var n := FirstOpen(t, servers).value;
          FirstOpenIsNearest(t, servers, n);
          assert !Ours(me, t, r) && ForwardLookup(t, r).None? ==> Finds(me, t, r, route, servers, n);
        }
      }
    }
    forall route, servers, n: nat | Finds(me, t, r, route, servers, n) && Decide(me, t, r) == Stop
      ensures route.action == Redirect || (route.action != Local && r.originHost != Some(me) && me in r.records)
    {
      ActionsDecide(me, t, r, route, servers, n);
    }
  }

  /** DcForward's search through the Route-Record AVPs. */
  method LoopDetection(me: Id, r: Request) returns (found: bool)
    ensures found == LoopDetected(me, r)
  {
    var p := 0;
    while p < |r.records|
      invariant 0 <= p <= |r.records| && me !in r.records[..p]
    {
      if r.records[p] == me {
        return true;
      }
      p := p + 1;
    }
    return false;
  }

  // ----- a network -----

  /** The tables of node i name other nodes, each under its own identity. */
  predicate TableOk(ids: seq<Id>, i: nat, t: Table) {
    forall id | id in t.peers :: var k := t.peers[id].node; k < |ids| && k != i && Fold(ids[k]) == id
  }

  predicate Distinct(ids: seq<Id>) {
    forall i, j | 0 <= i < j < |ids| :: ids[i] != ids[j]
  }

  /** A request at a node, with the tables the node has at that time. */
  datatype Hop = Hop(node: nat, table: Table, req: Request)

  /** A journey: from each hop to the next the request was forwarded.  Tables and connections may
      change arbitrarily between hops. */
  predicate Journey(ids: seq<Id>, hops: seq<Hop>) {
    && (forall k | 0 <= k < |hops| :: hops[k].node < |ids| && TableOk(ids, hops[k].node, hops[k].table))
    && (forall k | 0 <= k < |hops| - 1 :: Forwards(ids, hops[k], hops[k + 1]))
  }

  predicate Forwards(ids: seq<Id>, h: Hop, next: Hop)
    requires h.node < |ids|
  {
    match Decide(ids[h.node], h.table, h.req)
    case HostForward(n) => next.node == n && next.req == h.req
    case RealmForward(n, r) => next.node == n && next.req == r
    case _ => false
  }

  lemma OpenPeersAreOthers(ids: seq<Id>, i: nat, t: Table, id: Id)
    requires TableOk(ids, i, t) && OpenPeer(t, id).Some?
    ensures var k := OpenPeer(t, id).value; k < |ids| && k != i && Fold(ids[k]) == Fold(id)
  {
  }

  lemma {:induction false} FirstOpenIsOther(ids: seq<Id>, i: nat, t: Table, servers: seq<Id>)
    requires TableOk(ids, i, t) && FirstOpen(t, servers).Some?
    ensures FirstOpen(t, servers).value != i
  {
    if OpenPeer(t, servers[0]).None? {
      FirstOpenIsOther(ids, i, t, servers[1..]);
    }
  }

  /** A hop by Destination-Host is the last: the node it reaches is the one addressed. */
  lemma HostForwardIsLast(ids: seq<Id>, h: Hop, next: Hop)
    requires h.node < |ids| && TableOk(ids, h.node, h.table) && next.node < |ids|
    requires Forwards(ids, h, next) && Decide(ids[h.node], h.table, h.req).HostForward?
    ensures Decide(ids[next.node], next.table, next.req) == Deliver
  {
    OpenPeersAreOthers(ids, h.node, h.table, h.req.destHost.value);
  }

  /** The nodes that can still append a Route-Record. */
  function Unrecorded(ids: seq<Id>, r: Request): set<nat> {
    set i: nat | i < |ids| && ids[i] !in r.records && !IsOrigin(ids[i], r)
  }

  predicate HasOrigin(ids: seq<Id>, r: Request) {
    exists i | 0 <= i < |ids| :: IsOrigin(ids[i], r)
  }

  /** How many realm forwards are still possible: the origin may forward between any two others. */
  function Rank(ids: seq<Id>, node: nat, r: Request): nat
    requires node < |ids|
  {
    if HasOrigin(ids, r) then 2 * |Unrecorded(ids, r)| + (if IsOrigin(ids[node], r) then 1 else 0)
    else |Unrecorded(ids, r)|
  }

  lemma RealmForwardDescends(ids: seq<Id>, h: Hop, next: Hop)
    requires Distinct(ids) && h.node < |ids| && next.node < |ids| && TableOk(ids, h.node, h.table)
    requires Forwards(ids, h, next) && Decide(ids[h.node], h.table, h.req).RealmForward?
    ensures Rank(ids, next.node, next.req) < Rank(ids, h.node, h.req)
  {
    var me := ids[h.node];
    assert next.node != h.node by {
      var route := RouteOf(h.table, h.req.destRealm.value).value;
      FirstOpenIsOther(ids, h.node, h.table, ServersOf(route, h.req).value);
    }
    if IsOrigin(me, h.req) {
      assert next.req == h.req && HasOrigin(ids, h.req);
      assert ids[next.node] != me;
    } else {
      assert Unrecorded(ids, next.req) == Unrecorded(ids, h.req) - {h.node};
      assert h.node in Unrecorded(ids, h.req);
    }
  }

  lemma {:induction false} IndicesCount(n: nat) returns (all: set<nat>)
    ensures (forall i: nat :: i in all <==> i < n) && |all| == n
  {
    if n == 0 {
      all := {};
    } else {
      var fewer := IndicesCount(n - 1);
      all := fewer + {n - 1};
    }
  }

  lemma RankBound(ids: seq<Id>, node: nat, r: Request)
    requires node < |ids|
    ensures Rank(ids, node, r) < 2 * |ids|
  {
    var all := IndicesCount(|ids|);
    if HasOrigin(ids, r) {
      var o :| 0 <= o < |ids| && IsOrigin(ids[o], r);
      SubsetSize(Unrecorded(ids, r), all - {o});
    } else {
      SubsetSize(Unrecorded(ids, r), all);
    }
  }

  lemma SubsetSize(a: set<nat>, b: set<nat>)
    requires a <= b
    ensures |a| <= |b|
  {
    assert b == a + (b - a);
  }

  lemma {:induction false} JourneyLength(ids: seq<Id>, hops: seq<Hop>)
    requires Distinct(ids) && Journey(ids, hops) && hops != []
    ensures |hops| - 1 <= Rank(ids, hops[0].node, hops[0].req) + 1
    decreases |hops|
  {
    if |hops| > 1 {
      var rest := hops[1..];
      assert Journey(ids, rest) by {
        forall k | 0 <= k < |rest| - 1 ensures Forwards(ids, rest[k], rest[k + 1]) {
          assert Forwards(ids, hops[k + 1], hops[k + 2]);
        }
      }
      assert Forwards(ids, hops[0], hops[1]);
      assert |hops| > 2 ==> Forwards(ids, hops[1], hops[2]);
      if Decide(ids[hops[0].node], hops[0].table, hops[0].req).HostForward? {
        HostForwardIsLast(ids, hops[0], hops[1]);
      } else {
        RealmForwardDescends(ids, hops[0], hops[1]);
        JourneyLength(ids, rest);
      }
    }
  }

  /** In a network of n nodes with distinct identities, whatever the tables say and however they
      change, a request is forwarded at most 2n times. */
  lemma RequestsStop(ids: seq<Id>, hops: seq<Hop>)
    requires Distinct(ids) && Journey(ids, hops) && hops != []
    ensures |hops| - 1 <= 2 * |ids|
  {
    JourneyLength(ids, hops);
    RankBound(ids, hops[0].node, hops[0].req);
  }

  /** Route-Records are never dropped. */
  lemma {:induction false} RecordsStay(ids: seq<Id>, hops: seq<Hop>, k: nat, l: nat, id: Id)
    requires Journey(ids, hops) && k <= l < |hops| && id in hops[k].req.records
    ensures id in hops[l].req.records
    decreases l
  {
    if k < l {
      RecordsStay(ids, hops, k, l - 1, id);
      assert Forwards(ids, hops[l - 1], hops[l]);
    }
  }

  lemma {:induction false} OriginStays(ids: seq<Id>, hops: seq<Hop>, k: nat, l: nat)
    requires Journey(ids, hops) && k <= l < |hops|
    ensures hops[l].req.originHost == hops[k].req.originHost
    decreases l
  {
    if k < l {
      OriginStays(ids, hops, k, l - 1);
      assert Forwards(ids, hops[l - 1], hops[l]);
    }
  }

  /** Once a node that did not originate a request has routed it by realm, it never forwards it again,
      neither by realm nor by host. */
  lemma ForwardsOnce(ids: seq<Id>, hops: seq<Hop>, k: nat, l: nat)
    requires Journey(ids, hops) && k < l < |hops| && hops[k].node == hops[l].node
    requires !IsOrigin(ids[hops[k].node], hops[k].req)
    requires Decide(ids[hops[k].node], hops[k].table, hops[k].req).RealmForward?
    ensures var d := Decide(ids[hops[l].node], hops[l].table, hops[l].req); d == Deliver || d == Stop
  {
    var me := ids[hops[k].node];
    assert Forwards(ids, hops[k], hops[k + 1]);
    assert hops[k + 1].req.records == hops[k].req.records + [me];
    RecordsStay(ids, hops, k + 1, l, me);
    OriginStays(ids, hops, k, l);
  }

  // ----- who can forward a request twice -----

  predicate Addressed(id: Id, r: Request) {
    r.destHost.Some? && Fold(r.destHost.value) == Fold(id)
  }

  /** On some journey node i forwards request r and later, at hop l, forwards it again. */
  predicate ForwardedAgain(ids: seq<Id>, i: nat, r: Request, hops: seq<Hop>, l: nat) {
    && Journey(ids, hops) && 0 < l < |hops| - 1
    && hops[0].node == hops[l].node == i && hops[0].req == r
  }

  ghost predicate ForwardsTwice(ids: seq<Id>, i: nat, r: Request) {
    exists hops, l: nat :: ForwardedAgain(ids, i, r, hops, l)
  }

  /** A node that neither the request names nor its Route-Records. */
  predicate Passable(ids: seq<Id>, j: nat, r: Request)
    requires j < |ids|
  {
    ids[j] !in r.records && !Addressed(ids[j], r)
  }

  ghost predicate CanReturn(ids: seq<Id>, i: nat, r: Request) {
    exists j: nat :: j < |ids| && j != i && Passable(ids, j, r)
  }

  /** What a forward takes: neither node that forwards by realm is addressed, and only the origin does so
      in spite of its Route-Record. */
  lemma RealmForwardNeeds(ids: seq<Id>, h: Hop, next: Hop)
    requires h.node < |ids| && TableOk(ids, h.node, h.table)
    requires Forwards(ids, h, next) && Decide(ids[h.node], h.table, h.req).RealmForward?
    ensures h.req.destRealm.Some? && !Addressed(ids[h.node], h.req) && next.node != h.node
    ensures IsOrigin(ids[h.node], h.req) ==> next.req == h.req
    ensures !IsOrigin(ids[h.node], h.req) ==> ids[h.node] !in h.req.records
  {
    var route := RouteOf(h.table, h.req.destRealm.value).value;
    FirstOpenIsOther(ids, h.node, h.table, ServersOf(route, h.req).value);
  }

  /** A forward that is followed by another one is by realm. */
  lemma NotLastMeansRealm(ids: seq<Id>, hops: seq<Hop>, k: nat)
    requires Journey(ids, hops) && k + 2 < |hops|
    ensures Decide(ids[hops[k].node], hops[k].table, hops[k].req).RealmForward?
  {
    assert Forwards(ids, hops[k], hops[k + 1]) && Forwards(ids, hops[k + 1], hops[k + 2]);
    if Decide(ids[hops[k].node], hops[k].table, hops[k].req).HostForward? {
      HostForwardIsLast(ids, hops[k], hops[k + 1]);
    }
  }

  lemma TwiceNeeds(ids: seq<Id>, i: nat, r: Request, hops: seq<Hop>, l: nat)
    requires Distinct(ids) && i < |ids| && ForwardedAgain(ids, i, r, hops, l)
    ensures IsOrigin(ids[i], r) && r.destRealm.Some? && !Addressed(ids[i], r) && CanReturn(ids, i, r)
  {
    hide Decide;
    NotLastMeansRealm(ids, hops, 0);
    assert Forwards(ids, hops[0], hops[1]) && Forwards(ids, hops[l], hops[l + 1]);
    RealmForwardNeeds(ids, hops[0], hops[1]);
    if !IsOrigin(ids[i], r) {
      ForwardsOnce(ids, hops, 0, l);
    }
    var j := hops[1].node;
    NotLastMeansRealm(ids, hops, 1);
    assert Forwards(ids, hops[1], hops[2]);
    RealmForwardNeeds(ids, hops[1], hops[2]);
    assert !IsOrigin(ids[j], r);
    assert Passable(ids, j, r);
  }

  /** A table that routes the request's realm to node k alone. */
  function Relaying(ids: seq<Id>, k: nat, r: Request): Table
    requires k < |ids| && r.destRealm.Some?
  {
    Table("", {}, map[Fold(ids[k]) := Peer(k, true)],
          map[Fold(r.destRealm.value) := Route(Relay, map[(r.appId, 0) := [ids[k]]])], None)
  }

  lemma RelaysOn(ids: seq<Id>, i: nat, k: nat, r: Request)
    requires i < |ids| && k < |ids| && i != k && r.destRealm.Some?
    requires !Addressed(ids[i], r) && !Addressed(ids[k], r)
    ensures Decide(ids[i], Relaying(ids, k, r), r) == Relayed(ids[i], k, r)
    ensures TableOk(ids, i, Relaying(ids, k, r))
  {
    var t := Relaying(ids, k, r);
    assert OpenPeer(t, ids[k]) == Some(k);
    assert FirstOpen(t, [ids[k]]) == Some(k);
  }

  lemma TwiceIsPossible(ids: seq<Id>, i: nat, j: nat, r: Request)
    requires Distinct(ids) && i < |ids| && j < |ids| && i != j
    requires IsOrigin(ids[i], r) && r.destRealm.Some? && !Addressed(ids[i], r) && Passable(ids, j, r)
    ensures ForwardsTwice(ids, i, r)
  {
    hide Decide, Fold;
    var back := r.(records := r.records + [ids[j]]);
    var out, home := Relaying(ids, j, r), Relaying(ids, i, r);
    var hops := [Hop(i, out, r), Hop(j, home, r), Hop(i, out, back), Hop(j, home, back)];
    assert Relaying(ids, j, back) == out;
    assert ids[i] != ids[j];
    RelaysOn(ids, i, j, r);
    RelaysOn(ids, j, i, r);
    RelaysOn(ids, i, j, back);
    assert Forwards(ids, hops[0], hops[1]) && Forwards(ids, hops[1], hops[2]) && Forwards(ids, hops[2], hops[3]);
    assert ForwardedAgain(ids, i, r, hops, 2);
  }

  /** A node can forward a request twice if and only if it is the request's origin, the request names a
      realm but not the node, and some other node is named neither by the request nor by its
      Route-Records. */
  lemma OriginForwardsTwice(ids: seq<Id>, i: nat, r: Request)
    requires Distinct(ids) && i < |ids|
    ensures ForwardsTwice(ids, i, r) <==>
              IsOrigin(ids[i], r) && r.destRealm.Some? && !Addressed(ids[i], r) && CanReturn(ids, i, r)
  {
    if ForwardsTwice(ids, i, r) {
      var hops, l: nat :| ForwardedAgain(ids, i, r, hops, l);
      TwiceNeeds(ids, i, r, hops, l);
    }
    if IsOrigin(ids[i], r) && r.destRealm.Some? && !Addressed(ids[i], r) && CanReturn(ids, i, r) {
      var j: nat :| j < |ids| && j != i && Passable(ids, j, r);
      TwiceIsPossible(ids, i, j, r);
    }
  }
}
