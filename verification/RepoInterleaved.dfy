/** Repository calls taken apart: between the steps of one call others run.

    A load reads the table and fills the cache later; entries are deleted at any
    time (the invalidation of a write, or an eviction); tables change in
    transactions, of this repository or past it. The question is which changes
    keep the reads exact. How old a read can get is in `RepoSlowLoads`. */
module RepoInterleaved {
  import opened Base
  import opened Tables
  import opened RepoCache
  import RepoCoherence
  import RepoEndpoints

  /** What each name is used for. */
  datatype Names = Names(dids: iset<string>, uids: iset<string>, verkeys: iset<string>, routes: iset<string>)

  ghost predicate Disjoint(n: Names) {
    n.dids !! n.verkeys && n.uids !! n.verkeys && n.uids !! n.routes && n.verkeys !! n.routes
  }

  /** Every routing key belongs to a uid, and there is no empty uid. */
  ghost predicate KeysNamed(t: Tables, n: Names) {
    "" !in n.uids && forall i :: 0 <= i < |t.routingKeys| ==> t.routingKeys[i].uid in n.uids
  }

  /** The endpoint a routing key leads to by the tables alone. */
  function RouteRow(t: Tables, route: string): Option<Endpoint> {
    var owner := OwnerOf(t.routingKeys, route);
    if owner.None? || owner.value == "" then None else EndpointAt(t, owner.value)
  }

  function AgentValue(a: Option<Agent>): Option<Value> {
    if a.Some? then Some(OfAgent(a.value)) else None
  }

  function EndpointValue(e: Option<Endpoint>): Option<Value> {
    if e.Some? then Some(OfEndpoint(e.value)) else None
  }

  /** What a load of this key would read from the tables and cache. */
  ghost function Truth(t: Tables, n: Names, k: Key): Option<Value> {
    match k.space
    case Agents =>
      if k.name in n.dids then AgentValue(AgentAt(t, k.name))
      else if k.name in n.verkeys then AgentValue(AgentByVerkey(t, k.name))
      else None
    case Endpoints =>
      if k.name in n.uids then EndpointValue(EndpointAt(t, k.name))
      else if k.name in n.verkeys then EndpointValue(EndpointByVerkey(t, k.name))
      else if k.name in n.routes then EndpointValue(RouteRow(t, k.name))
      else None
    case RoutingKeys => Some(OfKeys(KeysOf(t.routingKeys, k.name)))
    case GlobalSettings => Some(OfSetting(SettingAt(t, k.name)))
    case _ => None
  }

  predicate Readable(k: Key) {
    k.space != AgentsVerkeys && k.space != EndpointsVerkeys
  }

  ghost predicate IsRoute(n: Names, k: Key) {
    k.space == Endpoints && k.name in n.routes
  }

  // ------------------------------------------------------------------- events

  /** A load under way: with what it is going to cache, or, for a routing key, with
      the owner it has found; and since when. */
  datatype Flight =
    | Carrying(k: Key, value: Value, at: int)
    | Seeking(route: string, uid: string, at: int)

  datatype World = World(s: State, flights: map<nat, Flight>)

  datatype Event =
    | Reads(l: nat, key: Key)                  // the table is read for a key; what is never a hit is not carried
    | FindsOwner(l: nat, route: string)        // a routing key's owner is read
    | TakesRow(l: nat)                         // and its row, cached or not
    | Fills(l: nat)
    | GivesUp(l: nat)                          // the load is over, nothing was cached
    | Indexes(space: Space, name: string, verkey: string)
    | Loses(key: Key)
    | Changes(tables: Tables)
    | Passes(d: nat)

  ghost function Happen(w: World, n: Names, e: Event): World {
    match e
    case Reads(l, k) =>
      var v := Truth(w.s.tables, n, k);
      if v.Some? && Truthy(v.value) && !IsRoute(n, k) then w.(flights := w.flights[l := Carrying(k, v.value, w.s.now)])
      else w
    case FindsOwner(l, route) =>
      var owner := OwnerOf(w.s.tables.routingKeys, route);
      if owner.Some? && owner.value != "" && route in n.routes then
        w.(flights := w.flights[l := Seeking(route, owner.value, w.s.now)])
      else w
    case TakesRow(l) =>
      if l in w.flights && w.flights[l].Seeking? then
        var row := LoadEndpoint(w.s, w.flights[l].uid).1;
        if row.Some? then w.(flights := w.flights[l := Taken(w.flights[l], row.value)])
        else w.(flights := w.flights - {l})
      else w
    case Fills(l) =>
      if l in w.flights && w.flights[l].Carrying? then
        World(Put(w.s, w.flights[l].k, w.flights[l].value), w.flights - {l})
      else w
    case GivesUp(l) => w.(flights := w.flights - {l})
    case Indexes(space, name, verkey) =>
      if space == AgentsVerkeys || space == EndpointsVerkeys then w.(s := Put(w.s, Key(space, name), OfVerkey(verkey)))
      else w
    case Loses(k) => w.(s := Drop(w.s, k))
    case Changes(t) => w.(s := w.s.(tables := t))
    case Passes(d) => w.(s := w.s.(now := w.s.now + d))
  }

  function Taken(f: Flight, row: Endpoint): Flight
    requires f.Seeking?
  {
    Carrying(Key(Endpoints, f.route), OfEndpoint(row), f.at)
  }

  ghost function Course(w: World, n: Names, es: seq<Event>): World
    decreases |es|
  {
    if es == [] then w else Course(Happen(w, n, es[0]), n, es[1..])
  }

  // -------------------------------------------------------------- exact reads

  ghost predicate EntryCurrent(s: State, n: Names, k: Key) {
    Readable(k) && Get(s, k).Some? ==> Get(s, k) == Truth(s.tables, n, k)
  }

  ghost predicate FlightCurrent(t: Tables, n: Names, f: Flight) {
    match f
    case Carrying(k, v, _) => Readable(k) && Truthy(v) && Truth(t, n, k) == Some(v)
    case Seeking(route, uid, _) =>
      && route in n.routes && uid in n.uids
      && (EndpointAt(t, uid).Some? ==> RouteRow(t, route) == EndpointAt(t, uid))
  }

  /** Everything cached or about to be cached is current. */
  ghost predicate AllCurrent(w: World, n: Names) {
    && Disjoint(n) && KeysNamed(w.s.tables, n)
    && (forall k :: EntryCurrent(w.s, n, k))
    && (forall l :: l in w.flights ==> FlightCurrent(w.s.tables, n, w.flights[l]))
  }

  /** All reads of the repository answer what the tables say. */
  ghost predicate ReadsExact(s: State, n: Names) {
    && (forall d :: d in n.dids ==> LoadAgent(s, d).1 == AgentAt(s.tables, d))
    && (forall v :: v in n.verkeys ==> LoadAgentViaVerkey(s, v).1 == AgentByVerkey(s.tables, v))
    && (forall u :: u in n.uids ==> LoadEndpoint(s, u).1 == EndpointAt(s.tables, u))
    && (forall v :: v in n.verkeys ==> LoadEndpointViaVerkey(s, v).1 == EndpointByVerkey(s.tables, v))
    && (forall r :: r in n.routes ==> LoadEndpointViaRoutingKey(s, r).1 == RouteRow(s.tables, r))
    && (forall u :: ListKeys(s, u).1 == KeysOf(s.tables.routingKeys, u))
    && (forall name :: GetSetting(s, name).1 == SettingAt(s.tables, name))
  }

  lemma EmptyCacheCurrent(t: Tables, now: int, n: Names)
    requires Disjoint(n) && KeysNamed(t, n)
    ensures AllCurrent(World(State(t, map[], now), map[]), n)
  {
  }

  lemma RouteReadExact(s: State, n: Names, route: string)
    requires Disjoint(n) && KeysNamed(s.tables, n) && route in n.routes && forall k :: EntryCurrent(s, n, k)
    ensures LoadEndpointViaRoutingKey(s, route).1 == RouteRow(s.tables, route)
  {
    assert EntryCurrent(s, n, Key(Endpoints, route));
    var owner := OwnerOf(s.tables.routingKeys, route);
    if owner.Some? {
      RepoEndpoints.OwnerIsRow(s.tables.routingKeys, route);
      assert EntryCurrent(s, n, Key(Endpoints, owner.value));
    }
  }

  lemma CurrentReads(w: World, n: Names)
    requires AllCurrent(w, n)
    ensures ReadsExact(w.s, n)
  {
    var s := w.s;
    forall d | d in n.dids ensures LoadAgent(s, d).1 == AgentAt(s.tables, d) {
      assert EntryCurrent(s, n, Key(Agents, d));
    }
    forall v | v in n.verkeys
      ensures LoadAgentViaVerkey(s, v).1 == AgentByVerkey(s.tables, v)
      ensures LoadEndpointViaVerkey(s, v).1 == EndpointByVerkey(s.tables, v) {
      assert EntryCurrent(s, n, Key(Agents, v)) && EntryCurrent(s, n, Key(Endpoints, v));
    }
    forall u | u in n.uids ensures LoadEndpoint(s, u).1 == EndpointAt(s.tables, u) {
      assert EntryCurrent(s, n, Key(Endpoints, u));
    }
    forall r | r in n.routes ensures LoadEndpointViaRoutingKey(s, r).1 == RouteRow(s.tables, r) {
      RouteReadExact(s, n, r);
    }
    forall u ensures ListKeys(s, u).1 == KeysOf(s.tables.routingKeys, u) {
      assert EntryCurrent(s, n, Key(RoutingKeys, u));
    }
    forall name ensures GetSetting(s, name).1 == SettingAt(s.tables, name) {
      assert EntryCurrent(s, n, Key(GlobalSettings, name));
    }
  }

  /** There is a copy of what the key stands for: cached, or read and not cached yet. */
  ghost predicate Copied(w: World, k: Key) {
    Get(w.s, k).Some? || exists l :: l in w.flights && w.flights[l].Carrying? && w.flights[l].k == k
  }

  /** The change alters nothing of which there is a copy, and misleads no load that
      has found a routing key's owner. */
  ghost predicate Clean(w: World, n: Names, t: Tables) {
    && (forall k :: Readable(k) && Truth(t, n, k) != Truth(w.s.tables, n, k) ==> !Copied(w, k))
    && (forall l :: l in w.flights && w.flights[l].Seeking? ==> FlightCurrent(t, n, w.flights[l]))
  }

  lemma CleanChangeKeeps(w: World, n: Names, t: Tables)
    requires AllCurrent(w, n) && Clean(w, n, t) && KeysNamed(t, n)
    ensures AllCurrent(Happen(w, n, Changes(t)), n)
  {
    var w1 := Happen(w, n, Changes(t));
    forall k ensures EntryCurrent(w1.s, n, k) {
      assert EntryCurrent(w.s, n, k);
      if Get(w1.s, k).Some? { assert Copied(w, k); }
    }
    forall l | l in w1.flights ensures FlightCurrent(t, n, w1.flights[l]) {
      assert FlightCurrent(w.s.tables, n, w.flights[l]);
      if w.flights[l].Carrying? { assert Copied(w, w.flights[l].k); }
    }
  }

  lemma FillKeeps(w: World, n: Names, l: nat)
    requires AllCurrent(w, n)
    ensures AllCurrent(Happen(w, n, Fills(l)), n)
  {
    forall k ensures EntryCurrent(Happen(w, n, Fills(l)).s, n, k) {
      assert EntryCurrent(w.s, n, k);
      if l in w.flights { assert FlightCurrent(w.s.tables, n, w.flights[l]); }
    }
  }

  lemma ReadKeeps(w: World, n: Names, e: Event)
    requires AllCurrent(w, n) && (e.Reads? || e.FindsOwner? || e.TakesRow?) && (e.Reads? ==> Readable(e.key))
    ensures AllCurrent(Happen(w, n, e), n)
  {
    match e
    case Reads(_, _) =>
    case FindsOwner(_, route) => RepoEndpoints.OwnerIsRow(w.s.tables.routingKeys, route);
    case TakesRow(l) =>
      if l in w.flights && w.flights[l].Seeking? {
        assert FlightCurrent(w.s.tables, n, w.flights[l]);
        assert EntryCurrent(w.s, n, Key(Endpoints, w.flights[l].uid));
      }
  }

  lemma CacheStepKeeps(w: World, n: Names, e: Event)
    requires AllCurrent(w, n) && (e.Indexes? || e.Loses? || e.Passes? || e.GivesUp?)
    ensures AllCurrent(Happen(w, n, e), n)
  {
    forall k ensures EntryCurrent(Happen(w, n, e).s, n, k) {
      assert EntryCurrent(w.s, n, k);
    }
  }

  ghost predicate Fair(e: Event, n: Names) {
    (e.Reads? ==> Readable(e.key)) && (e.Changes? ==> KeysNamed(e.tables, n))
  }

  lemma OtherStepKeeps(w: World, n: Names, e: Event)
    requires AllCurrent(w, n) && !e.Changes? && Fair(e, n)
    ensures AllCurrent(Happen(w, n, e), n)
  {
    match e
    case Fills(l) => FillKeeps(w, n, l);
    case Reads(_, _) => ReadKeeps(w, n, e);
    case FindsOwner(_, _) => ReadKeeps(w, n, e);
    case TakesRow(_) => ReadKeeps(w, n, e);
    case _ => CacheStepKeeps(w, n, e);
  }

  ghost predicate CleanCourse(w: World, n: Names, es: seq<Event>)
    decreases |es|
  {
    if es == [] then true
    else
      && Fair(es[0], n) && (es[0].Changes? ==> Clean(w, n, es[0].tables))
      && CleanCourse(Happen(w, n, es[0]), n, es[1..])
  }

  lemma {:induction false} CourseKeeps(w: World, n: Names, es: seq<Event>)
    requires AllCurrent(w, n) && CleanCourse(w, n, es)
    ensures AllCurrent(Course(w, n, es), n)
    decreases |es|
  {
    if es != [] {
      if es[0].Changes? { CleanChangeKeeps(w, n, es[0].tables); } else { OtherStepKeeps(w, n, es[0]); }
      CourseKeeps(Happen(w, n, es[0]), n, es[1..]);
    }
  }

  /** Over every interleaving of the steps of loads, deletions and changes, with
      entries lost at any time, all reads stay exact if every change is clean. */
  lemma InterleavedReadsExact(w: World, n: Names, es: seq<Event>)
    requires AllCurrent(w, n) && CleanCourse(w, n, es)
    ensures ReadsExact(Course(w, n, es).s, n)
  {
    CourseKeeps(w, n, es);
    CurrentReads(Course(w, n, es), n);
  }

  // -------------------------------------------------------- unclean changes

  /** A value of the kind its key's loads cache. */
  ghost predicate Fitting(n: Names, k: Key, v: Value) {
    match k.space
    case Agents => v.OfAgent? && (k.name in n.dids || k.name in n.verkeys)
    case Endpoints => v.OfEndpoint? && (k.name in n.uids || k.name in n.verkeys || k.name in n.routes)
    case RoutingKeys => v.OfKeys?
    case GlobalSettings => v.OfSetting?
    case _ => false
  }

  lemma TruthFits(t: Tables, n: Names, k: Key)
    requires Truth(t, n, k).Some?
    ensures Fitting(n, k, Truth(t, n, k).value)
  {
  }

  /** A live entry that is not what the tables say is read as it is. */
  lemma StaleRead(s: State, n: Names, k: Key)
    requires Disjoint(n) && Get(s, k).Some? && Fitting(n, k, Get(s, k).value) && Get(s, k) != Truth(s.tables, n, k)
    ensures !ReadsExact(s, n)
  {
    match k.space
    case Agents =>
      if k.name in n.dids {
        assert LoadAgent(s, k.name).1 != AgentAt(s.tables, k.name);
      } else {
        assert LoadAgentViaVerkey(s, k.name).1 != AgentByVerkey(s.tables, k.name);
      }
    case Endpoints =>
      if k.name in n.uids {
        assert LoadEndpoint(s, k.name).1 != EndpointAt(s.tables, k.name);
      } else if k.name in n.verkeys {
        assert LoadEndpointViaVerkey(s, k.name).1 != EndpointByVerkey(s.tables, k.name);
      } else {
        assert LoadEndpointViaRoutingKey(s, k.name).1 != RouteRow(s.tables, k.name);
      }
    case RoutingKeys => assert ListKeys(s, k.name).1 != KeysOf(s.tables.routingKeys, k.name);
    case GlobalSettings => assert GetSetting(s, k.name).1 != SettingAt(s.tables, k.name);
  }

  /** A load that carries something else than the tables say, and fills. */
  lemma FillShows(w: World, n: Names, l: nat)
    requires Disjoint(n) && l in w.flights && w.flights[l].Carrying? && Truthy(w.flights[l].value)
    requires Fitting(n, w.flights[l].k, w.flights[l].value)
    requires Truth(w.s.tables, n, w.flights[l].k) != Some(w.flights[l].value)
    ensures !ReadsExact(Happen(w, n, Fills(l)).s, n)
  {
    var s1 := Happen(w, n, Fills(l)).s;
    assert Get(s1, w.flights[l].k) == Some(w.flights[l].value);
    StaleRead(s1, n, w.flights[l].k);
  }

  /** A load that has found an owner which the key no longer leads to. */
  lemma SeekerShows(w: World, n: Names, l: nat)
    requires Disjoint(n) && l in w.flights && w.flights[l].Seeking?
    requires w.flights[l].route in n.routes && w.flights[l].uid in n.uids
    requires !FlightCurrent(w.s.tables, n, w.flights[l])
    ensures !ReadsExact(w.s, n) || !ReadsExact(Happen(Happen(w, n, TakesRow(l)), n, Fills(l)).s, n)
  {
    var f := w.flights[l];
    if ReadsExact(w.s, n) {
      assert LoadEndpoint(w.s, f.uid).1 == EndpointAt(w.s.tables, f.uid);
      var w1 := Happen(w, n, TakesRow(l));
      assert w1.flights[l] == Taken(f, EndpointAt(w.s.tables, f.uid).value);
      FillShows(w1, n, l);
    }
  }

  lemma CopyShows(w: World, n: Names, t: Tables, k: Key) returns (es: seq<Event>)
    requires AllCurrent(w, n) && Readable(k) && Truth(t, n, k) != Truth(w.s.tables, n, k) && Copied(w, k)
    ensures NoChanges(es, n) && !ReadsExact(Course(Happen(w, n, Changes(t)), n, es).s, n)
  {
    var w1 := Happen(w, n, Changes(t));
    if Get(w.s, k).Some? {
      assert EntryCurrent(w.s, n, k);
      TruthFits(w.s.tables, n, k);
      StaleRead(w1.s, n, k);
      es := [];
    } else {
      var l :| l in w.flights && w.flights[l].Carrying? && w.flights[l].k == k;
      assert FlightCurrent(w.s.tables, n, w.flights[l]);
      TruthFits(w.s.tables, n, k);
      FillShows(w1, n, l);
      es := [Fills(l)];
      CourseOne(w1, n, Fills(l));
    }
  }

  /** The course that brings the harm of an unclean change to light. */
  lemma UncleanShows(w: World, n: Names, t: Tables) returns (es: seq<Event>)
    requires AllCurrent(w, n) && !Clean(w, n, t)
    ensures NoChanges(es, n) && !ReadsExact(Course(Happen(w, n, Changes(t)), n, es).s, n)
  {
    if k :| Readable(k) && Truth(t, n, k) != Truth(w.s.tables, n, k) && Copied(w, k) {
      es := CopyShows(w, n, t, k);
    } else {
      var w1 := Happen(w, n, Changes(t));
      var l :| l in w.flights && w.flights[l].Seeking? && !FlightCurrent(t, n, w.flights[l]);
      assert FlightCurrent(w.s.tables, n, w.flights[l]);
      SeekerShows(w1, n, l);
      if ReadsExact(w1.s, n) {
        es := [TakesRow(l), Fills(l)];
        CourseTwo(w1, n, TakesRow(l), Fills(l));
      } else {
        es := [];
      }
    }
  }

  lemma CourseOne(w: World, n: Names, e: Event)
    ensures Course(w, n, [e]) == Happen(w, n, e)
  {
    assert [e][1..] == [];
  }

  lemma CourseTwo(w: World, n: Names, e: Event, f: Event)
    ensures Course(w, n, [e, f]) == Happen(Happen(w, n, e), n, f)
  {
    assert [e, f][1..] == [f];
    CourseOne(Happen(w, n, e), n, f);
  }

  ghost predicate NoChanges(es: seq<Event>, n: Names) {
    forall i :: 0 <= i < |es| ==> !es[i].Changes? && Fair(es[i], n)
  }

  lemma {:induction false} NoChangesClean(w: World, n: Names, es: seq<Event>)
    requires NoChanges(es, n)
    ensures CleanCourse(w, n, es)
    decreases |es|
  {
    if es != [] {
      NoChangesClean(Happen(w, n, es[0]), n, es[1..]);
    }
  }

  /** Exactly the clean changes are harmless: through everything that can follow a
      change, other changes aside, all reads stay exact if and only if the change
      alters nothing of which a copy is cached or on its way to the cache, and
      misleads no load of a routing key. */
  lemma CleanChangeIff(w: World, n: Names, t: Tables)
    requires AllCurrent(w, n) && KeysNamed(t, n)
    ensures (forall es :: NoChanges(es, n) ==> ReadsExact(Course(Happen(w, n, Changes(t)), n, es).s, n))
            <==> Clean(w, n, t)
  {
    if Clean(w, n, t) {
      CleanChangeKeeps(w, n, t);
      forall es | NoChanges(es, n) ensures ReadsExact(Course(Happen(w, n, Changes(t)), n, es).s, n) {
        NoChangesClean(Happen(w, n, Changes(t)), n, es);
        InterleavedReadsExact(Happen(w, n, Changes(t)), n, es);
      }
    } else {
      var es := UncleanShows(w, n, t);
    }
  }

  // ------------------------------------------------------------ whole calls

  /** A load that nobody interrupts is the one of `RepoCache`: it reads the table, fills
      the cache and indexes the verkey. */
  lemma AgentLoadIsWhole(w: World, n: Names, l: nat, did: string)
    requires Disjoint(n) && did in n.dids && CachedAgent(w.s, did).None? && did in w.s.tables.agents
    requires w.s.tables.agents[did].did == did && w.s.tables.agents[did].verkey != "" && l !in w.flights
    ensures var w1 := Happen(Happen(w, n, Reads(l, Key(Agents, did))), n, Fills(l));
            Happen(w1, n, Indexes(AgentsVerkeys, did, w.s.tables.agents[did].verkey))
              == World(LoadAgent(w.s, did).0, w.flights)
  {
    var w0 := Happen(w, n, Reads(l, Key(Agents, did)));
    assert w0.flights == w.flights[l := Carrying(Key(Agents, did), OfAgent(w.s.tables.agents[did]), w.s.now)];
    assert w0.flights - {l} == w.flights;
  }

  lemma EndpointLoadIsWhole(w: World, n: Names, l: nat, uid: string)
    requires Disjoint(n) && uid in n.uids && CachedEndpoint(w.s, uid).None? && uid in w.s.tables.endpoints
    requires var row := w.s.tables.endpoints[uid]; row.uid == uid && row.verkey.Some? && row.verkey.value != ""
    requires l !in w.flights
    ensures var w1 := Happen(Happen(w, n, Reads(l, Key(Endpoints, uid))), n, Fills(l));
            Happen(w1, n, Indexes(EndpointsVerkeys, uid, w.s.tables.endpoints[uid].verkey.value))
              == World(LoadEndpoint(w.s, uid).0, w.flights)
  {
    var w0 := Happen(w, n, Reads(l, Key(Endpoints, uid)));
    assert w0.flights == w.flights[l := Carrying(Key(Endpoints, uid), OfEndpoint(w.s.tables.endpoints[uid]), w.s.now)];
    assert w0.flights - {l} == w.flights;
  }

  /** So is the load behind a routing key, once its row's own load is over. */
  lemma RouteLoadIsWhole(w: World, n: Names, l: nat, route: string)
    requires Disjoint(n) && route in n.routes && CachedEndpoint(w.s, route).None? && l !in w.flights
    requires var owner := OwnerOf(w.s.tables.routingKeys, route);
             owner.Some? && owner.value != "" && CachedEndpoint(w.s, owner.value).Some?
    ensures Happen(Happen(Happen(w, n, FindsOwner(l, route)), n, TakesRow(l)), n, Fills(l))
              == World(LoadEndpointViaRoutingKey(w.s, route).0, w.flights)
  {
    var uid := OwnerOf(w.s.tables.routingKeys, route).value;
    var row := CachedEndpoint(w.s, uid).value;
    var w0 := Happen(w, n, FindsOwner(l, route));
    assert w0 == w.(flights := w.flights[l := Seeking(route, uid, w.s.now)]);
    var w1 := Happen(w0, n, TakesRow(l));
    assert w1.flights == w.flights[l := Carrying(Key(Endpoints, route), OfEndpoint(row), w.s.now)];
    assert w1.flights - {l} == w.flights;
  }

  /** A call of `ensure_agent_exists` that runs on its own, without a takeover and
      with no load under way, writes cleanly: its invalidation leaves no copy. */
  lemma CallWritesCleanly(s: State, did: string, verkey: string, metadata: Option<Json>, fcm: Option<string>,
                          newId: string, n: Names)
    requires RepoCoherence.Coherent(s, RepoCoherence.Names(n.dids, n.verkeys)) && did in n.dids && verkey in n.verkeys
    requires AgentRivals(s.tables, did, verkey) == {}
    requires OnlyAgents(s)
    ensures Clean(World(Invalidate(s, Key(Agents, did), did), map[]), n,
                  EnsureAgent(s.tables, did, verkey, metadata, fcm, newId))
  {
    var m := RepoCoherence.Names(n.dids, n.verkeys);
    var s1 := Invalidate(s, Key(Agents, did), did);
    var t := EnsureAgent(s.tables, did, verkey, metadata, fcm, newId);
    RepoCoherence.InvalidateAgent(s, did, m);
    EnsureAgentKeeps(s.tables, did, verkey, metadata, fcm, newId);
    assert s.tables.agents - {} == s.tables.agents;
    StillOnlyAgents(s, did);
    forall k | Readable(k) && Truth(t, n, k) != Truth(s1.tables, n, k) ensures Get(s1, k).None? {
      AgentKeyChanges(s1, t, did, n, k);
    }
  }

  /** The agents' name space holds agents. */
  ghost predicate OnlyAgents(s: State) {
    forall name :: Get(s, Key(Agents, name)).Some? ==> Get(s, Key(Agents, name)).value.OfAgent?
  }

  lemma SameHolder(t: Tables, t1: Tables, verkey: string)
    requires WellFormed(t) && WellFormed(t1) && t1.endpoints == t.endpoints && verkey != ""
    ensures EndpointByVerkey(t1, verkey) == EndpointByVerkey(t, verkey)
  {
    if u :| EndpointHolds(t, u, verkey) {
      EndpointByVerkeyIs(t, u, verkey);
      EndpointByVerkeyIs(t1, u, verkey);
    } else {
      assert forall u :: EndpointHolds(t1, u, verkey) ==> EndpointHolds(t, u, verkey);
    }
  }

  lemma StillOnlyAgents(s: State, did: string)
    requires OnlyAgents(s)
    ensures OnlyAgents(Invalidate(s, Key(Agents, did), did))
  {
    var s1 := Invalidate(s, Key(Agents, did), did);
    assert forall name :: Get(s1, Key(Agents, name)).Some? ==> Get(s1, Key(Agents, name)) == Get(s, Key(Agents, name));
  }

  /** Where the change of one agent's row is visible, nothing is cached. */
  lemma AgentKeyChanges(s: State, t: Tables, did: string, n: Names, k: Key)
    requires RepoCoherence.Coherent(s, RepoCoherence.Names(n.dids, n.verkeys)) && WellFormed(t)
    requires t == s.tables.(agents := t.agents) && forall d :: d != did ==> AgentAt(t, d) == AgentAt(s.tables, d)
    requires RepoCoherence.DidSlotOk(s, did) && Get(s, Key(Agents, did)).None?
    requires forall v :: v in n.verkeys && CachedAgent(s, v).Some? ==> CachedAgent(s, v).value.did != did
    requires OnlyAgents(s) && Readable(k) && Truth(t, n, k) != Truth(s.tables, n, k)
    ensures Get(s, k).None?
  {
    if k.space == Endpoints && k.name != "" {
      SameHolder(s.tables, t, k.name);
    }
    assert k.space == Agents && k == Key(Agents, k.name);
    if k.name in n.verkeys && k.name !in n.dids {
      assert Get(s, Key(Agents, k.name)).Some? ==> CachedAgent(s, k.name).Some?;
      assert RepoCoherence.VerkeySlotOk(s, k.name);
      if CachedAgent(s, k.name).Some? {
        var a := CachedAgent(s, k.name).value;
        assert AgentAt(t, a.did) == Some(a);
        AgentByVerkeyIs(s.tables, a.did);
        AgentByVerkeyIs(t, a.did);
      }
    }
  }

  /** A load that overlaps a change: it reads the old row, the change invalidates and
      commits, and the load caches the old row after all. */
  lemma OverlapGoesStale(w: World, n: Names, l: nat, did: string, t: Tables)
    requires Disjoint(n) && did in n.dids && did in w.s.tables.agents && AgentAt(t, did) != AgentAt(w.s.tables, did)
    ensures var w0 := Happen(w, n, Reads(l, Key(Agents, did)));
            var w1 := Happen(Happen(w0, n, Loses(Key(Agents, did))), n, Changes(t));
            !ReadsExact(Happen(w1, n, Fills(l)).s, n)
  {
    var w1 := Happen(Happen(Happen(w, n, Reads(l, Key(Agents, did))), n, Loses(Key(Agents, did))), n, Changes(t));
    assert w1.flights[l] == Carrying(Key(Agents, did), OfAgent(w.s.tables.agents[did]), w.s.now);
    FillShows(w1, n, l);
  }
}
