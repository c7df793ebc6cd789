/** How old endpoint reads get, by uid, by verkey and by routing key, as long as
    calls run one at a time. What a slow load adds is in `RepoSlowLoads`.

    Endpoints cached by uid, by verkey and by routing key share one name space,
    and a verkey's entry is not invalidated when its endpoint changes, because
    the write consults the agents' reverse index. */
module RepoEndpoints {
  import opened Base
  import opened Tables
  import opened RepoCache

  /** What each name is used for; the three uses do not overlap. */
  datatype Names = Names(uids: iset<string>, verkeys: iset<string>, routes: iset<string>)

  ghost predicate Disjoint(n: Names) {
    n.uids !! n.verkeys && n.uids !! n.routes && n.verkeys !! n.routes && "" !in n.verkeys
  }

  ghost predicate Named(op: Op, n: Names) {
    match op
    case EnsureEndpointOp(uid, _, _, _, _) => uid in n.uids
    case LoadEndpointOp(uid) => uid in n.uids
    case LoadEndpointViaVerkeyOp(verkey) => verkey in n.verkeys
    case LoadEndpointViaRoutingKeyOp(key) => key in n.routes
    case AddKeyOp(uid, key) => uid in n.uids && key in n.routes
    case _ => true
  }

  /** Every key belongs to a uid. */
  ghost predicate RowsNamed(t: Tables, n: Names) {
    && (forall u :: u in t.endpoints ==> u in n.uids)
    && (forall i :: 0 <= i < |t.routingKeys| ==> t.routingKeys[i].uid in n.uids)
  }

  lemma {:induction false} OwnerIsRow(rows: seq<RoutingKey>, key: string)
    ensures OwnerOf(rows, key).Some? ==>
              exists i :: 0 <= i < |rows| && rows[i].key == key && rows[i].uid == OwnerOf(rows, key).value
  {
    if rows != [] && rows[0].key != key {
      OwnerIsRow(rows[1..], key);
      if OwnerOf(rows[1..], key).Some? {
        var i :| 0 <= i < |rows[1..]| && rows[1..][i].key == key && rows[1..][i].uid == OwnerOf(rows[1..], key).value;
        assert rows[i + 1].key == key;
      }
    }
  }

  lemma {:induction false} WithoutIsSubset(rows: seq<RoutingKey>, uid: string, key: string, us: iset<string>)
    requires forall i :: 0 <= i < |rows| ==> rows[i].uid in us
    ensures forall i :: 0 <= i < |KeysWithout(rows, uid, key)| ==> KeysWithout(rows, uid, key)[i].uid in us
  {
    if rows != [] {
      WithoutIsSubset(rows[1..], uid, key, us);
    }
  }

  lemma StepNamed(s: State, op: Op, n: Names)
    requires RowsNamed(s.tables, n) && Named(op, n)
    ensures RowsNamed(Step(s, op).tables, n)
  {
    if op.RemoveKeyOp? {
      WithoutIsSubset(s.tables.routingKeys, op.uid, op.key, n.uids);
    }
  }

  // ------------------------------------------------------------ time and past

  datatype Snapshot = Snapshot(now: int, tables: Tables)

  /** The repository with every table it had before the current one. */
  datatype World = World(s: State, past: seq<Snapshot>)

  ghost function Next(w: World, op: Op): World {
    World(Step(w.s, op), w.past + [Snapshot(w.s.now, w.s.tables)])
  }

  ghost function Play(w: World, ops: seq<Op>): World
    decreases |ops|
  {
    if ops == [] then w else Play(Next(w, ops[0]), ops[1..])
  }

  ghost predicate AllNamed(ops: seq<Op>, n: Names) {
    forall i :: 0 <= i < |ops| ==> Named(ops[i], n)
  }

  /** At some snapshot taken after `lo` and not after `hi`, `uid` had this row. */
  ghost predicate RowSeen(past: seq<Snapshot>, lo: int, hi: int, uid: string, row: Endpoint) {
    exists i :: 0 <= i < |past| && lo < past[i].now <= hi && EndpointAt(past[i].tables, uid) == Some(row)
  }

  ghost predicate VerkeySeen(past: seq<Snapshot>, lo: int, hi: int, verkey: string, row: Endpoint) {
    exists i :: 0 <= i < |past| && lo < past[i].now <= hi && EndpointByVerkey(past[i].tables, verkey) == Some(row)
  }

  ghost predicate OwnerSeen(past: seq<Snapshot>, lo: int, hi: int, key: string, uid: string) {
    exists i :: 0 <= i < |past| && lo < past[i].now <= hi && OwnerOf(past[i].tables.routingKeys, key) == Some(uid)
  }

  /** The key led to `uid` at some moment in one interval, and `uid` had this row at
      some moment in the other. */
  ghost predicate RouteVia(past: seq<Snapshot>, keyLo: int, rowLo: int, hi: int, key: string, uid: string,
                           row: Endpoint) {
    OwnerSeen(past, keyLo, hi, key, uid) && RowSeen(past, rowLo, hi, uid, row)
  }

  ghost predicate RouteSeen(past: seq<Snapshot>, keyLo: int, rowLo: int, hi: int, key: string, row: Endpoint) {
    exists uid :: RouteVia(past, keyLo, rowLo, hi, key, uid, row)
  }

  /** Where the row cached under `name` until `expires` came from: its fill time
      is `expires - TTL`, and what was put in was in the table then, except that
      a routing key's entry may hold a row that was cached before. */
  ghost predicate Sourced(past: seq<Snapshot>, n: Names, name: string, row: Endpoint, expires: int) {
    var filled := expires - TTL;
    && (name in n.uids ==> RowSeen(past, filled - 1, filled, name, row))
    && (name in n.verkeys ==> VerkeySeen(past, filled - 1, filled, name, row))
    && (name in n.routes ==> RouteSeen(past, filled - 1, filled - TTL, filled, name, row))
  }

  ghost predicate SlotSourced(w: World, n: Names, name: string) {
    Key(Endpoints, name) in w.s.cache ==>
      var slot := w.s.cache[Key(Endpoints, name)];
      && slot.value.OfEndpoint? && slot.expires <= w.s.now + TTL
      && Sourced(w.past, n, name, slot.value.endpoint, slot.expires)
  }

  ghost predicate Inv(w: World, n: Names) {
    && Disjoint(n) && RowsNamed(w.s.tables, n)
    && forall name :: SlotSourced(w, n, name)
  }

  lemma SourcedLater(past: seq<Snapshot>, more: Snapshot, n: Names, name: string, row: Endpoint, expires: int)
    requires Sourced(past, n, name, row, expires)
    ensures Sourced(past + [more], n, name, row, expires)
  {
    var longer := past + [more];
    var filled := expires - TTL;
    if name in n.uids {
      RowSeenLater(past, more, filled - 1, filled, name, row);
    }
    if name in n.verkeys {
      var i :| 0 <= i < |past| && filled - 1 < past[i].now <= filled
            && EndpointByVerkey(past[i].tables, name) == Some(row);
      assert longer[i] == past[i];
    }
    if name in n.routes {
      var uid :| RouteVia(past, filled - 1, filled - TTL, filled, name, uid, row);
      RowSeenLater(past, more, filled - TTL, filled, uid, row);
      var i :| 0 <= i < |past| && filled - 1 < past[i].now <= filled
            && OwnerOf(past[i].tables.routingKeys, name) == Some(uid);
      assert longer[i] == past[i];
      assert RouteVia(longer, filled - 1, filled - TTL, filled, name, uid, row);
    }
  }

  lemma RowSeenLater(past: seq<Snapshot>, more: Snapshot, lo: int, hi: int, uid: string, row: Endpoint)
    requires RowSeen(past, lo, hi, uid, row)
    ensures RowSeen(past + [more], lo, hi, uid, row)
  {
    var i :| 0 <= i < |past| && lo < past[i].now <= hi && EndpointAt(past[i].tables, uid) == Some(row);
    assert (past + [more])[i] == past[i];
  }

  /** The world with the present added to its past. */
  ghost function Noted(w: World): World {
    World(w.s, w.past + [Snapshot(w.s.now, w.s.tables)])
  }

  ghost predicate PresentNoted(w: World) {
    w.past != [] && w.past[|w.past| - 1] == Snapshot(w.s.now, w.s.tables)
  }

  lemma NoteKeeps(w: World, n: Names)
    requires Inv(w, n)
    ensures Inv(Noted(w), n) && PresentNoted(Noted(w))
  {
    forall name ensures SlotSourced(Noted(w), n, name) {
      assert SlotSourced(w, n, name);
      if Key(Endpoints, name) in w.s.cache {
        var slot := w.s.cache[Key(Endpoints, name)];
        SourcedLater(w.past, Snapshot(w.s.now, w.s.tables), n, name, slot.value.endpoint, slot.expires);
      }
    }
  }

  lemma NowSeen(w: World, uid: string)
    requires PresentNoted(w) && uid in w.s.tables.endpoints
    ensures RowSeen(w.past, w.s.now - 1, w.s.now, uid, w.s.tables.endpoints[uid])
  {
  }

  ghost predicate SameEntry(c: Cache, c1: Cache, k: Key) {
    k in c1 ==> k in c && c1[k] == c[k]
  }

  /** A step that fills no endpoint entry. */
  lemma NoFillKeeps(w: World, s1: State, n: Names)
    requires Inv(w, n) && RowsNamed(s1.tables, n) && w.s.now <= s1.now
    requires forall name :: SameEntry(w.s.cache, s1.cache, Key(Endpoints, name))
    ensures Inv(World(s1, w.past), n)
  {
    forall name ensures SlotSourced(World(s1, w.past), n, name) {
      assert SlotSourced(w, n, name) && SameEntry(w.s.cache, s1.cache, Key(Endpoints, name));
    }
  }

  /** A step that fills one endpoint entry, from a known source. */
  lemma FillKeeps(w: World, s1: State, n: Names, name: string, row: Endpoint)
    requires Inv(w, n) && s1.tables == w.s.tables && s1.now == w.s.now
    requires Key(Endpoints, name) in s1.cache && s1.cache[Key(Endpoints, name)] == Slot(OfEndpoint(row), w.s.now + TTL)
    requires Sourced(w.past, n, name, row, w.s.now + TTL)
    requires forall x :: x != name ==> SameEntry(w.s.cache, s1.cache, Key(Endpoints, x))
    ensures Inv(World(s1, w.past), n)
  {
    forall x ensures SlotSourced(World(s1, w.past), n, x) {
      assert SlotSourced(w, n, x);
      assert x != name ==> SameEntry(w.s.cache, s1.cache, Key(Endpoints, x));
    }
  }

  lemma LoadByUidKeeps(w: World, n: Names, uid: string)
    requires Inv(w, n) && PresentNoted(w) && uid in n.uids
    ensures Inv(World(LoadEndpoint(w.s, uid).0, w.past), n)
  {
    if CachedEndpoint(w.s, uid).None? && uid in w.s.tables.endpoints {
      NowSeen(w, uid);
      FillKeeps(w, LoadEndpoint(w.s, uid).0, n, uid, w.s.tables.endpoints[uid]);
    }
  }

  lemma LoadByVerkeyKeeps(w: World, n: Names, verkey: string)
    requires Inv(w, n) && PresentNoted(w) && verkey in n.verkeys
    ensures Inv(World(LoadEndpointViaVerkey(w.s, verkey).0, w.past), n)
  {
    var found := EndpointByVerkey(w.s.tables, verkey);
    if CachedEndpoint(w.s, verkey).None? && found.Some? {
      assert EndpointByVerkey(w.past[|w.past| - 1].tables, verkey) == found;
      assert VerkeySeen(w.past, w.s.now - 1, w.s.now, verkey, found.value);
      FillKeeps(w, LoadEndpointViaVerkey(w.s, verkey).0, n, verkey, found.value);
    }
  }

  /** A row read by uid was in the table within the last TTL. */
  lemma UidReadSeen(w: World, n: Names, uid: string)
    requires Inv(w, n) && PresentNoted(w) && uid in n.uids
    ensures UidBounded(w, uid)
  {
    if CachedEndpoint(w.s, uid).Some? {
      assert SlotSourced(w, n, uid);
      var filled := w.s.cache[Key(Endpoints, uid)].expires - TTL;
      WidenRow(w.past, filled - 1, filled, w.s.now - TTL, w.s.now, uid, CachedEndpoint(w.s, uid).value);
    } else if uid in w.s.tables.endpoints {
      NowSeen(w, uid);
      WidenRow(w.past, w.s.now - 1, w.s.now, w.s.now - TTL, w.s.now, uid, w.s.tables.endpoints[uid]);
    }
  }

  lemma LoadByRouteKeeps(w: World, n: Names, key: string)
    requires Inv(w, n) && PresentNoted(w) && key in n.routes
    ensures Inv(World(LoadEndpointViaRoutingKey(w.s, key).0, w.past), n)
  {
    var owner := OwnerOf(w.s.tables.routingKeys, key);
    if CachedEndpoint(w.s, key).None? && owner.Some? && owner.value != "" {
      var uid := owner.value;
      OwnerIsRow(w.s.tables.routingKeys, key);
      LoadByUidKeeps(w, n, uid);
      var (s1, row) := LoadEndpoint(w.s, uid);
      if row.Some? {
        UidReadSeen(w, n, uid);
        assert OwnerOf(w.past[|w.past| - 1].tables.routingKeys, key) == Some(uid);
        assert RouteVia(w.past, w.s.now - 1, w.s.now - TTL, w.s.now, key, uid, row.value);
        FillKeeps(World(s1, w.past), LoadEndpointViaRoutingKey(w.s, key).0, n, key, row.value);
      }
    }
  }

  lemma NextKeeps(w: World, n: Names, op: Op)
    requires Inv(w, n) && Named(op, n)
    ensures Inv(Next(w, op), n)
  {
    NoteKeeps(w, n);
    StepNamed(w.s, op, n);
    match op
    case LoadEndpointOp(uid) => LoadByUidKeeps(Noted(w), n, uid);
    case LoadEndpointViaVerkeyOp(verkey) => LoadByVerkeyKeeps(Noted(w), n, verkey);
    case LoadEndpointViaRoutingKeyOp(key) => LoadByRouteKeeps(Noted(w), n, key);
    case _ =>
      NoEndpointFill(w.s, op);
      NoFillKeeps(Noted(w), Step(w.s, op), n);
  }

  lemma NoEndpointFill(s: State, op: Op)
    requires !op.LoadEndpointOp? && !op.LoadEndpointViaVerkeyOp? && !op.LoadEndpointViaRoutingKeyOp?
    ensures forall name :: SameEntry(s.cache, Step(s, op).cache, Key(Endpoints, name))
    ensures s.now <= Step(s, op).now
  {
  }

  lemma {:induction false} PlayKeeps(w: World, n: Names, ops: seq<Op>)
    requires Inv(w, n) && AllNamed(ops, n)
    ensures Inv(Play(w, ops), n)
    decreases |ops|
  {
    if ops != [] {
      NextKeeps(w, n, ops[0]);
      PlayKeeps(Next(w, ops[0]), n, ops[1..]);
    }
  }

  lemma EmptyCacheInv(t: Tables, now: int, n: Names)
    requires Disjoint(n) && RowsNamed(t, n)
    ensures Inv(World(State(t, map[], now), []), n)
  {
  }

  // ------------------------------------------------------- bounded staleness

  /** An absent row is never stale; a row given was in the table less than a TTL ago. */
  ghost predicate UidBounded(w: World, uid: string) {
    match LoadEndpoint(w.s, uid).1
    case Some(row) => RowSeen(w.past, w.s.now - TTL, w.s.now, uid, row)
    case None => EndpointAt(w.s.tables, uid) == None
  }

  ghost predicate VerkeyBounded(w: World, verkey: string) {
    match LoadEndpointViaVerkey(w.s, verkey).1
    case Some(row) => VerkeySeen(w.past, w.s.now - TTL, w.s.now, verkey, row)
    case None => EndpointByVerkey(w.s.tables, verkey) == None
  }

  ghost predicate RouteBounded(w: World, key: string) {
    match LoadEndpointViaRoutingKey(w.s, key).1
    case Some(row) => RouteSeen(w.past, w.s.now - TTL, w.s.now - 2 * TTL, w.s.now, key, row)
    case None =>
      var owner := OwnerOf(w.s.tables.routingKeys, key);
      owner == None || owner == Some("") || EndpointAt(w.s.tables, owner.value) == None
  }

  /** Endpoint reads at time t after any sequence of calls, one at a time. By uid and by verkey,
      the row is what the table had at some moment in (t - TTL, t]. By routing
      key, the key belonged to the row's endpoint at such a moment, while the row
      itself may be up to two TTLs old, because a cached row is cached again. */
  lemma BoundedStaleness(w: World, n: Names, ops: seq<Op>, uid: string, verkey: string, key: string)
    requires Inv(w, n) && AllNamed(ops, n) && uid in n.uids && verkey in n.verkeys && key in n.routes
    ensures UidBounded(Noted(Play(w, ops)), uid)
    ensures VerkeyBounded(Noted(Play(w, ops)), verkey)
    ensures RouteBounded(Noted(Play(w, ops)), key)
  {
    PlayKeeps(w, n, ops);
    NoteKeeps(Play(w, ops), n);
    var w1 := Noted(Play(w, ops));
    UidReadSeen(w1, n, uid);
    VerkeyReadSeen(w1, n, verkey);
    RouteReadSeen(w1, n, key);
  }

  lemma VerkeyReadSeen(w: World, n: Names, verkey: string)
    requires Inv(w, n) && PresentNoted(w) && verkey in n.verkeys
    ensures VerkeyBounded(w, verkey)
  {
    var r := LoadEndpointViaVerkey(w.s, verkey).1;
    if CachedEndpoint(w.s, verkey).Some? {
      assert SlotSourced(w, n, verkey);
      var filled := w.s.cache[Key(Endpoints, verkey)].expires - TTL;
      var i :| 0 <= i < |w.past| && filled - 1 < w.past[i].now <= filled
            && EndpointByVerkey(w.past[i].tables, verkey) == r;
      assert w.s.now - TTL < w.past[i].now <= w.s.now;
    } else if r.Some? {
      assert EndpointByVerkey(w.past[|w.past| - 1].tables, verkey) == r;
    }
  }

  lemma RouteReadSeen(w: World, n: Names, key: string)
    requires Inv(w, n) && PresentNoted(w) && key in n.routes
    ensures RouteBounded(w, key)
  {
    var r := LoadEndpointViaRoutingKey(w.s, key).1;
    var t := w.s.now;
    if CachedEndpoint(w.s, key).Some? {
      assert SlotSourced(w, n, key);
      var filled := w.s.cache[Key(Endpoints, key)].expires - TTL;
      var u :| RouteVia(w.past, filled - 1, filled - TTL, filled, key, u, r.value);
      WidenRoute(w.past, filled - 1, filled - TTL, filled, t - TTL, t - 2 * TTL, t, key, u, r.value);
    } else if r.Some? {
      var u := OwnerOf(w.s.tables.routingKeys, key).value;
      OwnerIsRow(w.s.tables.routingKeys, key);
      UidReadSeen(w, n, u);
      assert OwnerOf(w.past[|w.past| - 1].tables.routingKeys, key) == Some(u);
      assert RouteVia(w.past, t - 1, t - TTL, t, key, u, r.value);
      WidenRoute(w.past, t - 1, t - TTL, t, t - TTL, t - 2 * TTL, t, key, u, r.value);
    }
  }

  lemma WidenRoute(past: seq<Snapshot>, keyLo: int, rowLo: int, hi: int, keyLo1: int, rowLo1: int, hi1: int,
                   key: string, uid: string, row: Endpoint)
    requires RouteVia(past, keyLo, rowLo, hi, key, uid, row) && keyLo1 <= keyLo && rowLo1 <= rowLo && hi <= hi1
    ensures RouteSeen(past, keyLo1, rowLo1, hi1, key, row)
  {
    assert RouteVia(past, keyLo1, rowLo1, hi1, key, uid, row);
  }

  lemma WidenRow(past: seq<Snapshot>, lo: int, hi: int, lo1: int, hi1: int, uid: string, row: Endpoint)
    requires RowSeen(past, lo, hi, uid, row) && lo1 <= lo && hi <= hi1
    ensures RowSeen(past, lo1, hi1, uid, row)
  {
  }

  /** A removed routing key stops resolving: once nobody has owned it for a TTL,
      it leads nowhere, whatever is still cached. (A lookup under way when the key
      is removed can cache it later: see `RepoSlowLoads`.) */
  lemma RemovedKeyExpires(w: World, n: Names, key: string, since: int)
    requires Inv(w, n) && PresentNoted(w) && key in n.routes
    requires forall i :: 0 <= i < |w.past| && w.past[i].now > since ==>
          OwnerOf(w.past[i].tables.routingKeys, key) == None
    requires since + TTL <= w.s.now
    ensures LoadEndpointViaRoutingKey(w.s, key).1 == None
  {
    RouteReadSeen(w, n, key);
  }

  // ------------------------------------------------- the verkey entry's limits

  /** The write leaves the holder of the verkey alone: it is about the holder and
      carries only what is stored, or about another endpoint and does not claim
      the verkey. */
  ghost predicate HolderUntouched(t: Tables, holder: string, verkey: string, uid: string, redis: Option<string>,
                                  agentId: Option<string>, newVerkey: Option<string>, fcm: Option<string>)
    requires holder in t.endpoints
  {
    var row := t.endpoints[holder];
    if uid == holder then
      && FieldCurrent(redis, row.redisPubSub) && FieldCurrent(agentId, row.agentId)
      && FieldCurrent(newVerkey, row.verkey) && FieldCurrent(fcm, row.fcm)
    else newVerkey != Some(verkey)
  }

  lemma HolderAfterWrite(t: Tables, holder: string, verkey: string, uid: string, redis: Option<string>,
                         agentId: Option<string>, newVerkey: Option<string>, fcm: Option<string>)
    requires WellFormed(t) && verkey != "" && EndpointHolds(t, holder, verkey)
    ensures EndpointByVerkey(t, verkey) == Some(t.endpoints[holder])
    ensures var t1 := EnsureEndpoint(t, uid, redis, agentId, newVerkey, fcm);
            EndpointByVerkey(t1, verkey) == Some(t.endpoints[holder])
            <==> HolderUntouched(t, holder, verkey, uid, redis, agentId, newVerkey, fcm)
  {
    var t1 := EnsureEndpoint(t, uid, redis, agentId, newVerkey, fcm);
    EndpointByVerkeyIs(t, holder, verkey);
    EnsureEndpointKeeps(t, uid, redis, agentId, newVerkey, fcm);
    if holder in t1.endpoints && t1.endpoints[holder].verkey == Some(verkey) {
      EndpointByVerkeyIs(t1, holder, verkey);
    }
    if uid != holder && newVerkey == Some(verkey) {
      EndpointByVerkeyIs(t1, uid, verkey);
    }
  }

  /** A verkey read right after any endpoint write, a takeover included, when it
      was exact before. The write does not drop the entry cached under the
      verkey, so the read is exact if and only if there is no such entry or the
      arguments leave the holder of the verkey alone. */
  lemma VerkeyReadExactIff(s: State, verkey: string, uid: string, redis: Option<string>, agentId: Option<string>,
                           newVerkey: Option<string>, fcm: Option<string>)
    requires WellFormed(s.tables) && verkey != "" && uid != verkey
    requires LoadEndpointViaVerkey(s, verkey).1 == EndpointByVerkey(s.tables, verkey)
    ensures var s1 := CallEnsureEndpoint(s, uid, redis, agentId, newVerkey, fcm);
            LoadEndpointViaVerkey(s1, verkey).1 == EndpointByVerkey(s1.tables, verkey)
            <==> CachedEndpoint(s, verkey).None?
                 || forall h :: EndpointHolds(s.tables, h, verkey) ==>
                      HolderUntouched(s.tables, h, verkey, uid, redis, agentId, newVerkey, fcm)
  {
    var s1 := CallEnsureEndpoint(s, uid, redis, agentId, newVerkey, fcm);
    assert CachedEndpoint(s1, verkey) == CachedEndpoint(s, verkey);
    if h :| EndpointHolds(s.tables, h, verkey) {
      HolderAfterWrite(s.tables, h, verkey, uid, redis, agentId, newVerkey, fcm);
      assert forall h1 :: EndpointHolds(s.tables, h1, verkey) ==> h1 == h;
    }
  }
}
