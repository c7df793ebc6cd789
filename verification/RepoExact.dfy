/** Reads that are exact after any calls, one at a time, and any passing of time:
    key lists and settings always, endpoints by uid as long as no endpoint takes
    another's verkey over. Calls that overlap are in `RepoInterleaved`. */
module RepoExact {
  import opened Base
  import opened Tables
  import opened RepoCache
  import RepoEndpoints

  // --------------------------------------------------------------- key lists

  lemma {:induction false} KeysOfAppend(rows: seq<RoutingKey>, row: RoutingKey, uid: string)
    ensures KeysOf(rows + [row], uid) == KeysOf(rows, uid) + (if row.uid == uid then [row] else [])
  {
    if rows == [] {
      assert rows + [row] == [row] && [row][1..] == [];
    } else {
      assert (rows + [row])[1..] == rows[1..] + [row];
      KeysOfAppend(rows[1..], row, uid);
      ConcatAssoc(if rows[0].uid == uid then [rows[0]] else [], KeysOf(rows[1..], uid),
            if row.uid == uid then [row] else []);
    }
  }

  lemma {:induction false} KeysOfRemoved(rows: seq<RoutingKey>, owner: string, key: string, uid: string)
    requires owner != uid
    ensures KeysOf(KeysWithout(rows, owner, key), uid) == KeysOf(rows, uid)
  {
    if rows != [] {
      KeysOfRemoved(rows[1..], owner, key, uid);
      var rest := KeysWithout(rows[1..], owner, key);
      if rows[0].key == key && rows[0].uid == owner {
        assert [] + rest == rest && [] + KeysOf(rows[1..], uid) == KeysOf(rows[1..], uid);
      } else {
        assert ([rows[0]] + rest)[0] == rows[0] && ([rows[0]] + rest)[1..] == rest;
      }
    }
  }

  ghost predicate KeysSlotOk(s: State, uid: string) {
    match Get(s, Key(RoutingKeys, uid))
    case Some(OfKeys(ks)) => ks == KeysOf(s.tables.routingKeys, uid)
    case _ => true
  }

  ghost predicate SettingSlotOk(s: State, name: string) {
    match Get(s, Key(GlobalSettings, name))
    case Some(OfSetting(v)) => v == SettingAt(s.tables, name)
    case _ => true
  }

  /** What both reads depend on. */
  ghost predicate SideOk(s: State) {
    (forall u :: KeysSlotOk(s, u)) && (forall name :: SettingSlotOk(s, name))
  }

  lemma StepSideOk(s: State, op: Op)
    requires SideOk(s)
    ensures SideOk(Step(s, op))
  {
    var s1 := Step(s, op);
    forall u ensures KeysSlotOk(s1, u) {
      assert KeysSlotOk(s, u);
      StepKeysSlot(s, op, u);
    }
    forall name ensures SettingSlotOk(s1, name) {
      assert SettingSlotOk(s, name);
      StepSettingSlot(s, op, name);
    }
  }

  lemma StepKeysSlot(s: State, op: Op, uid: string)
    requires KeysSlotOk(s, uid)
    ensures KeysSlotOk(Step(s, op), uid)
  {
    match op
    case AddKeyOp(owner, key) =>
      KeysOfAppend(s.tables.routingKeys, RoutingKey(s.tables.nextKeyId, key, owner), uid);
    case RemoveKeyOp(owner, key) =>
      if owner != uid { KeysOfRemoved(s.tables.routingKeys, owner, key, uid); }
    case ListKeysOp(_) =>
    case _ => OtherSpaces(s, op, Key(RoutingKeys, uid));
  }

  lemma StepSettingSlot(s: State, op: Op, name: string)
    requires SettingSlotOk(s, name)
    ensures SettingSlotOk(Step(s, op), name)
  {
    match op
    case GetSettingOp(_) =>
    case SetSettingOp(_, _) =>
    case ListKeysOp(_) =>
    case _ => OtherSpaces(s, op, Key(GlobalSettings, name));
  }

  /** An entry outside the spaces of agents and endpoints. */
  ghost predicate SameSlot(c: Cache, c1: Cache, k: Key) {
    (k in c1 <==> k in c) && (k in c ==> c1[k] == c[k])
  }

  lemma EndpointLoadsElsewhere(s: State, op: Op, k: Key)
    requires k.space == RoutingKeys || k.space == GlobalSettings
    requires op.LoadEndpointOp? || op.LoadEndpointViaVerkeyOp? || op.LoadEndpointViaRoutingKeyOp?
    ensures SameSlot(s.cache, Step(s, op).cache, k) && Step(s, op).tables == s.tables && Step(s, op).now == s.now
  {
  }

  /** The calls about agents and endpoints touch neither key lists nor settings. */
  lemma OtherSpaces(s: State, op: Op, k: Key)
    requires k.space == RoutingKeys || k.space == GlobalSettings
    requires k.space == RoutingKeys ==> !op.ListKeysOp? && !op.AddKeyOp? && !op.RemoveKeyOp?
    requires k.space == GlobalSettings ==> !op.GetSettingOp? && !op.SetSettingOp?
    ensures SameSlot(s.cache, Step(s, op).cache, k) && s.now <= Step(s, op).now
    ensures k.space == RoutingKeys ==> Step(s, op).tables.routingKeys == s.tables.routingKeys
    ensures k.space == GlobalSettings ==> Step(s, op).tables.settings == s.tables.settings
  {
    if op.LoadEndpointOp? || op.LoadEndpointViaVerkeyOp? || op.LoadEndpointViaRoutingKeyOp? {
      EndpointLoadsElsewhere(s, op, k);
    }
  }

  lemma {:induction false} RunSideOk(s: State, ops: seq<Op>)
    requires SideOk(s)
    ensures SideOk(Run(s, ops))
    decreases |ops|
  {
    if ops != [] {
      StepSideOk(s, ops[0]);
      RunSideOk(Step(s, ops[0]), ops[1..]);
    }
  }

  /** From an empty cache, after any sequence of calls, `list_routing_key` and
      `get_global_setting` answer exactly what the tables say. */
  lemma ListsAndSettingsExact(t: Tables, now: int, ops: seq<Op>, uid: string, name: string)
    ensures var s := Run(State(t, map[], now), ops);
            && ListKeys(s, uid).1 == KeysOf(s.tables.routingKeys, uid)
            && GetSetting(s, name).1 == SettingAt(s.tables, name)
  {
    var s := Run(State(t, map[], now), ops);
    RunSideOk(State(t, map[], now), ops);
    assert KeysSlotOk(s, uid) && SettingSlotOk(s, name);
  }

  function OtherKeys(rows: seq<RoutingKey>, key: string): seq<RoutingKey> {
    if rows == [] then [] else (if rows[0].key == key then [] else [rows[0]]) + OtherKeys(rows[1..], key)
  }

  lemma {:induction false} KeysOfRemovedOwn(rows: seq<RoutingKey>, uid: string, key: string)
    ensures KeysOf(KeysWithout(rows, uid, key), uid) == OtherKeys(KeysOf(rows, uid), key)
  {
    if rows != [] {
      KeysOfRemovedOwn(rows[1..], uid, key);
      var rest := KeysWithout(rows[1..], uid, key);
      var listed := KeysOf(rows[1..], uid);
      if rows[0].uid == uid {
        assert ([rows[0]] + listed)[1..] == listed;
      }
      if rows[0].key == key && rows[0].uid == uid {
        assert [] + rest == rest && [] + OtherKeys(listed, key) == OtherKeys(listed, key);
      } else {
        assert ([rows[0]] + rest)[0] == rows[0] && ([rows[0]] + rest)[1..] == rest;
        assert rows[0].uid != uid ==> [] + listed == listed;
      }
    }
  }

  /** After any calls: an added key is listed last for its endpoint at once, and
      the lists of other endpoints do not change. */
  lemma AddedIsListed(t: Tables, now: int, ops: seq<Op>, uid: string, key: string, other: string)
    ensures var s := Run(State(t, map[], now), ops);
            var s1 := CallAddKey(s, uid, key);
            && ListKeys(s1, uid).1 == ListKeys(s, uid).1 + [RoutingKey(s.tables.nextKeyId, key, uid)]
            && (other != uid ==> ListKeys(s1, other).1 == ListKeys(s, other).1)
  {
    var s := Run(State(t, map[], now), ops);
    RunSideOk(State(t, map[], now), ops);
    StepSideOk(s, AddKeyOp(uid, key));
    var s1 := CallAddKey(s, uid, key);
    assert KeysSlotOk(s, uid) && KeysSlotOk(s, other) && KeysSlotOk(s1, uid) && KeysSlotOk(s1, other);
    KeysOfAppend(s.tables.routingKeys, RoutingKey(s.tables.nextKeyId, key, uid), uid);
    KeysOfAppend(s.tables.routingKeys, RoutingKey(s.tables.nextKeyId, key, uid), other);
  }

  /** After any calls: a removed key leaves its endpoint's list at once, however
      often it was there, the others stay in order, and other endpoints keep
      theirs. */
  lemma RemovedIsNotListed(t: Tables, now: int, ops: seq<Op>, uid: string, key: string, other: string)
    ensures var s := Run(State(t, map[], now), ops);
            var s1 := CallRemoveKey(s, uid, key);
            && ListKeys(s1, uid).1 == OtherKeys(ListKeys(s, uid).1, key)
            && (other != uid ==> ListKeys(s1, other).1 == ListKeys(s, other).1)
  {
    var s := Run(State(t, map[], now), ops);
    RunSideOk(State(t, map[], now), ops);
    StepSideOk(s, RemoveKeyOp(uid, key));
    var s1 := CallRemoveKey(s, uid, key);
    assert KeysSlotOk(s, uid) && KeysSlotOk(s, other) && KeysSlotOk(s1, uid) && KeysSlotOk(s1, other);
    KeysOfRemovedOwn(s.tables.routingKeys, uid, key);
    if other != uid { KeysOfRemoved(s.tables.routingKeys, uid, key, other); }
  }

  /** After any calls: a setting that is set is got at once, and others are as before. */
  lemma SetIsGot(t: Tables, now: int, ops: seq<Op>, name: string, value: Option<Json>, other: string)
    ensures var s := Run(State(t, map[], now), ops);
            var s1 := CallSetSetting(s, name, value);
            && GetSetting(s1, name).1 == value
            && (other != name ==> GetSetting(s1, other).1 == GetSetting(s, other).1)
  {
    var s := Run(State(t, map[], now), ops);
    RunSideOk(State(t, map[], now), ops);
    StepSideOk(s, SetSettingOp(name, value));
    var s1 := CallSetSetting(s, name, value);
    assert SettingSlotOk(s, other) && SettingSlotOk(s1, name) && SettingSlotOk(s1, other);
  }

  // -------------------------------------------------------- endpoints by uid

  ghost predicate UidSlotOk(s: State, uid: string) {
    CachedEndpoint(s, uid).Some? ==> CachedEndpoint(s, uid) == EndpointAt(s.tables, uid)
  }

  ghost predicate UidsOk(s: State, n: RepoEndpoints.Names) {
    && RepoEndpoints.Disjoint(n) && RepoEndpoints.RowsNamed(s.tables, n)
    && forall u :: u in n.uids ==> UidSlotOk(s, u)
  }

  ghost predicate NoTakeover(s: State, op: Op) {
    op.EnsureEndpointOp? ==> EndpointRivals(s.tables, op.uid, op.newVerkey) == {}
  }

  ghost predicate Legal(s: State, ops: seq<Op>, n: RepoEndpoints.Names)
    decreases |ops|
  {
    ops == [] || (RepoEndpoints.Named(ops[0], n) && NoTakeover(s, ops[0]) && Legal(Step(s, ops[0]), ops[1..], n))
  }

  lemma EnsureUidSlot(s: State, op: Op, uid: string)
    requires op.EnsureEndpointOp? && NoTakeover(s, op) && UidSlotOk(s, uid)
    ensures UidSlotOk(Step(s, op), uid)
  {
  }

  lemma LoadUidSlot(s: State, op: Op, n: RepoEndpoints.Names, uid: string)
    requires UidsOk(s, n) && RepoEndpoints.Named(op, n) && uid in n.uids && !op.EnsureEndpointOp?
    ensures UidSlotOk(Step(s, op), uid)
  {
    assert UidSlotOk(s, uid);
    if !op.LoadEndpointOp? && !op.LoadEndpointViaVerkeyOp? && !op.LoadEndpointViaRoutingKeyOp? {
      RepoEndpoints.NoEndpointFill(s, op);
      assert RepoEndpoints.SameEntry(s.cache, Step(s, op).cache, Key(Endpoints, uid));
    }
  }

  lemma {:induction false} RunUidsOk(s: State, ops: seq<Op>, n: RepoEndpoints.Names)
    requires UidsOk(s, n) && Legal(s, ops, n)
    ensures UidsOk(Run(s, ops), n)
    decreases |ops|
  {
    if ops != [] {
      var s1 := Step(s, ops[0]);
      RepoEndpoints.StepNamed(s, ops[0], n);
      forall u | u in n.uids ensures UidSlotOk(s1, u) {
        assert UidSlotOk(s, u);
        if ops[0].EnsureEndpointOp? { EnsureUidSlot(s, ops[0], u); } else { LoadUidSlot(s, ops[0], n, u); }
      }
      RunUidsOk(s1, ops[1..], n);
    }
  }

  /** `load_endpoint` is exact after any calls among which no endpoint takes
      another's verkey over. */
  lemma UidReadsExact(s: State, ops: seq<Op>, n: RepoEndpoints.Names, uid: string)
    requires UidsOk(s, n) && Legal(s, ops, n) && uid in n.uids
    ensures LoadEndpoint(Run(s, ops), uid).1 == EndpointAt(Run(s, ops).tables, uid)
  {
    RunUidsOk(s, ops, n);
    assert UidSlotOk(Run(s, ops), uid);
  }

  /** With takeovers, the one endpoint that suffers is the one that loses its row,
      and only while it is cached. */
  lemma UidTakeoverIff(s: State, op: Op, n: RepoEndpoints.Names, victim: string)
    requires UidsOk(s, n) && op.EnsureEndpointOp? && victim in n.uids
    requires victim in EndpointRivals(s.tables, op.uid, op.newVerkey)
    ensures LoadEndpoint(Step(s, op), victim).1 == EndpointAt(Step(s, op).tables, victim)
            <==> CachedEndpoint(s, victim).None?
  {
  }

  /** The double bound on the row behind a routing key is reached: a row deleted at
      the start is cached under its uid, cached again under the key just before
      that entry ends, and read until just before the second entry ends. */
  lemma TwiceTtlReached(verkey: string, redis: Option<string>)
    requires verkey != ""
    ensures var row := Endpoint("E", Some(verkey), None, redis, None);
            var s := State(Tables(map[], map["E" := row], [RoutingKey(1, "K", "E")], 2, map[]), map[], 0);
            var deleted := CallEnsureEndpoint(LoadEndpoint(s, "E").0, "F", None, None, Some(verkey), None);
            var recached := LoadEndpointViaRoutingKey(deleted.(now := TTL - 1), "K").0;
            && EndpointAt(deleted.tables, "E") == None && deleted.now == 0
            && LoadEndpointViaRoutingKey(recached.(now := 2 * (TTL - 1)), "K").1 == Some(row)
  {
    var row := Endpoint("E", Some(verkey), None, redis, None);
    var s := State(Tables(map[], map["E" := row], [RoutingKey(1, "K", "E")], 2, map[]), map[], 0);
    var s1 := LoadEndpoint(s, "E").0;
    assert CachedEndpoint(s1, "E") == Some(row) && CachedEndpoint(s1, "K").None?;
    assert "E" in EndpointRivals(s1.tables, "F", Some(verkey));
    var s2 := CallEnsureEndpoint(s1, "F", None, None, Some(verkey), None);
    assert s2.cache[Key(Endpoints, "E")] == s1.cache[Key(Endpoints, "E")];
    assert OwnerOf(s2.tables.routingKeys, "K") == Some("E");
  }
}
