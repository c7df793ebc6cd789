/** `Repo`: a write-invalidate cache with expiry in front of the tables.

    The functions say what each repository call does to tables and cache, and
    what it answers; the class `Repo` is the program's form. Both memcached key
    parts, namespace and key, are kept apart here: a namespace has no colon, so
    the program's `namespace:key` strings are equal only for equal pairs. */
module RepoCache {
  import opened Base
  import opened Tables

  const TTL := 60

  datatype Space = Agents | AgentsVerkeys | Endpoints | EndpointsVerkeys | RoutingKeys | GlobalSettings

  datatype Value =
    | OfAgent(agent: Agent)
    | OfEndpoint(endpoint: Endpoint)
    | OfVerkey(verkey: string)
    | OfKeys(keys: seq<RoutingKey>)
    | OfSetting(setting: Option<Json>)

  datatype Key = Key(space: Space, name: string)
  datatype Slot = Slot(value: Value, expires: int)
  type Cache = map<Key, Slot>

  datatype State = State(tables: Tables, cache: Cache, now: int)

  /** Values that Python treats as false are cache misses. */
  predicate Truthy(v: Value) {
    match v
    case OfVerkey(s) => s != ""
    case OfKeys(ks) => ks != []
    case _ => true
  }

  function Get(s: State, k: Key): Option<Value> {
    if k in s.cache && s.now < s.cache[k].expires && Truthy(s.cache[k].value) then Some(s.cache[k].value) else None
  }

  function Put(s: State, k: Key, v: Value): State {
    s.(cache := s.cache[k := Slot(v, s.now + TTL)])
  }

  function Drop(s: State, k: Key): State {
    s.(cache := s.cache - {k})
  }

  /** The life of an entry: what was put is what is got, under its own key alone,
      for less than a TTL, unless it is dropped or Python takes it for false. */
  lemma EntryLifetime(s: State, k: Key, v: Value, d: nat, k2: Key)
    ensures var later := Put(s, k, v).(now := s.now + d);
            && Get(later, k) == (if d < TTL && Truthy(v) then Some(v) else None)
            && (k2 != k ==> Get(later, k2) == Get(s.(now := s.now + d), k2))
            && Get(Drop(later, k), k) == None
  {
  }

  // ------------------------------------------------------------------ calls

  /** The invalidation both `ensure_*` calls start with: the reverse index that
      is consulted is the agents' one in either case. */
  function Invalidate(s: State, own: Key, name: string): State {
    var s1 := Drop(s, own);
    match Get(s1, Key(AgentsVerkeys, name))
    case Some(OfVerkey(v)) => Drop(Drop(s1, Key(Agents, v)), Key(AgentsVerkeys, name))
    case _ => s1
  }

  function CallEnsureAgent(s: State, did: string, verkey: string, metadata: Option<Json>, fcm: Option<string>,
                           newId: string): State
  {
    var s1 := Invalidate(s, Key(Agents, did), did);
    s1.(tables := EnsureAgent(s.tables, did, verkey, metadata, fcm, newId))
  }

  function CallEnsureEndpoint(s: State, uid: string, redis: Option<string>, agentId: Option<string>,
                              verkey: Option<string>, fcm: Option<string>): State
  {
    var s1 := Invalidate(s, Key(Endpoints, uid), uid);
    s1.(tables := EnsureEndpoint(s.tables, uid, redis, agentId, verkey, fcm))
  }

  /** Caches an agent under `name` and its verkey in the reverse index. */
  function CacheAgent(s: State, name: string, a: Agent): State {
    var s1 := Put(s, Key(Agents, name), OfAgent(a));
    if a.verkey != "" then Put(s1, Key(AgentsVerkeys, a.did), OfVerkey(a.verkey)) else s1
  }

  function CacheEndpoint(s: State, name: string, e: Endpoint): State {
    var s1 := Put(s, Key(Endpoints, name), OfEndpoint(e));
    if e.verkey.Some? && e.verkey.value != "" then
      Put(s1, Key(EndpointsVerkeys, e.uid), OfVerkey(e.verkey.value))
    else s1
  }

  function CachedAgent(s: State, name: string): Option<Agent> {
    match Get(s, Key(Agents, name))
    case Some(OfAgent(a)) => Some(a)
    case _ => None
  }

  function CachedEndpoint(s: State, name: string): Option<Endpoint> {
    match Get(s, Key(Endpoints, name))
    case Some(OfEndpoint(e)) => Some(e)
    case _ => None
  }

  /** A load answers from the cache, or from the table and then fills the cache. */
  function LoadAgent(s: State, did: string): (State, Option<Agent>) {
    var hit := CachedAgent(s, did);
    if hit.Some? then (s, hit)
    else
      var row := AgentAt(s.tables, did);
      (if row.Some? then CacheAgent(s, did, row.value) else s, row)
  }

  ghost function LoadAgentViaVerkey(s: State, verkey: string): (State, Option<Agent>) {
    var hit := CachedAgent(s, verkey);
    if hit.Some? then (s, hit)
    else
      var row := AgentByVerkey(s.tables, verkey);
      (if row.Some? then CacheAgent(s, verkey, row.value) else s, row)
  }

  function LoadEndpoint(s: State, uid: string): (State, Option<Endpoint>) {
    var hit := CachedEndpoint(s, uid);
    if hit.Some? then (s, hit)
    else
      var row := EndpointAt(s.tables, uid);
      (if row.Some? then CacheEndpoint(s, uid, row.value) else s, row)
  }

  ghost function LoadEndpointViaVerkey(s: State, verkey: string): (State, Option<Endpoint>) {
    var hit := CachedEndpoint(s, verkey);
    if hit.Some? then (s, hit)
    else
      var row := EndpointByVerkey(s.tables, verkey);
      (if row.Some? then CacheEndpoint(s, verkey, row.value) else s, row)
  }

  /** The composed lookup: key to endpoint id in the table, then `LoadEndpoint`,
      whose possibly cached answer is cached once more under the key. */
  function LoadEndpointViaRoutingKey(s: State, key: string): (State, Option<Endpoint>) {
    var hit := CachedEndpoint(s, key);
    if hit.Some? then (s, hit)
    else
      var owner := OwnerOf(s.tables.routingKeys, key);
      if owner.None? || owner.value == "" then (s, None)
      else
        var (s1, row) := LoadEndpoint(s, owner.value);
        (if row.Some? then Put(s1, Key(Endpoints, key), OfEndpoint(row.value)) else s1, row)
  }

  function CallAddKey(s: State, uid: string, key: string): State {
    Drop(s, Key(RoutingKeys, uid)).(tables := AddKey(s.tables, uid, key))
  }

  function CallRemoveKey(s: State, uid: string, key: string): State {
    Drop(s, Key(RoutingKeys, uid)).(tables := RemoveKey(s.tables, uid, key))
  }

  function ListKeys(s: State, uid: string): (State, seq<RoutingKey>) {
    match Get(s, Key(RoutingKeys, uid))
    case Some(OfKeys(ks)) => (s, ks)
    case _ =>
      var ks := KeysOf(s.tables.routingKeys, uid);
      (Put(s, Key(RoutingKeys, uid), OfKeys(ks)), ks)
  }

  function GetSetting(s: State, name: string): (State, Option<Json>) {
    match Get(s, Key(GlobalSettings, name))
    case Some(OfSetting(v)) => (s, v)
    case _ =>
      var v := SettingAt(s.tables, name);
      (Put(s, Key(GlobalSettings, name), OfSetting(v)), v)
  }

  function CallSetSetting(s: State, name: string, v: Option<Json>): State {
    Drop(s, Key(GlobalSettings, name)).(tables := s.tables.(settings := s.tables.settings[name := v]))
  }

  // ------------------------------------------------------------------- runs

  datatype Op =
    | EnsureAgentOp(did: string, verkey: string, metadata: Option<Json>, fcm: Option<string>, newId: string)
    | LoadAgentOp(did: string)
    | LoadAgentViaVerkeyOp(verkey: string)
    | EnsureEndpointOp(uid: string, redis: Option<string>, agentId: Option<string>, newVerkey: Option<string>,
                       fcm: Option<string>)
    | LoadEndpointOp(uid: string)
    | LoadEndpointViaVerkeyOp(verkey: string)
    | LoadEndpointViaRoutingKeyOp(key: string)
    | AddKeyOp(uid: string, key: string)
    | RemoveKeyOp(uid: string, key: string)
    | ListKeysOp(uid: string)
    | GetSettingOp(name: string)
    | SetSettingOp(name: string, value: Option<Json>)
    | AdvanceOp(d: nat)

  ghost function Step(s: State, op: Op): State {
    match op
    case EnsureAgentOp(did, verkey, metadata, fcm, newId) => CallEnsureAgent(s, did, verkey, metadata, fcm, newId)
    case LoadAgentOp(did) => LoadAgent(s, did).0
    case LoadAgentViaVerkeyOp(verkey) => LoadAgentViaVerkey(s, verkey).0
    case EnsureEndpointOp(uid, redis, agentId, verkey, fcm) => CallEnsureEndpoint(s, uid, redis, agentId, verkey, fcm)
    case LoadEndpointOp(uid) => LoadEndpoint(s, uid).0
    case LoadEndpointViaVerkeyOp(verkey) => LoadEndpointViaVerkey(s, verkey).0
    case LoadEndpointViaRoutingKeyOp(key) => LoadEndpointViaRoutingKey(s, key).0
    case AddKeyOp(uid, key) => CallAddKey(s, uid, key)
    case RemoveKeyOp(uid, key) => CallRemoveKey(s, uid, key)
    case ListKeysOp(uid) => ListKeys(s, uid).0
    case GetSettingOp(name) => GetSetting(s, name).0
    case SetSettingOp(name, v) => CallSetSetting(s, name, v)
    case AdvanceOp(d) => s.(now := s.now + d)
  }

  ghost function Run(s: State, ops: seq<Op>): State
    decreases |ops|
  {
    if ops == [] then s else Run(Step(s, ops[0]), ops[1..])
  }

  /** The tables stay well-formed, whatever the calls. */
  lemma StepWellFormed(s: State, op: Op)
    requires WellFormed(s.tables)
    ensures WellFormed(Step(s, op).tables)
  {
    match op
    case EnsureAgentOp(did, verkey, metadata, fcm, newId) =>
      EnsureAgentKeeps(s.tables, did, verkey, metadata, fcm, newId);
    case EnsureEndpointOp(uid, redis, agentId, verkey, fcm) =>
      EnsureEndpointKeeps(s.tables, uid, redis, agentId, verkey, fcm);
    case _ =>
  }

  /** The tables change past the repository, and time passes. */
  function Meanwhile(s: State, t: Tables, d: nat): State {
    s.(tables := t, now := s.now + d)
  }

  /** What a load of an agent answers from the table is answered again for a cache
      lifetime, whatever becomes of the tables, and no longer; an absent row is
      looked for each time. */
  lemma AgentLoadsAreKept(s: State, name: string, t: Tables, d: nat)
    requires CachedAgent(s, name).None?
    ensures var (s1, r) := LoadAgent(s, name);
            LoadAgent(Meanwhile(s1, t, d), name).1 == if r.Some? && d < TTL then r else AgentAt(t, name)
    ensures var (s1, r) := LoadAgentViaVerkey(s, name);
            LoadAgentViaVerkey(Meanwhile(s1, t, d), name).1 == if r.Some? && d < TTL then r else AgentByVerkey(t, name)
  {
  }

  lemma EndpointLoadsAreKept(s: State, name: string, t: Tables, d: nat)
    requires CachedEndpoint(s, name).None?
    ensures var (s1, r) := LoadEndpoint(s, name);
            LoadEndpoint(Meanwhile(s1, t, d), name).1 == if r.Some? && d < TTL then r else EndpointAt(t, name)
    ensures var (s1, r) := LoadEndpointViaVerkey(s, name);
            LoadEndpointViaVerkey(Meanwhile(s1, t, d), name).1
              == if r.Some? && d < TTL then r else EndpointByVerkey(t, name)
  {
  }

  lemma RouteLoadIsKept(s: State, key: string, t: Tables, d: nat)
    requires CachedEndpoint(s, key).None? && LoadEndpointViaRoutingKey(s, key).1.Some? && d < TTL
    ensures var (s1, r) := LoadEndpointViaRoutingKey(s, key);
            LoadEndpointViaRoutingKey(Meanwhile(s1, t, d), key).1 == r
  {
  }

  /** Likewise key lists and settings; but an empty list is read again each time. */
  lemma OtherLoadsAreKept(s: State, name: string, t: Tables, d: nat)
    ensures Get(s, Key(RoutingKeys, name)).None? ==>
              var (s1, r) := ListKeys(s, name);
              ListKeys(Meanwhile(s1, t, d), name).1 == if r != [] && d < TTL then r else KeysOf(t.routingKeys, name)
    ensures Get(s, Key(GlobalSettings, name)).None? ==>
              var (s1, r) := GetSetting(s, name);
              GetSetting(Meanwhile(s1, t, d), name).1 == if d < TTL then r else SettingAt(t, name)
  {
  }

  // ------------------------------------------------------- the program's form

  class Repo {
    const db: Database
    var memcached: Cache
    var clock: int

    constructor (db: Database)
      ensures this.db == db && memcached == map[]
    {
      this.db := db;
      memcached, clock := map[], 0;
    }

    function View(): State
      reads this, db
    {
      State(db.t, memcached, clock)
    }

    method SetCache(k: Key, v: Value)
      modifies this`memcached
      ensures View() == Put(old(View()), k, v)
    {
      memcached := memcached[k := Slot(v, clock + TTL)];
    }

    method GetCache(k: Key) returns (v: Option<Value>)
      ensures v == Get(View(), k)
    {
      if k in memcached && clock < memcached[k].expires && Truthy(memcached[k].value) {
        return Some(memcached[k].value);
      }
      v := None;
    }

    method DeleteCache(k: Key)
      modifies this`memcached
      ensures View() == Drop(old(View()), k)
    {
      memcached := memcached - {k};
    }

    method EnsureAgentExists(did: string, verkey: string, metadata: Option<Json>, fcm: Option<string>, newId: string)
      modifies this`memcached, db
      ensures View() == CallEnsureAgent(old(View()), did, verkey, metadata, fcm, newId)
    {
      DeleteCache(Key(Agents, did));
      var indexed := GetCache(Key(AgentsVerkeys, did));
      if indexed.Some? && indexed.value.OfVerkey? {
        DeleteCache(Key(Agents, indexed.value.verkey));
        DeleteCache(Key(AgentsVerkeys, did));
      }
      db.EnsureAgentExists(did, verkey, metadata, fcm, newId);
    }

    method LoadAgentByDid(did: string) returns (r: Option<Agent>)
      modifies this`memcached
      ensures (View(), r) == LoadAgent(old(View()), did)
    {
      var cached := GetCache(Key(Agents, did));
      if cached.Some? && cached.value.OfAgent? {
        return Some(cached.value.agent);
      }
      r := AgentAt(db.t, did);
      if r.Some? {
        SetCache(Key(Agents, did), OfAgent(r.value));
        if r.value.verkey != "" {
          SetCache(Key(AgentsVerkeys, r.value.did), OfVerkey(r.value.verkey));
        }
      }
    }

    method LoadAgentByVerkey(verkey: string) returns (r: Option<Agent>)
      requires WellFormed(db.t)
      modifies this`memcached
      ensures (View(), r) == LoadAgentViaVerkey(old(View()), verkey)
    {
      var cached := GetCache(Key(Agents, verkey));
      if cached.Some? && cached.value.OfAgent? {
        return Some(cached.value.agent);
      }
      r := db.LoadAgentViaVerkey(verkey);
      if r.Some? {
        SetCache(Key(Agents, verkey), OfAgent(r.value));
        if r.value.verkey != "" {
          SetCache(Key(AgentsVerkeys, r.value.did), OfVerkey(r.value.verkey));
        }
      }
    }

    method EnsureEndpointExists(uid: string, redis: Option<string>, agentId: Option<string>,
                                verkey: Option<string>, fcm: Option<string>)
      requires WellFormed(db.t)
      modifies this`memcached, db
      ensures View() == CallEnsureEndpoint(old(View()), uid, redis, agentId, verkey, fcm)
    {
      DeleteCache(Key(Endpoints, uid));
      var indexed := GetCache(Key(AgentsVerkeys, uid));
      if indexed.Some? && indexed.value.OfVerkey? {
        DeleteCache(Key(Agents, indexed.value.verkey));
        DeleteCache(Key(AgentsVerkeys, uid));
      }
      db.EnsureEndpointExists(uid, redis, agentId, verkey, fcm);
    }

    method FillEndpoint(name: string, e: Endpoint)
      modifies this`memcached
      ensures View() == CacheEndpoint(old(View()), name, e)
    {
      SetCache(Key(Endpoints, name), OfEndpoint(e));
      if e.verkey.Some? && e.verkey.value != "" {
        SetCache(Key(EndpointsVerkeys, e.uid), OfVerkey(e.verkey.value));
      }
    }

    method LoadEndpointByUid(uid: string) returns (r: Option<Endpoint>)
      modifies this`memcached
      ensures (View(), r) == LoadEndpoint(old(View()), uid)
    {
      var cached := GetCache(Key(Endpoints, uid));
      if cached.Some? && cached.value.OfEndpoint? {
        return Some(cached.value.endpoint);
      }
      r := EndpointAt(db.t, uid);
      if r.Some? {
        FillEndpoint(uid, r.value);
      }
    }

    method LoadEndpointByVerkey(verkey: string) returns (r: Option<Endpoint>)
      requires WellFormed(db.t)
      modifies this`memcached
      ensures verkey != "" ==> (View(), r) == LoadEndpointViaVerkey(old(View()), verkey)
      ensures var hit := CachedEndpoint(old(View()), verkey);
              if hit.Some? then r == hit && View() == old(View())
              else if r.Some? then
                && EndpointHolds(db.t, r.value.uid, verkey) && db.t.endpoints[r.value.uid] == r.value
                && View() == CacheEndpoint(old(View()), verkey, r.value)
              else View() == old(View()) && forall u :: !EndpointHolds(db.t, u, verkey)
    {
      var cached := GetCache(Key(Endpoints, verkey));
      if cached.Some? && cached.value.OfEndpoint? {
        return Some(cached.value.endpoint);
      }
      r := db.LoadEndpointViaVerkey(verkey);
      if r.Some? {
        FillEndpoint(verkey, r.value);
      }
    }

    method LoadEndpointByRoutingKey(key: string) returns (r: Option<Endpoint>)
      modifies this`memcached
      ensures (View(), r) == LoadEndpointViaRoutingKey(old(View()), key)
    {
      var cached := GetCache(Key(Endpoints, key));
      if cached.Some? && cached.value.OfEndpoint? {
        return Some(cached.value.endpoint);
      }
      var uid := OwnerOf(db.t.routingKeys, key);
      if uid.None? || uid.value == "" {
        return None;
      }
      r := LoadEndpointByUid(uid.value);
      if r.Some? {
        SetCache(Key(Endpoints, key), OfEndpoint(r.value));
      }
    }

    method AddRoutingKey(uid: string, key: string) returns (added: RoutingKey)
      modifies this`memcached, db
      ensures View() == CallAddKey(old(View()), uid, key)
      ensures db.t.routingKeys == old(db.t.routingKeys) + [added] && added.key == key && added.uid == uid
    {
      DeleteCache(Key(RoutingKeys, uid));
      added := RoutingKey(db.t.nextKeyId, key, uid);
      db.t := AddKey(db.t, uid, key);
    }

    method RemoveRoutingKey(uid: string, key: string)
      modifies this`memcached, db
      ensures View() == CallRemoveKey(old(View()), uid, key)
    {
      DeleteCache(Key(RoutingKeys, uid));
      db.t := RemoveKey(db.t, uid, key);
    }

    method ListRoutingKey(uid: string) returns (r: seq<RoutingKey>)
      modifies this`memcached
      ensures (View(), r) == ListKeys(old(View()), uid)
    {
      var cached := GetCache(Key(RoutingKeys, uid));
      if cached.Some? && cached.value.OfKeys? {
        return cached.value.keys;
      }
      r := KeysOf(db.t.routingKeys, uid);
      SetCache(Key(RoutingKeys, uid), OfKeys(r));
    }

    method GetGlobalSetting(name: string) returns (r: Option<Json>)
      modifies this`memcached
      ensures (View(), r) == GetSetting(old(View()), name)
    {
      var cached := GetCache(Key(GlobalSettings, name));
      if cached.Some? && cached.value.OfSetting? {
        return cached.value.setting;
      }
      r := SettingAt(db.t, name);
      SetCache(Key(GlobalSettings, name), OfSetting(r));
    }

    method SetGlobalSetting(name: string, value: Option<Json>)
      modifies this`memcached, db
      ensures View() == CallSetSetting(old(View()), name, value)
    {
      DeleteCache(Key(GlobalSettings, name));
      db.t := db.t.(settings := db.t.settings[name := value]);
    }
  }
}
