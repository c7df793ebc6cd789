/** The tables behind the mediator and the transactions on them (`crud`).

    A table is a map from its primary or unique column. The functions say what a
    transaction makes of the tables; `Database` performs it step by step. */
module Tables {
  import opened Base

  type Json = int

  datatype Agent = Agent(id: string, did: string, verkey: string, metadata: Option<Json>, fcm: Option<string>)
  datatype Endpoint = Endpoint(uid: string, verkey: Option<string>, agentId: Option<string>,
                               redisPubSub: Option<string>, fcm: Option<string>)
  datatype RoutingKey = RoutingKey(id: nat, key: string, uid: string)
  datatype Tables = Tables(agents: map<string, Agent>, endpoints: map<string, Endpoint>,
                           routingKeys: seq<RoutingKey>, nextKeyId: nat, settings: map<string, Option<Json>>)

  function Or<T>(a: Option<T>, b: Option<T>): Option<T> {
    if a.Some? then a else b
  }

  /** The agents other than `did` that hold `verkey`. */
  function AgentRivals(t: Tables, did: string, verkey: string): set<string> {
    set d | d in t.agents && d != did && t.agents[d].verkey == verkey
  }

  function EndpointRivals(t: Tables, uid: string, verkey: Option<string>): set<string> {
    if verkey.Some? && verkey.value != "" then set u | u in t.endpoints && u != uid && t.endpoints[u].verkey == verkey
    else {}
  }

  /** A new row gets neither the metadata nor the device id of the call. */
  function EnsureAgent(t: Tables, did: string, verkey: string, metadata: Option<Json>, fcm: Option<string>,
                       newId: string): Tables
  {
    var row := if did in t.agents
               then var a := t.agents[did]; Agent(a.id, a.did, verkey, Or(metadata, a.metadata), Or(fcm, a.fcm))
               else Agent(newId, did, verkey, None, None);
    t.(agents := (t.agents - AgentRivals(t, did, verkey))[did := row])
  }

  function EnsureEndpoint(t: Tables, uid: string, redisPubSub: Option<string>, agentId: Option<string>,
                          verkey: Option<string>, fcm: Option<string>): Tables
  {
    var row := if uid in t.endpoints
               then var e := t.endpoints[uid];
                 Endpoint(uid, Or(verkey, e.verkey), Or(agentId, e.agentId), Or(redisPubSub, e.redisPubSub),
                          Or(fcm, e.fcm))
               else Endpoint(uid, verkey, agentId, redisPubSub, fcm);
    t.(endpoints := (t.endpoints - EndpointRivals(t, uid, verkey))[uid := row])
  }

  function AddKey(t: Tables, uid: string, key: string): Tables {
    t.(routingKeys := t.routingKeys + [RoutingKey(t.nextKeyId, key, uid)], nextKeyId := t.nextKeyId + 1)
  }

  function KeysWithout(rows: seq<RoutingKey>, uid: string, key: string): seq<RoutingKey> {
    if rows == [] then []
    else (if rows[0].key == key && rows[0].uid == uid then [] else [rows[0]]) + KeysWithout(rows[1..], uid, key)
  }

  function RemoveKey(t: Tables, uid: string, key: string): Tables {
    t.(routingKeys := KeysWithout(t.routingKeys, uid, key))
  }

  function KeysOf(rows: seq<RoutingKey>, uid: string): seq<RoutingKey> {
    if rows == [] then []
    else (if rows[0].uid == uid then [rows[0]] else []) + KeysOf(rows[1..], uid)
  }

  /** The endpoint of the first row with this key. */
  function OwnerOf(rows: seq<RoutingKey>, key: string): Option<string> {
    if rows == [] then None
    else if rows[0].key == key then Some(rows[0].uid)
    else OwnerOf(rows[1..], key)
  }

  function AgentAt(t: Tables, did: string): Option<Agent> {
    if did in t.agents then Some(t.agents[did]) else None
  }

  function EndpointAt(t: Tables, uid: string): Option<Endpoint> {
    if uid in t.endpoints then Some(t.endpoints[uid]) else None
  }

  ghost predicate HoldsVerkey(t: Tables, d: string, verkey: string) {
    d in t.agents && t.agents[d].verkey == verkey
  }

  ghost predicate EndpointHolds(t: Tables, u: string, verkey: string) {
    u in t.endpoints && t.endpoints[u].verkey == Some(verkey)
  }

  ghost function AgentByVerkey(t: Tables, verkey: string): Option<Agent> {
    if d :| HoldsVerkey(t, d, verkey) then Some(t.agents[d]) else None
  }

  ghost function EndpointByVerkey(t: Tables, verkey: string): Option<Endpoint> {
    if u :| EndpointHolds(t, u, verkey) then Some(t.endpoints[u]) else None
  }

  function SettingAt(t: Tables, name: string): Option<Json> {
    if name in t.settings then t.settings[name] else None
  }

  // ------------------------------------------------------------- invariants

  /** Rows sit under their own key, no two agents share a verkey, and no two
      endpoints share a non-empty one. */
  ghost predicate WellFormed(t: Tables) {
    && (forall d :: d in t.agents ==> t.agents[d].did == d)
    && (forall u :: u in t.endpoints ==> t.endpoints[u].uid == u)
    && (forall d, e :: d in t.agents && e in t.agents && d != e ==> t.agents[d].verkey != t.agents[e].verkey)
    && (forall u, v :: u in t.endpoints && v in t.endpoints && u != v ==>
          t.endpoints[u].verkey != t.endpoints[v].verkey || t.endpoints[u].verkey.GetOr("") == "")
  }

  lemma AgentByVerkeyIs(t: Tables, d: string)
    requires WellFormed(t) && d in t.agents
    ensures AgentByVerkey(t, t.agents[d].verkey) == Some(t.agents[d])
  {
    assert HoldsVerkey(t, d, t.agents[d].verkey);
  }

  lemma EndpointByVerkeyIs(t: Tables, u: string, verkey: string)
    requires WellFormed(t) && u in t.endpoints && t.endpoints[u].verkey == Some(verkey) && verkey != ""
    ensures EndpointByVerkey(t, verkey) == Some(t.endpoints[u])
  {
    assert EndpointHolds(t, u, verkey);
  }

  /** Between two moments: agents keep their id, and no endpoint field that was
      set is null again, for as long as the row lives. */
  ghost predicate Grows(t: Tables, u: Tables) {
    && (forall d :: d in t.agents && d in u.agents ==> u.agents[d].id == t.agents[d].id)
    && (forall e :: e in t.endpoints && e in u.endpoints ==>
          && (t.endpoints[e].verkey.Some? ==> u.endpoints[e].verkey.Some?)
          && (t.endpoints[e].agentId.Some? ==> u.endpoints[e].agentId.Some?)
          && (t.endpoints[e].redisPubSub.Some? ==> u.endpoints[e].redisPubSub.Some?)
          && (t.endpoints[e].fcm.Some? ==> u.endpoints[e].fcm.Some?))
  }

  /** A field of a call that changes nothing: null, or what is stored. */
  ghost predicate FieldCurrent(given: Option<string>, stored: Option<string>) {
    given.None? || given == stored
  }

  lemma EnsureAgentKeeps(t: Tables, did: string, verkey: string, metadata: Option<Json>, fcm: Option<string>,
                         newId: string)
    requires WellFormed(t)
    ensures WellFormed(EnsureAgent(t, did, verkey, metadata, fcm, newId))
    ensures Grows(t, EnsureAgent(t, did, verkey, metadata, fcm, newId))
  {
  }

  lemma EnsureEndpointKeeps(t: Tables, uid: string, redisPubSub: Option<string>, agentId: Option<string>,
                            verkey: Option<string>, fcm: Option<string>)
    requires WellFormed(t)
    ensures WellFormed(EnsureEndpoint(t, uid, redisPubSub, agentId, verkey, fcm))
  {
  }

  lemma EnsureEndpointGrows(t: Tables, uid: string, redisPubSub: Option<string>, agentId: Option<string>,
                            verkey: Option<string>, fcm: Option<string>)
    ensures Grows(t, EnsureEndpoint(t, uid, redisPubSub, agentId, verkey, fcm))
  {
  }

  datatype Write =
    | AgentWrite(did: string, verkey: string, metadata: Option<Json>, fcm: Option<string>, newId: string)
    | EndpointWrite(uid: string, redisPubSub: Option<string>, agentId: Option<string>,
                    endpointVerkey: Option<string>, endpointFcm: Option<string>)
    | KeyAdd(keyUid: string, key: string)
    | KeyRemove(keyUid: string, key: string)
    | SettingWrite(name: string, value: Option<Json>)

  function Apply(t: Tables, w: Write): Tables {
    match w
    case AgentWrite(did, verkey, metadata, fcm, newId) => EnsureAgent(t, did, verkey, metadata, fcm, newId)
    case EndpointWrite(uid, redis, agentId, verkey, fcm) => EnsureEndpoint(t, uid, redis, agentId, verkey, fcm)
    case KeyAdd(uid, key) => AddKey(t, uid, key)
    case KeyRemove(uid, key) => RemoveKey(t, uid, key)
    case SettingWrite(name, value) => t.(settings := t.settings[name := value])
  }

  /** Every table a sequence of writes goes through. */
  function History(t: Tables, ws: seq<Write>): seq<Tables>
    decreases |ws|
  {
    if ws == [] then [t] else [t] + History(Apply(t, ws[0]), ws[1..])
  }

  /** Over all runs of transactions that do not overlap (`TableRaces` has those
      that do): rows stay well-formed, no two agents share a verkey and no two
      endpoints a non-empty one, and from one moment to the next surviving rows
      only grow. */
  lemma {:induction false} TablesInvariant(t: Tables, ws: seq<Write>, i: nat)
    requires WellFormed(t) && i < |History(t, ws)|
    ensures WellFormed(History(t, ws)[i])
    ensures i + 1 < |History(t, ws)| ==> Grows(History(t, ws)[i], History(t, ws)[i + 1])
    decreases |ws|
  {
    if ws != [] {
      ApplyKeeps(t, ws[0]);
      assert History(Apply(t, ws[0]), ws[1..])[0] == Apply(t, ws[0]);
      if i > 0 {
        TablesInvariant(Apply(t, ws[0]), ws[1..], i - 1);
      }
    }
  }

  lemma ApplyKeeps(t: Tables, w: Write)
    requires WellFormed(t)
    ensures WellFormed(Apply(t, w)) && Grows(t, Apply(t, w))
  {
    match w
    case AgentWrite(did, verkey, metadata, fcm, newId) => EnsureAgentKeeps(t, did, verkey, metadata, fcm, newId);
    case EndpointWrite(uid, redis, agentId, verkey, fcm) =>
      EnsureEndpointKeeps(t, uid, redis, agentId, verkey, fcm);
      EnsureEndpointGrows(t, uid, redis, agentId, verkey, fcm);
    case _ =>
  }

  /** Ensuring an agent twice is the same as once exactly when the row was there
      before or the call carries nothing a new row would drop. */
  lemma EnsureAgentTwiceIff(t: Tables, did: string, verkey: string, metadata: Option<Json>, fcm: Option<string>,
                            newId: string, newId2: string)
    ensures var once := EnsureAgent(t, did, verkey, metadata, fcm, newId);
            EnsureAgent(once, did, verkey, metadata, fcm, newId2) == once
            <==> did in t.agents || (metadata.None? && fcm.None?)
  {
  }

  /** A field after an update: the value given, or what was there if none was. */
  predicate Follows<T(==)>(given: Option<T>, before: Option<T>, after: Option<T>) {
    if given.Some? then after == given else after == before
  }

  /** What a write of an agent means, row by row: its own row follows what is given,
      or is a new one without metadata and device; another row is deleted if it has
      the verkey and is as before otherwise. */
  ghost predicate AgentWritten(t: Tables, t1: Tables, did: string, verkey: string, metadata: Option<Json>,
                               fcm: Option<string>, newId: string)
  {
    && did in t1.agents && t1.agents[did].did == (if did in t.agents then t.agents[did].did else did)
    && t1.agents[did].verkey == verkey
    && (did in t.agents ==>
          && t1.agents[did].id == t.agents[did].id
          && Follows(metadata, t.agents[did].metadata, t1.agents[did].metadata)
          && Follows(fcm, t.agents[did].fcm, t1.agents[did].fcm))
    && (did !in t.agents ==>
          t1.agents[did].id == newId && t1.agents[did].metadata.None? && t1.agents[did].fcm.None?)
    && (forall d :: d != did ==> (d in t1.agents <==> d in t.agents && t.agents[d].verkey != verkey))
    && (forall d :: d != did && d in t1.agents ==> t1.agents[d] == t.agents[d])
    && t1 == t.(agents := t1.agents)
  }

  /** What a write of an endpoint means, row by row. Only a verkey that is not empty
      deletes other rows. */
  ghost predicate EndpointWritten(t: Tables, t1: Tables, uid: string, redisPubSub: Option<string>,
                                  agentId: Option<string>, verkey: Option<string>, fcm: Option<string>)
  {
    && uid in t1.endpoints && t1.endpoints[uid].uid == uid
    && (var before := if uid in t.endpoints then t.endpoints[uid] else Endpoint(uid, None, None, None, None);
        var after := t1.endpoints[uid];
        && Follows(redisPubSub, before.redisPubSub, after.redisPubSub)
        && Follows(agentId, before.agentId, after.agentId)
        && Follows(verkey, before.verkey, after.verkey)
        && Follows(fcm, before.fcm, after.fcm))
    && (forall u :: u != uid ==>
          (u in t1.endpoints <==>
             u in t.endpoints && !(verkey.Some? && verkey.value != "" && t.endpoints[u].verkey == verkey)))
    && (forall u :: u != uid && u in t1.endpoints ==> t1.endpoints[u] == t.endpoints[u])
    && t1 == t.(endpoints := t1.endpoints)
  }

  lemma AgentWriteExact(t: Tables, did: string, verkey: string, metadata: Option<Json>, fcm: Option<string>,
                        newId: string)
    ensures AgentWritten(t, EnsureAgent(t, did, verkey, metadata, fcm, newId), did, verkey, metadata, fcm, newId)
  {
  }

  lemma EndpointWriteExact(t: Tables, uid: string, redisPubSub: Option<string>, agentId: Option<string>,
                           verkey: Option<string>, fcm: Option<string>)
    ensures EndpointWritten(t, EnsureEndpoint(t, uid, redisPubSub, agentId, verkey, fcm), uid, redisPubSub, agentId,
                            verkey, fcm)
  {
  }

  // ---------------------------------------------------------- routing key table

  /** The ids of the rows grow from above `lo` to below `hi`. */
  predicate Ascending(rows: seq<RoutingKey>, lo: int, hi: int) {
    rows == [] || (lo < rows[0].id < hi && Ascending(rows[1..], rows[0].id, hi))
  }

  lemma {:induction false} AscendingMeans(rows: seq<RoutingKey>, lo: int, hi: int, i: nat, j: nat)
    requires Ascending(rows, lo, hi) && i <= j < |rows|
    ensures lo < rows[i].id && (i < j ==> rows[i].id < rows[j].id)
  {
    if i > 0 {
      AscendingMeans(rows[1..], rows[0].id, hi, i - 1, j - 1);
    } else if j > 0 {
      AscendingMeans(rows[1..], rows[0].id, hi, j - 1, j - 1);
    }
  }

  lemma {:induction false} AscendingWider(rows: seq<RoutingKey>, lo: int, hi: int, lo1: int, hi1: int)
    requires Ascending(rows, lo, hi) && lo1 <= lo && hi <= hi1
    ensures Ascending(rows, lo1, hi1)
  {
    if rows != [] {
      AscendingWider(rows[1..], rows[0].id, hi, rows[0].id, hi1);
    }
  }

  lemma {:induction false} AscendingAdd(rows: seq<RoutingKey>, lo: int, row: RoutingKey)
    requires Ascending(rows, lo, row.id) && lo < row.id
    ensures Ascending(rows + [row], lo, row.id + 1)
  {
    if rows != [] {
      assert (rows + [row])[1..] == rows[1..] + [row];
      AscendingAdd(rows[1..], rows[0].id, row);
    }
  }

  lemma {:induction false} AscendingRemove(rows: seq<RoutingKey>, uid: string, key: string, lo: int, hi: int)
    requires Ascending(rows, lo, hi)
    ensures Ascending(KeysWithout(rows, uid, key), lo, hi)
  {
    if rows != [] {
      AscendingRemove(rows[1..], uid, key, rows[0].id, hi);
      var rest := KeysWithout(rows[1..], uid, key);
      if rows[0].key == key && rows[0].uid == uid {
        assert KeysWithout(rows, uid, key) == rest;
        AscendingWider(rest, rows[0].id, hi, lo, hi);
      } else {
        assert ([rows[0]] + rest)[1..] == rest;
      }
    }
  }

  lemma {:induction false} AscendingList(rows: seq<RoutingKey>, uid: string, lo: int, hi: int)
    requires Ascending(rows, lo, hi)
    ensures Ascending(KeysOf(rows, uid), lo, hi)
  {
    if rows != [] {
      AscendingList(rows[1..], uid, rows[0].id, hi);
      var rest := KeysOf(rows[1..], uid);
      if rows[0].uid == uid {
        assert ([rows[0]] + rest)[1..] == rest;
      } else {
        assert KeysOf(rows, uid) == rest;
        AscendingWider(rest, rows[0].id, hi, lo, hi);
      }
    }
  }

  lemma {:induction false} ListsOwnRows(rows: seq<RoutingKey>, uid: string, row: RoutingKey)
    ensures row in KeysOf(rows, uid) <==> row in rows && row.uid == uid
  {
    if rows != [] {
      ListsOwnRows(rows[1..], uid, row);
      assert row in rows <==> row == rows[0] || row in rows[1..];
    }
  }

  lemma ApplyInOrder(t: Tables, w: Write)
    requires Ascending(t.routingKeys, -1, t.nextKeyId)
    ensures Ascending(Apply(t, w).routingKeys, -1, Apply(t, w).nextKeyId)
  {
    match w
    case KeyAdd(uid, key) => AscendingAdd(t.routingKeys, -1, RoutingKey(t.nextKeyId, key, uid));
    case KeyRemove(uid, key) => AscendingRemove(t.routingKeys, uid, key, -1, t.nextKeyId);
    case _ =>
  }

  lemma {:induction false} HistoryInOrder(t: Tables, ws: seq<Write>)
    requires Ascending(t.routingKeys, -1, t.nextKeyId)
    ensures var t1 := History(t, ws)[|History(t, ws)| - 1]; Ascending(t1.routingKeys, -1, t1.nextKeyId)
    decreases |ws|
  {
    if ws != [] {
      ApplyInOrder(t, ws[0]);
      HistoryInOrder(Apply(t, ws[0]), ws[1..]);
    }
  }

  /** Over all sequences of writes no two rows of the routing key table share an id,
      and an endpoint's list has exactly its rows, in the order of their ids. */
  lemma KeyListsInOrder(t: Tables, ws: seq<Write>, uid: string, i: nat, j: nat)
    requires t.routingKeys == [] && i < j
    ensures var rows := History(t, ws)[|History(t, ws)| - 1].routingKeys;
            var listed := KeysOf(rows, uid);
            && (j < |rows| ==> rows[i].id < rows[j].id)
            && (j < |listed| ==> listed[i].id < listed[j].id)
            && (forall row :: row in listed <==> row in rows && row.uid == uid)
  {
    HistoryInOrder(t, ws);
    var t1 := History(t, ws)[|History(t, ws)| - 1];
    var listed := KeysOf(t1.routingKeys, uid);
    AscendingList(t1.routingKeys, uid, -1, t1.nextKeyId);
    if j < |t1.routingKeys| { AscendingMeans(t1.routingKeys, -1, t1.nextKeyId, i, j); }
    if j < |listed| { AscendingMeans(listed, -1, t1.nextKeyId, i, j); }
    forall row ensures row in listed <==> row in t1.routingKeys && row.uid == uid {
      ListsOwnRows(t1.routingKeys, uid, row);
    }
  }

  /** The owner of a key is the endpoint of the first row with it. */
  lemma {:induction false} OwnerIsFirst(rows: seq<RoutingKey>, key: string)
    ensures OwnerOf(rows, key).Some? <==> exists i :: 0 <= i < |rows| && rows[i].key == key
    ensures forall i :: 0 <= i < |rows| && rows[i].key == key && (forall j :: 0 <= j < i ==> rows[j].key != key) ==>
                          OwnerOf(rows, key) == Some(rows[i].uid)
  {
    if rows != [] && rows[0].key != key {
      OwnerIsFirst(rows[1..], key);
      forall i | 0 <= i < |rows| && rows[i].key == key && forall j :: 0 <= j < i ==> rows[j].key != key
        ensures OwnerOf(rows, key) == Some(rows[i].uid) {
        assert rows[1..][i - 1] == rows[i];
        assert forall j :: 0 <= j < i - 1 ==> rows[1..][j] == rows[j + 1];
      }
      if OwnerOf(rows[1..], key).Some? {
        var i :| 0 <= i < |rows[1..]| && rows[1..][i].key == key;
        assert rows[i + 1].key == key;
      }
    }
  }

  lemma {:induction false} OwnerAfterRemove(rows: seq<RoutingKey>, uid: string, key: string)
    requires forall i :: 0 <= i < |rows| && rows[i].key == key ==> rows[i].uid == uid
    ensures OwnerOf(KeysWithout(rows, uid, key), key) == None
  {
    if rows != [] {
      OwnerAfterRemove(rows[1..], uid, key);
      var rest := KeysWithout(rows[1..], uid, key);
      if rows[0].key != key {
        assert KeysWithout(rows, uid, key) == [rows[0]] + rest && ([rows[0]] + rest)[1..] == rest;
      } else {
        assert rows[0].uid == uid && KeysWithout(rows, uid, key) == [] + rest;
        assert [] + rest == rest;
      }
    }
  }

  lemma {:induction false} OwnerAfterAdd(rows: seq<RoutingKey>, row: RoutingKey)
    requires forall i :: 0 <= i < |rows| && rows[i].key == row.key ==> rows[i].uid == row.uid
    ensures OwnerOf(rows + [row], row.key) == Some(row.uid)
  {
    if rows != [] {
      assert (rows + [row])[1..] == rows[1..] + [row];
      OwnerAfterAdd(rows[1..], row);
    }
  }

  // ------------------------------------------------------------- transactions

  class Database {
    var t: Tables

    constructor (t: Tables)
      ensures this.t == t
    {
      this.t := t;
    }

    /** `crud.ensure_agent_exists`. */
    method EnsureAgentExists(did: string, verkey: string, metadata: Option<Json>, fcm: Option<string>, newId: string)
      modifies this
      ensures t == EnsureAgent(old(t), did, verkey, metadata, fcm, newId)
      ensures AgentWritten(old(t), t, did, verkey, metadata, fcm, newId)
    {
      AgentWriteExact(t, did, verkey, metadata, fcm, newId);
      var rivals := AgentRivals(t, did, verkey);
      if rivals != {} {
        t := t.(agents := t.agents - rivals);
      }
      assert t.agents == old(t).agents - AgentRivals(old(t), did, verkey);
      if did in t.agents {
        var row := UpdatedAgent(t.agents[did], verkey, metadata, fcm);
        if row != t.agents[did] {
          t := t.(agents := t.agents[did := row]);
        }
        assert t.agents == (old(t).agents - AgentRivals(old(t), did, verkey))[did := row];
      } else {
        t := t.(agents := t.agents[did := Agent(newId, did, verkey, None, None)]);
      }
    }

    /** An agent's row with its `fields_to_update` written. */
    static method UpdatedAgent(agent: Agent, verkey: string, metadata: Option<Json>,
                               fcm: Option<string>) returns (row: Agent)
      ensures row == Agent(agent.id, agent.did, verkey, Or(metadata, agent.metadata), Or(fcm, agent.fcm))
    {
      row := agent;
      if agent.verkey != verkey {
        row := row.(verkey := verkey);
      }
      if metadata.Some? && agent.metadata != metadata {
        row := row.(metadata := metadata);
      }
      if fcm.Some? && agent.fcm != fcm {
        row := row.(fcm := fcm);
      }
    }

    /** `crud.ensure_endpoint_exists`. */
    method EnsureEndpointExists(uid: string, redisPubSub: Option<string>, agentId: Option<string>,
                                verkey: Option<string>, fcm: Option<string>)
      requires WellFormed(t)
      modifies this
      ensures t == EnsureEndpoint(old(t), uid, redisPubSub, agentId, verkey, fcm)
      ensures EndpointWritten(old(t), t, uid, redisPubSub, agentId, verkey, fcm)
    {
      EndpointWriteExact(t, uid, redisPubSub, agentId, verkey, fcm);
      if verkey.Some? && verkey.value != "" {
        var rivals := EndpointRivals(t, uid, verkey);
        if rivals != {} {
          t := t.(endpoints := t.endpoints - rivals);
        }
      }
      assert t.endpoints == old(t).endpoints - EndpointRivals(old(t), uid, verkey);
      if uid in t.endpoints {
        var row := Updated(t.endpoints[uid], redisPubSub, agentId, verkey, fcm);
        if row != t.endpoints[uid] {
          t := t.(endpoints := t.endpoints[uid := row]);
        }
        assert t.endpoints == (old(t).endpoints - EndpointRivals(old(t), uid, verkey))[uid := row];
      } else {
        t := t.(endpoints := t.endpoints[uid := Endpoint(uid, verkey, agentId, redisPubSub, fcm)]);
      }
    }

    /** The row with its `fields_to_update` written: the given values that differ. */
    static method Updated(endpoint: Endpoint, redisPubSub: Option<string>, agentId: Option<string>,
                          verkey: Option<string>, fcm: Option<string>) returns (row: Endpoint)
      ensures row == Endpoint(endpoint.uid, Or(verkey, endpoint.verkey), Or(agentId, endpoint.agentId),
                              Or(redisPubSub, endpoint.redisPubSub), Or(fcm, endpoint.fcm))
    {
      row := endpoint;
      if redisPubSub.Some? && endpoint.redisPubSub != redisPubSub {
        row := row.(redisPubSub := redisPubSub);
      }
      if agentId.Some? && endpoint.agentId != agentId {
        row := row.(agentId := agentId);
      }
      if verkey.Some? && endpoint.verkey != verkey {
        row := row.(verkey := verkey);
      }
      if fcm.Some? && endpoint.fcm != fcm {
        row := row.(fcm := fcm);
      }
    }

    /** `crud.load_agent_via_verkey`: any row that matches. */
    method LoadAgentViaVerkey(verkey: string) returns (r: Option<Agent>)
      requires WellFormed(t)
      ensures r == AgentByVerkey(t, verkey)
    {
      var found := set d | d in t.agents && t.agents[d].verkey == verkey;
      if found == {} {
        assert forall d :: HoldsVerkey(t, d, verkey) ==> d in found;
        return None;
      }
      var d :| d in found;
      AgentByVerkeyIs(t, d);
      r := Some(t.agents[d]);
    }

    /** `crud.load_endpoint_via_verkey`. Several endpoints may have the empty verkey;
        which of them comes first is up to the database. */
    method LoadEndpointViaVerkey(verkey: string) returns (r: Option<Endpoint>)
      requires WellFormed(t)
      ensures r.Some? ==> EndpointHolds(t, r.value.uid, verkey) && r.value == t.endpoints[r.value.uid]
      ensures r.None? ==> forall u :: !EndpointHolds(t, u, verkey)
      ensures verkey != "" ==> r == EndpointByVerkey(t, verkey)
    {
      var found := set u | u in t.endpoints && t.endpoints[u].verkey == Some(verkey);
      if found == {} {
        assert forall u :: EndpointHolds(t, u, verkey) ==> u in found;
        return None;
      }
      var u :| u in found;
      if verkey != "" {
        EndpointByVerkeyIs(t, u, verkey);
      }
      r := Some(t.endpoints[u]);
    }
  }
}
