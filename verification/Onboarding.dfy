/** Onboarding a DID: `build_did_doc_extra` gives its endpoint a redis address,
    the pairwise list stores the peer, and `post_create_pairwise` links the agent.

    The functions compose the repository's calls; the methods perform them. The
    endpoint id is a hash of the DID, here any function. */
module Onboarding {
  import opened Base
  import opened Tables
  import opened RepoCache

  /** The repository and the DIDs that have a pairwise row. */
  datatype World = World(s: State, pairs: set<string>)

  /** The service list of a DID document. */
  datatype Service = Service(kind: string, serviceEndpoint: string)

  const FCM_SERVICE := "FCMService"

  /** Whether the stored endpoint has to be written, and the address to write. */
  predicate NeedsEndpoint(row: Option<Endpoint>, verkey: string) {
    row.None? || row.value.verkey != Some(verkey)
  }

  function AddressToWrite(row: Option<Endpoint>, uid: string, server: string): Option<string> {
    if row.Some? && row.value.redisPubSub.Some? then None else Some(server + "/" + uid)
  }

  /** `build_did_doc_extra`. Without a reachable redis server it fails, unless no
      address is needed. */
  function Configure(s: State, uid: string, verkey: string, server: Option<string>): (State, bool) {
    var (s1, row) := LoadEndpoint(s, uid);
    if !NeedsEndpoint(row, verkey) then (s1, true)
    else
      var address := AddressToWrite(row, uid, server.GetOr(""));
      if address.Some? && server.None? then (s1, false)
      else (CallEnsureEndpoint(s1, uid, address, None, Some(verkey), None), true)
  }

  /** `PairwiseList.ensure_exists`: a new pairwise stores the peer's DID straight
      into the agents table, past the cache. */
  function StorePairwise(w: World, did: string, verkey: string, newId: string): World {
    if did in w.pairs then w
    else World(w.s.(tables := EnsureAgent(w.s.tables, did, verkey, None, None, newId)), w.pairs + {did})
  }

  predicate NeedsAgent(a: Option<Agent>, did: string, verkey: string, fcm: Option<string>) {
    a.None? || a.value.did != did || a.value.verkey != verkey || a.value.fcm != fcm
  }

  /** `post_create_pairwise`. */
  function Link(s: State, uid: string, did: string, verkey: string, metadata: Option<Json>, fcm: Option<string>,
                newId: string): State
  {
    var (s1, known) := LoadAgent(s, did);
    if !NeedsAgent(known, did, verkey, fcm) then s1
    else
      var (s2, agent) := LoadAgent(CallEnsureAgent(s1, did, verkey, metadata, fcm, newId), did);
      if agent.None? then s2 else CallEnsureEndpoint(s2, uid, None, Some(agent.value.id), Some(verkey), fcm)
  }

  /** What follows a successful handshake. */
  function Complete(w: World, uid: string, did: string, verkey: string, metadata: Option<Json>, fcm: Option<string>,
                    newId: string): World
  {
    var w1 := StorePairwise(w, did, verkey, newId);
    w1.(s := Link(w1.s, uid, did, verkey, metadata, fcm, newId))
  }

  /** The agent that was just ensured is always found again. */
  lemma EnsuredAgentLoads(s: State, did: string, verkey: string, metadata: Option<Json>, fcm: Option<string>,
                          newId: string)
    ensures var s1 := CallEnsureAgent(s, did, verkey, metadata, fcm, newId);
            && CachedAgent(s1, did).None? && did in s1.tables.agents
            && LoadAgent(s1, did).1 == Some(s1.tables.agents[did])
  {
  }

  /** What `post_create_pairwise` makes of the tables when it reads the agent as it is. */
  function LinkedTables(t: Tables, uid: string, did: string, verkey: string, metadata: Option<Json>,
                        fcm: Option<string>,
                        newId: string): Tables
  {
    if !NeedsAgent(AgentAt(t, did), did, verkey, fcm) then t
    else
      var t1 := EnsureAgent(t, did, verkey, metadata, fcm, newId);
      EnsureEndpoint(t1, uid, None, Some(t1.agents[did].id), Some(verkey), fcm)
  }

  lemma LinkIs(s: State, uid: string, did: string, verkey: string, metadata: Option<Json>, fcm: Option<string>,
               newId: string)
    requires LoadAgent(s, did).1 == AgentAt(s.tables, did)
    ensures Link(s, uid, did, verkey, metadata, fcm, newId).tables
         == LinkedTables(s.tables, uid, did, verkey, metadata, fcm, newId)
  {
    EnsuredAgentLoads(LoadAgent(s, did).0, did, verkey, metadata, fcm, newId);
  }

  /** What linking means for the tables: nothing if the agent is stored with this verkey
      and device; else the agent is written, and then the endpoint, with the agent's
      id, the verkey and the device, and without an address. */
  lemma LinkWrites(s: State, uid: string, did: string, verkey: string, metadata: Option<Json>, fcm: Option<string>,
                   newId: string) returns (t: Tables)
    requires LoadAgent(s, did).1 == AgentAt(s.tables, did)
    ensures var t1 := Link(s, uid, did, verkey, metadata, fcm, newId).tables;
            if did in s.tables.agents && s.tables.agents[did].did == did && s.tables.agents[did].verkey == verkey
               && s.tables.agents[did].fcm == fcm
            then t1 == s.tables
            else
              && AgentWritten(s.tables, t, did, verkey, metadata, fcm, newId) && did in t.agents
              && EndpointWritten(t, t1, uid, None, Some(t.agents[did].id), Some(verkey), fcm)
  {
    t := EnsureAgent(s.tables, did, verkey, metadata, fcm, newId);
    AgentWriteExact(s.tables, did, verkey, metadata, fcm, newId);
    EndpointWriteExact(t, uid, None, Some(t.agents[did].id), Some(verkey), fcm);
    LinkIs(s, uid, did, verkey, metadata, fcm, newId);
  }

  /** What a start means for the tables: nothing, or one write of the endpoint with the
      verkey, and with a new address exactly if none is stored. */
  lemma ConfigureWrites(s: State, uid: string, verkey: string, server: Option<string>)
    requires LoadEndpoint(s, uid).1 == EndpointAt(s.tables, uid)
    ensures var (s1, ok) := Configure(s, uid, verkey, server);
            var stored := uid in s.tables.endpoints && s.tables.endpoints[uid].redisPubSub.Some?;
            if !ok || (uid in s.tables.endpoints && s.tables.endpoints[uid].verkey == Some(verkey))
            then s1.tables == s.tables
            else EndpointWritten(s.tables, s1.tables, uid, if stored then None else Some(server.GetOr("") + "/" + uid),
                                 None, Some(verkey), None)
  {
    EndpointWriteExact(s.tables, uid, AddressToWrite(EndpointAt(s.tables, uid), uid, server.GetOr("")), None,
                       Some(verkey), None);
  }

  // ------------------------------------------------------- the program's form

  /** The device id in the first FCM service of the peer's document, if any. */
  method ExtractFcm(services: seq<Service>) returns (fcm: Option<string>)
    ensures fcm.None? ==> forall i :: 0 <= i < |services| ==> services[i].kind != FCM_SERVICE
    ensures fcm.Some? ==>
              exists i :: 0 <= i < |services| && services[i] == Service(FCM_SERVICE, fcm.value)
                          && forall j :: 0 <= j < i ==> services[j].kind != FCM_SERVICE
  {
    for i := 0 to |services|
      invariant forall j :: 0 <= j < i ==> services[j].kind != FCM_SERVICE
    {
      if services[i].kind == FCM_SERVICE {
        return Some(services[i].serviceEndpoint);
      }
    }
    fcm := None;
  }

  method BuildDidDocExtra(repo: Repo, uid: string, verkey: string, server: Option<string>) returns (ok: bool)
    requires WellFormed(repo.db.t)
    modifies repo`memcached, repo.db
    ensures (repo.View(), ok) == Configure(old(repo.View()), uid, verkey, server)
    ensures WellFormed(repo.db.t)
  {
    var data := repo.LoadEndpointByUid(uid);
    var needToUpdate := false;
    var stored: Option<string> := None;
    if data.Some? {
      if data.value.verkey != Some(verkey) {
        needToUpdate := true;
      }
      stored := data.value.redisPubSub;
    } else {
      needToUpdate := true;
    }
    if needToUpdate {
      var redisPubSub: Option<string> := None;
      if stored.None? {
        if server.None? {
          return false;
        }
        redisPubSub := Some(server.value + "/" + uid);
      }
      EnsureEndpointKeeps(repo.db.t, uid, redisPubSub, None, Some(verkey), None);
      repo.EnsureEndpointExists(uid, redisPubSub, None, Some(verkey), None);
    }
    ok := true;
  }

  method PostCreatePairwise(repo: Repo, uid: string, did: string, verkey: string, metadata: Option<Json>,
                            fcm: Option<string>, newId: string)
    requires WellFormed(repo.db.t)
    modifies repo`memcached, repo.db
    ensures repo.View() == Link(old(repo.View()), uid, did, verkey, metadata, fcm, newId)
    ensures WellFormed(repo.db.t)
  {
    var known := repo.LoadAgentByDid(did);
    var needUpdate := true;
    if known.Some? {
      needUpdate := known.value.did != did || known.value.verkey != verkey || known.value.fcm != fcm;
    }
    if needUpdate {
      EnsuredAgentLoads(repo.View(), did, verkey, metadata, fcm, newId);
      EnsureAgentKeeps(repo.db.t, did, verkey, metadata, fcm, newId);
      repo.EnsureAgentExists(did, verkey, metadata, fcm, newId);
      var agent := repo.LoadAgentByDid(did);
      EnsureEndpointKeeps(repo.db.t, uid, None, Some(agent.value.id), Some(verkey), fcm);
      repo.EnsureEndpointExists(uid, None, Some(agent.value.id), Some(verkey), fcm);
    }
  }

  // ------------------------------------------------------------ one onboarding

  ghost predicate DidRead(s: State, did: string) {
    LoadAgent(s, did).1 == AgentAt(s.tables, did)
  }

  ghost predicate UidRead(s: State, uid: string) {
    LoadEndpoint(s, uid).1 == EndpointAt(s.tables, uid)
  }

  /** A started onboarding that does not fail leaves an endpoint with the verkey of
      the day and an address: the old one if there was one, else one on the chosen
      server named after the endpoint. */
  lemma StartedSettles(s: State, uid: string, verkey: string, server: Option<string>)
    requires UidRead(s, uid)
    ensures Configure(s, uid, verkey, server).1
            <==> server.Some? || (uid in s.tables.endpoints
                                  && (s.tables.endpoints[uid].redisPubSub.Some?
                                      || s.tables.endpoints[uid].verkey == Some(verkey)))
    ensures var (s1, ok) := Configure(s, uid, verkey, server);
            ok ==>
              && uid in s1.tables.endpoints && s1.tables.endpoints[uid].verkey == Some(verkey)
              && (uid in s.tables.endpoints && s.tables.endpoints[uid].redisPubSub.Some? ==>
                    s1.tables.endpoints[uid].redisPubSub == s.tables.endpoints[uid].redisPubSub)
              && (uid !in s.tables.endpoints ==>
                    s1.tables.endpoints[uid] == Endpoint(uid, Some(verkey), None, Some(server.value + "/" + uid), None))
              && (uid in s.tables.endpoints ==>
                    var row := s.tables.endpoints[uid];
                    if row.verkey == Some(verkey) then s1.tables == s.tables
                    else s1.tables.endpoints[uid].redisPubSub
                         == if row.redisPubSub.Some? then row.redisPubSub else Some(server.value + "/" + uid))
              && (uid in s.tables.endpoints ==>
                    && s1.tables.endpoints[uid].agentId == s.tables.endpoints[uid].agentId
                    && s1.tables.endpoints[uid].fcm == s.tables.endpoints[uid].fcm)
    ensures var (s1, ok) := Configure(s, uid, verkey, server); !ok ==> s1.tables == s.tables
  {
  }

  /** The first onboarding of a DID. `store_their_did` has just written the very row
      that `post_create_pairwise` compares with, so the endpoint is linked to its
      agent, and the agent gets its metadata, if and only if the peer named a
      device. */
  lemma FirstOnboarding(w: World, uid: string, did: string, verkey: string, server: string, metadata: Option<Json>,
                        fcm: Option<string>, newId: string)
    requires did !in w.pairs && did !in w.s.tables.agents && uid !in w.s.tables.endpoints
    requires DidRead(w.s, did) && UidRead(w.s, uid)
    ensures var w0 := w.(s := Configure(w.s, uid, verkey, Some(server)).0);
            var w1 := Complete(w0, uid, did, verkey, metadata, fcm, newId);
            && did in w1.pairs && did in w1.s.tables.agents && uid in w1.s.tables.endpoints
            && (var e := w1.s.tables.endpoints[uid]; var a := w1.s.tables.agents[did];
                && e.verkey == Some(verkey) && e.redisPubSub == Some(server + "/" + uid)
                && a == Agent(newId, did, verkey, if fcm.Some? then metadata else None, fcm)
                && e.fcm == fcm && (e.agentId.Some? ==> e.agentId == Some(newId))
                && (e.agentId.Some? <==> fcm.Some?))
  {
    var s0 := Configure(w.s, uid, verkey, Some(server)).0;
    StartedSettles(w.s, uid, verkey, Some(server));
    ConfigureAgentSide(w.s, uid, verkey, Some(server), did);
    var s1 := StorePairwise(w.(s := s0), did, verkey, newId).s;
    assert s1.tables.agents[did] == Agent(newId, did, verkey, None, None);
    LinkIs(s1, uid, did, verkey, metadata, fcm, newId);
  }

  lemma ConfigureAgentSide(s: State, uid: string, verkey: string, server: Option<string>, did: string)
    requires CachedAgent(s, did).None?
    ensures CachedAgent(Configure(s, uid, verkey, server).0, did).None?
    ensures Configure(s, uid, verkey, server).0.tables.agents == s.tables.agents
  {
  }

  /** A later onboarding of a known DID, read exactly: the agent follows the verkey
      and keeps its id, and the endpoint is linked to it afresh if and only if the
      verkey or the device is not the stored one; else the link stays as it was. */
  lemma LaterOnboarding(w: World, uid: string, did: string, verkey: string, metadata: Option<Json>, fcm: Option<string>,
                        newId: string)
    requires did in w.pairs && did in w.s.tables.agents && uid in w.s.tables.endpoints
    requires w.s.tables.agents[did].did == did && w.s.tables.endpoints[uid].verkey == Some(verkey)
    requires DidRead(w.s, did)
    ensures var (a, e) := (w.s.tables.agents[did], w.s.tables.endpoints[uid]);
            var t := Complete(w, uid, did, verkey, metadata, fcm, newId).s.tables;
            && did in t.agents && uid in t.endpoints
            && t.agents[did].verkey == verkey && t.agents[did].id == a.id
            && t.endpoints[uid].verkey == Some(verkey) && t.endpoints[uid].redisPubSub == e.redisPubSub
            && t.endpoints[uid].agentId == (if a.verkey != verkey || a.fcm != fcm then Some(a.id) else e.agentId)
            && (if a.verkey != verkey || a.fcm != fcm
                then
                  && t.agents[did].metadata == (if metadata.Some? then metadata else a.metadata)
                  && t.agents[did].fcm == (if fcm.Some? then fcm else a.fcm)
                  && t.endpoints[uid].fcm == (if fcm.Some? then fcm else e.fcm)
                else t == w.s.tables)
  {
    LinkIs(w.s, uid, did, verkey, metadata, fcm, newId);
  }
}
