/** Where the repository's cache is exact for agents, by DID and by verkey, as long
    as calls run one at a time. The other exact reads are in `RepoExact`; calls
    that overlap are in `RepoInterleaved`. */
module RepoCoherence {
  import opened Base
  import opened Tables
  import opened RepoCache

  /** Names are used for one purpose: DIDs and verkeys are disjoint, and neither
      is empty. Both share the cache's `agents` name space. */
  datatype Names = Names(dids: iset<string>, verkeys: iset<string>)

  ghost predicate Disjoint(n: Names) {
    n.dids !! n.verkeys && "" !in n.verkeys
  }

  ghost predicate AgentsNamed(t: Tables, n: Names) {
    forall d :: d in t.agents ==> d in n.dids && t.agents[d].verkey in n.verkeys
  }

  /** A cached agent row under its DID is the table's row. */
  ghost predicate DidSlotOk(s: State, d: string) {
    CachedAgent(s, d).Some? ==> CachedAgent(s, d) == AgentAt(s.tables, d)
  }

  /** A cached agent row under a verkey is a current row with that verkey, and the
      reverse index leads from its DID to the verkey at least as long. */
  ghost predicate VerkeySlotOk(s: State, v: string) {
    CachedAgent(s, v).Some? ==>
      var a := CachedAgent(s, v).value;
      var index := Key(AgentsVerkeys, a.did);
      && a.verkey == v && AgentAt(s.tables, a.did) == Some(a)
      && index in s.cache && s.cache[index].value == OfVerkey(v)
      && s.cache[Key(Agents, v)].expires <= s.cache[index].expires
  }

  /** A live reverse-index entry names the DID's current verkey. */
  ghost predicate IndexOk(s: State, d: string) {
    Get(s, Key(AgentsVerkeys, d)).Some? ==>
      d in s.tables.agents && Get(s, Key(AgentsVerkeys, d)) == Some(OfVerkey(s.tables.agents[d].verkey))
  }

  ghost predicate Coherent(s: State, n: Names) {
    && Disjoint(n) && WellFormed(s.tables) && AgentsNamed(s.tables, n)
    && (forall k :: k in s.cache ==> s.cache[k].expires <= s.now + TTL)
    && (forall d :: d in n.dids ==> DidSlotOk(s, d))
    && (forall v :: v in n.verkeys ==> VerkeySlotOk(s, v))
    && (forall d :: IndexOk(s, d))
  }

  /** The call uses names as what they are. */
  ghost predicate Named(op: Op, n: Names) {
    match op
    case EnsureAgentOp(did, verkey, _, _, _) => did in n.dids && verkey in n.verkeys
    case LoadAgentOp(did) => did in n.dids
    case LoadAgentViaVerkeyOp(verkey) => verkey in n.verkeys
    case _ => true
  }

  /** The call does not take a verkey over from another DID. */
  ghost predicate NoTakeover(s: State, op: Op) {
    op.EnsureAgentOp? ==> AgentRivals(s.tables, op.did, op.verkey) == {}
  }

  ghost predicate Legal(s: State, ops: seq<Op>, n: Names)
    decreases |ops|
  {
    ops == [] || (Named(ops[0], n) && NoTakeover(s, ops[0]) && Legal(Step(s, ops[0]), ops[1..], n))
  }

  lemma InvalidateAgent(s: State, did: string, n: Names)
    requires Coherent(s, n) && did in n.dids
    ensures var s1 := Invalidate(s, Key(Agents, did), did);
            && Coherent(s1, n) && CachedAgent(s1, did).None?
            && (forall v :: v in n.verkeys && CachedAgent(s1, v).Some? ==> CachedAgent(s1, v).value.did != did)
            && Get(s1, Key(AgentsVerkeys, did)).None?
  {
    var s1 := Invalidate(s, Key(Agents, did), did);
    assert IndexOk(s, did);
    forall v | v in n.verkeys
      ensures VerkeySlotOk(s1, v)
      ensures CachedAgent(s1, v).Some? ==> CachedAgent(s1, v).value.did != did {
      assert VerkeySlotOk(s, v);
    }
    forall d | d in n.dids ensures DidSlotOk(s1, d) {
      assert DidSlotOk(s, d);
    }
    forall d ensures IndexOk(s1, d) {
      assert IndexOk(s, d);
    }
  }

  lemma EnsureAgentCoherent(s: State, did: string, verkey: string, metadata: Option<Json>, fcm: Option<string>,
                            newId: string, n: Names)
    requires Coherent(s, n) && did in n.dids && verkey in n.verkeys
    requires AgentRivals(s.tables, did, verkey) == {}
    ensures Coherent(CallEnsureAgent(s, did, verkey, metadata, fcm, newId), n)
  {
    var s1 := Invalidate(s, Key(Agents, did), did);
    var s2 := CallEnsureAgent(s, did, verkey, metadata, fcm, newId);
    InvalidateAgent(s, did, n);
    EnsureAgentKeeps(s.tables, did, verkey, metadata, fcm, newId);
    assert s.tables.agents - {} == s.tables.agents;
    assert forall d :: d != did ==> AgentAt(s2.tables, d) == AgentAt(s.tables, d);
    forall v | v in n.verkeys ensures VerkeySlotOk(s2, v) {
      assert VerkeySlotOk(s1, v);
    }
    forall d | d in n.dids ensures DidSlotOk(s2, d) {
      assert DidSlotOk(s1, d);
    }
    forall d ensures IndexOk(s2, d) {
      assert IndexOk(s1, d);
    }
  }

  lemma CachedVerkeySlot(s: State, name: string, a: Agent, n: Names, v: string)
    requires Coherent(s, n) && AgentAt(s.tables, a.did) == Some(a) && (name == a.did || name == a.verkey)
    requires v in n.verkeys
    ensures VerkeySlotOk(CacheAgent(s, name, a), v)
  {
    assert VerkeySlotOk(s, v);
  }

  lemma CachedDidSlot(s: State, name: string, a: Agent, n: Names, d: string)
    requires Coherent(s, n) && AgentAt(s.tables, a.did) == Some(a) && (name == a.did || name == a.verkey)
    requires d in n.dids
    ensures DidSlotOk(CacheAgent(s, name, a), d)
  {
    assert DidSlotOk(s, d);
  }

  lemma CachedIndex(s: State, name: string, a: Agent, d: string)
    requires IndexOk(s, d) && AgentAt(s.tables, a.did) == Some(a)
    ensures IndexOk(CacheAgent(s, name, a), d)
  {
  }

  /** Caching a current row under its DID or its verkey. */
  lemma CacheAgentCoherent(s: State, name: string, a: Agent, n: Names)
    requires Coherent(s, n) && AgentAt(s.tables, a.did) == Some(a)
    requires name == a.did || name == a.verkey
    ensures Coherent(CacheAgent(s, name, a), n)
  {
    var s1 := CacheAgent(s, name, a);
    forall v | v in n.verkeys ensures VerkeySlotOk(s1, v) {
      CachedVerkeySlot(s, name, a, n, v);
    }
    forall d | d in n.dids ensures DidSlotOk(s1, d) {
      CachedDidSlot(s, name, a, n, d);
    }
    forall d ensures IndexOk(s1, d) {
      CachedIndex(s, name, a, d);
    }
  }

  /** Changes outside the agents' two name spaces do not matter. */
  ghost predicate SameAgentSide(s: State, s1: State) {
    && s1.tables.agents == s.tables.agents && s1.now == s.now
    && (forall k: Key :: k.space == Agents || k.space == AgentsVerkeys ==>
          (k in s.cache <==> k in s1.cache) && (k in s.cache ==> s1.cache[k] == s.cache[k]))
    && (forall k :: k in s1.cache ==> s1.cache[k].expires <= s.now + TTL)
  }

  lemma OtherSide(s: State, s1: State, n: Names)
    requires Coherent(s, n) && SameAgentSide(s, s1) && WellFormed(s1.tables)
    ensures Coherent(s1, n)
  {
    forall v | v in n.verkeys ensures VerkeySlotOk(s1, v) {
      assert VerkeySlotOk(s, v);
    }
    forall d | d in n.dids ensures DidSlotOk(s1, d) {
      assert DidSlotOk(s, d);
    }
    forall d ensures IndexOk(s1, d) {
      assert IndexOk(s, d);
    }
  }

  /** An endpoint call consults the agents' reverse index; even if its uid were a
      DID it would only drop entries that belong together. */
  lemma EnsureEndpointCoherent(s: State, uid: string, redis: Option<string>, agentId: Option<string>,
                               verkey: Option<string>, fcm: Option<string>, n: Names)
    requires Coherent(s, n)
    ensures Coherent(CallEnsureEndpoint(s, uid, redis, agentId, verkey, fcm), n)
  {
    var s1 := Invalidate(s, Key(Endpoints, uid), uid);
    forall v | v in n.verkeys ensures VerkeySlotOk(s1, v) {
      assert VerkeySlotOk(s, v);
    }
    forall d | d in n.dids ensures DidSlotOk(s1, d) {
      assert DidSlotOk(s, d);
    }
    forall d ensures IndexOk(s1, d) {
      assert IndexOk(s, d);
    }
    EnsureEndpointKeeps(s.tables, uid, redis, agentId, verkey, fcm);
    OtherSide(s1, CallEnsureEndpoint(s, uid, redis, agentId, verkey, fcm), n);
  }

  lemma AdvanceCoherent(s: State, d: nat, n: Names)
    requires Coherent(s, n)
    ensures Coherent(s.(now := s.now + d), n)
  {
    var s1 := s.(now := s.now + d);
    forall v | v in n.verkeys ensures VerkeySlotOk(s1, v) {
      assert VerkeySlotOk(s, v);
    }
    forall x | x in n.dids ensures DidSlotOk(s1, x) {
      assert DidSlotOk(s, x);
    }
    forall x ensures IndexOk(s1, x) {
      assert IndexOk(s, x);
    }
  }

  lemma LoadsCoherent(s: State, op: Op, n: Names)
    requires Coherent(s, n) && Named(op, n) && (op.LoadAgentOp? || op.LoadAgentViaVerkeyOp?)
    ensures Coherent(Step(s, op), n)
  {
    if op.LoadAgentOp? {
      if op.did in s.tables.agents {
        CacheAgentCoherent(s, op.did, s.tables.agents[op.did], n);
      }
    } else if d :| HoldsVerkey(s.tables, d, op.verkey) {
      AgentByVerkeyIs(s.tables, d);
      CacheAgentCoherent(s, op.verkey, s.tables.agents[d], n);
    }
  }

  lemma StepCoherent(s: State, op: Op, n: Names)
    requires Coherent(s, n) && Named(op, n) && NoTakeover(s, op)
    ensures Coherent(Step(s, op), n)
  {
    match op
    case EnsureAgentOp(did, verkey, metadata, fcm, newId) =>
      EnsureAgentCoherent(s, did, verkey, metadata, fcm, newId, n);
    case EnsureEndpointOp(uid, redis, agentId, verkey, fcm) =>
      EnsureEndpointCoherent(s, uid, redis, agentId, verkey, fcm, n);
    case AdvanceOp(d) => AdvanceCoherent(s, d, n);
    case LoadAgentOp(_) => LoadsCoherent(s, op, n);
    case LoadAgentViaVerkeyOp(_) => LoadsCoherent(s, op, n);
    case _ => OthersCoherent(s, op, n);
  }

  lemma PutSide(s: State, s1: State, k: Key, v: Value)
    requires SameAgentSide(s, s1) && k.space != Agents && k.space != AgentsVerkeys
    ensures SameAgentSide(s, Put(s1, k, v))
  {
  }

  lemma CacheEndpointSide(s: State, name: string, e: Endpoint)
    requires SameAgentSide(s, s)
    ensures SameAgentSide(s, CacheEndpoint(s, name, e))
  {
  }

  lemma LoadEndpointSide(s: State, uid: string)
    requires SameAgentSide(s, s)
    ensures SameAgentSide(s, LoadEndpoint(s, uid).0) && LoadEndpoint(s, uid).0.tables == s.tables
  {
  }

  lemma EndpointLoadsSide(s: State, op: Op)
    requires SameAgentSide(s, s)
    requires op.LoadEndpointOp? || op.LoadEndpointViaVerkeyOp? || op.LoadEndpointViaRoutingKeyOp?
    ensures SameAgentSide(s, Step(s, op)) && Step(s, op).tables == s.tables
  {
    match op
    case LoadEndpointOp(uid) => LoadEndpointSide(s, uid);
    case LoadEndpointViaVerkeyOp(verkey) =>
      var row := EndpointByVerkey(s.tables, verkey);
      if row.Some? { CacheEndpointSide(s, verkey, row.value); }
    case LoadEndpointViaRoutingKeyOp(key) =>
      var owner := OwnerOf(s.tables.routingKeys, key);
      if owner.Some? {
        var (s1, row) := LoadEndpoint(s, owner.value);
        LoadEndpointSide(s, owner.value);
        if row.Some? { PutSide(s, s1, Key(Endpoints, key), OfEndpoint(row.value)); }
      }
  }

  lemma OthersCoherent(s: State, op: Op, n: Names)
    requires Coherent(s, n)
    requires !op.EnsureAgentOp? && !op.EnsureEndpointOp? && !op.AdvanceOp?
    requires !op.LoadAgentOp? && !op.LoadAgentViaVerkeyOp?
    ensures Coherent(Step(s, op), n)
  {
    if op.LoadEndpointOp? || op.LoadEndpointViaVerkeyOp? || op.LoadEndpointViaRoutingKeyOp? {
      EndpointLoadsSide(s, op);
    } else {
      KeysAndSettingsSide(s, op);
    }
    OtherSide(s, Step(s, op), n);
  }

  lemma KeysAndSettingsSide(s: State, op: Op)
    requires forall k :: k in s.cache ==> s.cache[k].expires <= s.now + TTL
    requires op.AddKeyOp? || op.RemoveKeyOp? || op.ListKeysOp? || op.GetSettingOp? || op.SetSettingOp?
    ensures SameAgentSide(s, Step(s, op))
    ensures Step(s, op).tables.endpoints == s.tables.endpoints
  {
  }

  lemma {:induction false} RunCoherent(s: State, ops: seq<Op>, n: Names)
    requires Coherent(s, n) && Legal(s, ops, n)
    ensures Coherent(Run(s, ops), n)
    decreases |ops|
  {
    if ops != [] {
      StepCoherent(s, ops[0], n);
      RunCoherent(Step(s, ops[0]), ops[1..], n);
    }
  }

  /** Both agent reads answer what the table says. */
  ghost predicate ReadsExact(s: State, n: Names) {
    && (forall d :: d in n.dids ==> LoadAgent(s, d).1 == AgentAt(s.tables, d))
    && (forall v :: v in n.verkeys ==> LoadAgentViaVerkey(s, v).1 == AgentByVerkey(s.tables, v))
  }

  lemma CoherentReads(s: State, n: Names)
    requires Coherent(s, n)
    ensures ReadsExact(s, n)
  {
    forall d | d in n.dids ensures LoadAgent(s, d).1 == AgentAt(s.tables, d) {
      assert DidSlotOk(s, d);
    }
    forall v | v in n.verkeys ensures LoadAgentViaVerkey(s, v).1 == AgentByVerkey(s.tables, v) {
      assert VerkeySlotOk(s, v);
      if CachedAgent(s, v).Some? {
        AgentByVerkeyIs(s.tables, CachedAgent(s, v).value.did);
      }
    }
  }

  /** A cache that starts empty is coherent with any well-formed tables. */
  lemma EmptyCacheCoherent(t: Tables, now: int, n: Names)
    requires Disjoint(n) && WellFormed(t) && AgentsNamed(t, n)
    ensures Coherent(State(t, map[], now), n)
  {
  }

  /** Exact agent reads: after any sequence of repository calls and any passing of
      time, loading an agent by DID or by verkey gives exactly the table's row. */
  lemma AgentReadsExact(s: State, ops: seq<Op>, n: Names)
    requires Coherent(s, n) && Legal(s, ops, n)
    ensures ReadsExact(Run(s, ops), n)
  {
    RunCoherent(s, ops, n);
    CoherentReads(Run(s, ops), n);
  }

  /** The invalidation of `did` leaves whatever is cached of the victim. */
  lemma VictimEntriesStay(s: State, did: string, verkey: string, victim: string, n: Names)
    requires Coherent(s, n) && did in n.dids && verkey in n.verkeys
    requires AgentRivals(s.tables, did, verkey) == {victim}
    ensures victim in n.dids && victim != did && victim in s.tables.agents && s.tables.agents[victim].verkey == verkey
    ensures var s1 := Invalidate(s, Key(Agents, did), did);
            CachedAgent(s1, victim) == CachedAgent(s, victim) && CachedAgent(s1, verkey) == CachedAgent(s, verkey)
  {
    assert victim in AgentRivals(s.tables, did, verkey);
    assert IndexOk(s, did);
  }

  lemma OthersUntouched(t: Tables, did: string, verkey: string, metadata: Option<Json>, fcm: Option<string>,
                        newId: string, victim: string)
    requires AgentRivals(t, did, verkey) == {victim}
    ensures forall d :: d != did && d != victim ==>
              AgentAt(EnsureAgent(t, did, verkey, metadata, fcm, newId), d) == AgentAt(t, d)
  {
  }

  ghost predicate CleanTakeover(s: State, did: string, verkey: string, victim: string, n: Names) {
    && Coherent(s, n) && did in n.dids && verkey in n.verkeys
    && AgentRivals(s.tables, did, verkey) == {victim}
    && CachedAgent(s, victim).None? && CachedAgent(s, verkey).None?
  }

  lemma CleanByDid(s: State, did: string, verkey: string, metadata: Option<Json>, fcm: Option<string>,
                   newId: string, victim: string, n: Names, d: string)
    requires CleanTakeover(s, did, verkey, victim, n) && d in n.dids
    ensures var s2 := CallEnsureAgent(s, did, verkey, metadata, fcm, newId);
            LoadAgent(s2, d).1 == AgentAt(s2.tables, d)
  {
  }

  lemma CleanByVerkey(s: State, did: string, verkey: string, metadata: Option<Json>, fcm: Option<string>,
                      newId: string, victim: string, n: Names, v: string)
    requires CleanTakeover(s, did, verkey, victim, n) && v in n.verkeys
    ensures var s2 := CallEnsureAgent(s, did, verkey, metadata, fcm, newId);
            LoadAgentViaVerkey(s2, v).1 == AgentByVerkey(s2.tables, v)
  {
    var s2 := CallEnsureAgent(s, did, verkey, metadata, fcm, newId);
    InvalidateAgent(s, did, n);
    VictimEntriesStay(s, did, verkey, victim, n);
    OthersUntouched(s.tables, did, verkey, metadata, fcm, newId, victim);
    EnsureAgentKeeps(s.tables, did, verkey, metadata, fcm, newId);
    assert VerkeySlotOk(Invalidate(s, Key(Agents, did), did), v);
    if CachedAgent(s2, v).Some? {
      AgentByVerkeyIs(s2.tables, CachedAgent(s2, v).value.did);
    }
  }

  /** The new state differs from a coherent one only in the victim's row. */
  lemma TakeoverClean(s: State, did: string, verkey: string, metadata: Option<Json>, fcm: Option<string>,
                      newId: string, victim: string, n: Names)
    requires CleanTakeover(s, did, verkey, victim, n)
    ensures ReadsExact(CallEnsureAgent(s, did, verkey, metadata, fcm, newId), n)
  {
    var s2 := CallEnsureAgent(s, did, verkey, metadata, fcm, newId);
    forall d | d in n.dids ensures LoadAgent(s2, d).1 == AgentAt(s2.tables, d) {
      CleanByDid(s, did, verkey, metadata, fcm, newId, victim, n, d);
    }
    forall v | v in n.verkeys ensures LoadAgentViaVerkey(s2, v).1 == AgentByVerkey(s2.tables, v) {
      CleanByVerkey(s, did, verkey, metadata, fcm, newId, victim, n, v);
    }
  }

  lemma TakeoverStale(s: State, did: string, verkey: string, metadata: Option<Json>, fcm: Option<string>,
                      newId: string, victim: string, n: Names)
    requires Coherent(s, n) && did in n.dids && verkey in n.verkeys
    requires AgentRivals(s.tables, did, verkey) == {victim}
    requires CachedAgent(s, victim).Some? || CachedAgent(s, verkey).Some?
    ensures !ReadsExact(CallEnsureAgent(s, did, verkey, metadata, fcm, newId), n)
  {
    var s2 := CallEnsureAgent(s, did, verkey, metadata, fcm, newId);
    VictimEntriesStay(s, did, verkey, victim, n);
    EnsureAgentKeeps(s.tables, did, verkey, metadata, fcm, newId);
    assert victim in AgentRivals(s.tables, did, verkey);
    assert AgentAt(s2.tables, victim).None?;
    if CachedAgent(s, victim).Some? {
      assert LoadAgent(s2, victim).1 != AgentAt(s2.tables, victim);
    } else {
      assert VerkeySlotOk(s, verkey);
      AgentByVerkeyIs(s.tables, victim);
      AgentByVerkeyIs(s.tables, CachedAgent(s, verkey).value.did);
      AgentByVerkeyIs(s2.tables, did);
      assert LoadAgentViaVerkey(s2, verkey).1 != AgentByVerkey(s2.tables, verkey);
    }
  }

  /** A takeover is harmless exactly as long as nothing of the row it deletes is
      cached, neither under its DID nor under the verkey. */
  lemma TakeoverIff(s: State, did: string, verkey: string, metadata: Option<Json>, fcm: Option<string>,
                    newId: string, victim: string, n: Names)
    requires Coherent(s, n) && did in n.dids && verkey in n.verkeys
    requires AgentRivals(s.tables, did, verkey) == {victim}
    ensures ReadsExact(CallEnsureAgent(s, did, verkey, metadata, fcm, newId), n)
            <==> CachedAgent(s, victim).None? && CachedAgent(s, verkey).None?
  {
    if CachedAgent(s, victim).None? && CachedAgent(s, verkey).None? {
      TakeoverClean(s, did, verkey, metadata, fcm, newId, victim, n);
    } else {
      TakeoverStale(s, did, verkey, metadata, fcm, newId, victim, n);
    }
  }
}
