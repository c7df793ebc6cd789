/** Agent reads when nothing is promised about the writes: takeovers delete rows,
    and tables change past the repository (`store_their_did`). Reads are then no
    longer exact, but never older than a cache lifetime, as long as calls run one
    at a time. What a slow load adds to that is in `RepoSlowLoads`. */
module RepoAgents {
  import opened Base
  import opened Tables
  import opened RepoCache
  import opened RepoCoherence
  import opened RepoEndpoints

  type Names = RepoCoherence.Names

  /** A repository call, or any change of the tables that goes past it. */
  datatype Deed = Call(op: Op) | Directly(tables: Tables)

  ghost function Do(s: State, deed: Deed): State {
    match deed
    case Call(op) => Step(s, op)
    case Directly(t) => s.(tables := t)
  }

  ghost function Live(w: World, deeds: seq<Deed>): World
    decreases |deeds|
  {
    if deeds == [] then w
    else Live(World(Do(w.s, deeds[0]), w.past + [Snapshot(w.s.now, w.s.tables)]), deeds[1..])
  }

  ghost predicate AllNamed(deeds: seq<Deed>, n: Names) {
    forall i :: 0 <= i < |deeds| && deeds[i].Call? ==> RepoCoherence.Named(deeds[i].op, n)
  }

  ghost predicate DidSeen(past: seq<Snapshot>, lo: int, hi: int, did: string, row: Agent) {
    exists i :: 0 <= i < |past| && lo < past[i].now <= hi && AgentAt(past[i].tables, did) == Some(row)
  }

  ghost predicate HolderSeen(past: seq<Snapshot>, lo: int, hi: int, verkey: string, row: Agent) {
    exists i :: 0 <= i < |past| && lo < past[i].now <= hi && AgentByVerkey(past[i].tables, verkey) == Some(row)
  }

  /** A row cached under a name until `expires` was in the table when it was filled. */
  ghost predicate Dated(past: seq<Snapshot>, n: Names, name: string, row: Agent, expires: int) {
    && (name in n.dids ==> DidSeen(past, expires - TTL - 1, expires - TTL, name, row))
    && (name in n.verkeys ==> HolderSeen(past, expires - TTL - 1, expires - TTL, name, row))
  }

  ghost predicate AgentSlot(w: World, n: Names, name: string) {
    Key(Agents, name) in w.s.cache ==>
      var slot := w.s.cache[Key(Agents, name)];
      && slot.value.OfAgent? && slot.expires <= w.s.now + TTL
      && Dated(w.past, n, name, slot.value.agent, slot.expires)
  }

  ghost predicate AgentInv(w: World, n: Names) {
    n.dids !! n.verkeys && forall name :: AgentSlot(w, n, name)
  }

  lemma DatedLater(past: seq<Snapshot>, more: Snapshot, n: Names, name: string, row: Agent, expires: int)
    requires Dated(past, n, name, row, expires)
    ensures Dated(past + [more], n, name, row, expires)
  {
    var (lo, hi) := (expires - TTL - 1, expires - TTL);
    if name in n.dids {
      var i :| 0 <= i < |past| && lo < past[i].now <= hi && AgentAt(past[i].tables, name) == Some(row);
      assert (past + [more])[i] == past[i];
    }
    if name in n.verkeys {
      var i :| 0 <= i < |past| && lo < past[i].now <= hi && AgentByVerkey(past[i].tables, name) == Some(row);
      assert (past + [more])[i] == past[i];
    }
  }

  lemma NoteKeepsAgents(w: World, n: Names)
    requires AgentInv(w, n)
    ensures AgentInv(Noted(w), n) && PresentNoted(Noted(w))
  {
    forall name ensures AgentSlot(Noted(w), n, name) {
      assert AgentSlot(w, n, name);
      if Key(Agents, name) in w.s.cache {
        var slot := w.s.cache[Key(Agents, name)];
        DatedLater(w.past, Snapshot(w.s.now, w.s.tables), n, name, slot.value.agent, slot.expires);
      }
    }
  }

  /** A step that fills no agent entry. */
  lemma NoAgentFill(w: World, s1: State, n: Names)
    requires AgentInv(w, n) && w.s.now <= s1.now
    requires forall name :: SameEntry(w.s.cache, s1.cache, Key(Agents, name))
    ensures AgentInv(World(s1, w.past), n)
  {
    forall name ensures AgentSlot(World(s1, w.past), n, name) {
      assert AgentSlot(w, n, name) && SameEntry(w.s.cache, s1.cache, Key(Agents, name));
    }
  }

  /** A load that fills one, from what the table says now. */
  lemma AgentFill(w: World, n: Names, name: string, row: Agent)
    requires AgentInv(w, n) && Dated(w.past, n, name, row, w.s.now + TTL)
    ensures AgentInv(World(CacheAgent(w.s, name, row), w.past), n)
  {
    var s1 := CacheAgent(w.s, name, row);
    forall x ensures AgentSlot(World(s1, w.past), n, x) {
      assert AgentSlot(w, n, x);
    }
  }

  lemma LoadsKeep(w: World, n: Names, op: Op)
    requires AgentInv(w, n) && PresentNoted(w) && RepoCoherence.Named(op, n)
    requires op.LoadAgentOp? || op.LoadAgentViaVerkeyOp?
    ensures AgentInv(World(Step(w.s, op), w.past), n)
  {
    var here := w.past[|w.past| - 1];
    if op.LoadAgentOp? {
      var row := AgentAt(w.s.tables, op.did);
      if CachedAgent(w.s, op.did).None? && row.Some? {
        assert AgentAt(here.tables, op.did) == row;
        AgentFill(w, n, op.did, row.value);
      }
    } else {
      var row := AgentByVerkey(w.s.tables, op.verkey);
      if CachedAgent(w.s, op.verkey).None? && row.Some? {
        assert AgentByVerkey(here.tables, op.verkey) == row;
        AgentFill(w, n, op.verkey, row.value);
      }
    }
  }

  lemma OtherCallsFillNoAgent(s: State, op: Op)
    requires !op.LoadAgentOp? && !op.LoadAgentViaVerkeyOp?
    ensures forall name :: SameEntry(s.cache, Step(s, op).cache, Key(Agents, name))
    ensures s.now <= Step(s, op).now
  {
  }

  lemma DoKeeps(w: World, n: Names, deed: Deed)
    requires AgentInv(w, n) && (deed.Call? ==> RepoCoherence.Named(deed.op, n))
    ensures AgentInv(World(Do(w.s, deed), w.past + [Snapshot(w.s.now, w.s.tables)]), n)
  {
    NoteKeepsAgents(w, n);
    match deed
    case Directly(t) => NoAgentFill(Noted(w), Do(w.s, deed), n);
    case Call(op) =>
      if op.LoadAgentOp? || op.LoadAgentViaVerkeyOp? {
        LoadsKeep(Noted(w), n, op);
      } else {
        OtherCallsFillNoAgent(w.s, op);
        NoAgentFill(Noted(w), Step(w.s, op), n);
      }
  }

  lemma {:induction false} LiveKeeps(w: World, n: Names, deeds: seq<Deed>)
    requires AgentInv(w, n) && AllNamed(deeds, n)
    ensures AgentInv(Live(w, deeds), n)
    decreases |deeds|
  {
    if deeds != [] {
      DoKeeps(w, n, deeds[0]);
      LiveKeeps(World(Do(w.s, deeds[0]), w.past + [Snapshot(w.s.now, w.s.tables)]), n, deeds[1..]);
    }
  }

  /** An absent agent is never stale; a row given was in the table less than a TTL ago. */
  ghost predicate DidBounded(w: World, did: string) {
    match LoadAgent(w.s, did).1
    case Some(row) => DidSeen(w.past, w.s.now - TTL, w.s.now, did, row)
    case None => AgentAt(w.s.tables, did) == None
  }

  ghost predicate HolderBounded(w: World, verkey: string) {
    match LoadAgentViaVerkey(w.s, verkey).1
    case Some(row) => HolderSeen(w.past, w.s.now - TTL, w.s.now, verkey, row)
    case None => AgentByVerkey(w.s.tables, verkey) == None
  }

  lemma DidReadSeen(w: World, n: Names, did: string)
    requires AgentInv(w, n) && PresentNoted(w) && did in n.dids
    ensures DidBounded(w, did)
  {
    var r := LoadAgent(w.s, did).1;
    if CachedAgent(w.s, did).Some? {
      assert AgentSlot(w, n, did);
      var filled := w.s.cache[Key(Agents, did)].expires - TTL;
      var i :| 0 <= i < |w.past| && filled - 1 < w.past[i].now <= filled && AgentAt(w.past[i].tables, did) == r;
      assert w.s.now - TTL < w.past[i].now <= w.s.now;
    } else if r.Some? {
      assert AgentAt(w.past[|w.past| - 1].tables, did) == r;
    }
  }

  lemma HolderReadSeen(w: World, n: Names, verkey: string)
    requires AgentInv(w, n) && PresentNoted(w) && verkey in n.verkeys
    ensures HolderBounded(w, verkey)
  {
    var r := LoadAgentViaVerkey(w.s, verkey).1;
    if CachedAgent(w.s, verkey).Some? {
      assert AgentSlot(w, n, verkey);
      var filled := w.s.cache[Key(Agents, verkey)].expires - TTL;
      var i :| 0 <= i < |w.past| && filled - 1 < w.past[i].now <= filled
            && AgentByVerkey(w.past[i].tables, verkey) == r;
      assert w.s.now - TTL < w.past[i].now <= w.s.now;
    } else if r.Some? {
      assert AgentByVerkey(w.past[|w.past| - 1].tables, verkey) == r;
    }
  }

  /** Agent reads at time t, after any sequence of repository calls that run one at
      a time, with any takeovers and any changes of the tables past the repository:
      the row given, by DID or by verkey, is what the table said at some moment in
      (t - TTL, t]. */
  lemma AgentStaleness(t: Tables, now: int, n: Names, deeds: seq<Deed>, did: string, verkey: string)
    requires n.dids !! n.verkeys && AllNamed(deeds, n) && did in n.dids && verkey in n.verkeys
    ensures DidBounded(Noted(Live(World(State(t, map[], now), []), deeds)), did)
    ensures HolderBounded(Noted(Live(World(State(t, map[], now), []), deeds)), verkey)
  {
    var w := World(State(t, map[], now), []);
    LiveKeeps(w, n, deeds);
    NoteKeepsAgents(Live(w, deeds), n);
    DidReadSeen(Noted(Live(w, deeds)), n, did);
    HolderReadSeen(Noted(Live(w, deeds)), n, verkey);
  }
}
