/** Sessions that onboard at the same time. `build_did_doc_extra` loads the
    endpoint, waits for a redis server to be chosen, and writes; other sessions run
    in between, and the write carries what was loaded before. */
module OnboardingRuns {
  import opened Base
  import opened Tables
  import opened RepoCache
  import opened RepoExact
  import opened Onboarding
  import RepoEndpoints

  /** A session inside `build_did_doc_extra`. `overtaken` records that another
      session has written an address for the same endpoint since the load. */
  datatype Session = Session(uid: string, verkey: string, row: Option<Endpoint>, server: Option<string>,
                             overtaken: bool)

  datatype House = House(s: State, sessions: map<nat, Session>)

  datatype Event =
    | Loads(i: nat, did: string, verkey: string)
    | Chooses(i: nat, server: Option<string>)      // None: no server is reachable, the session fails
    | Writes(i: nat)
    | StoresPeer(did: string, verkey: string, newId: string)   // `store_their_did`, past the repository
    | Elsewhere(op: Op)                            // any other repository call, `post_create_pairwise` included

  /** The address this session's write carries. */
  function Carried(x: Session): Option<string> {
    if x.row.Some? && x.row.value.redisPubSub.Some? then None
    else if x.server.Some? then Some(x.server.value + "/" + x.uid)
    else None
  }

  predicate Ready(x: Session) {
    NeedsEndpoint(x.row, x.verkey) && ((x.row.Some? && x.row.value.redisPubSub.Some?) || x.server.Some?)
  }

  function Overtake(sessions: map<nat, Session>, uid: string): map<nat, Session> {
    map i | i in sessions :: if sessions[i].uid == uid then sessions[i].(overtaken := true) else sessions[i]
  }

  function Written(h: House, i: nat): House
    requires i in h.sessions
  {
    var x := h.sessions[i];
    var others := h.sessions - {i};
    House(CallEnsureEndpoint(h.s, x.uid, Carried(x), None, Some(x.verkey), None),
          if Carried(x).Some? then Overtake(others, x.uid) else others)
  }

  ghost function Happen(h: House, hash: string -> string, e: Event): House {
    match e
    case Loads(i, did, verkey) =>
      if i in h.sessions then h
      else
        var (s1, row) := LoadEndpoint(h.s, hash(did));
        House(s1, h.sessions[i := Session(hash(did), verkey, row, None, false)])
    case Chooses(i, server) =>
      if i !in h.sessions then h
      else if server.None? then h.(sessions := h.sessions - {i})
      else h.(sessions := h.sessions[i := h.sessions[i].(server := server)])
    case Writes(i) =>
      if i in h.sessions && Ready(h.sessions[i]) then Written(h, i) else h.(sessions := h.sessions - {i})
    case StoresPeer(did, verkey, newId) =>
      h.(s := h.s.(tables := EnsureAgent(h.s.tables, did, verkey, None, None, newId)))
    case Elsewhere(op) => h.(s := Step(h.s, op))
  }

  ghost function Days(h: House, hash: string -> string, es: seq<Event>): House
    decreases |es|
  {
    if es == [] then h else Days(Happen(h, hash, es[0]), hash, es[1..])
  }

  /** A session that nobody interrupts does what `Configure` says. */
  lemma UninterruptedStart(h: House, hash: string -> string, i: nat, did: string, verkey: string,
                           server: Option<string>)
    requires i !in h.sessions
    ensures var h1 := Happen(h, hash, Loads(i, did, verkey));
            var x := h1.sessions[i];
            var wants := Carried(x.(server := Some(""))).Some? && NeedsEndpoint(x.row, verkey);
            var h2 := if wants then Happen(h1, hash, Chooses(i, server)) else h1;
            Happen(h2, hash, Writes(i)).s == Configure(h.s, hash(did), verkey, server).0
  {
  }

  // ----------------------------------------------- when an address is changed

  /** From one table to the next, no endpoint disappears and no address changes. */
  ghost predicate AddressesKept(t: Tables, u: Tables) {
    forall e :: e in t.endpoints ==>
      && e in u.endpoints
      && (t.endpoints[e].redisPubSub.Some? ==> u.endpoints[e].redisPubSub == t.endpoints[e].redisPubSub)
  }

  /** The endpoint has an address, and not this one. */
  predicate HasOther(t: Tables, uid: string, address: Option<string>) {
    uid in t.endpoints && t.endpoints[uid].redisPubSub.Some? && t.endpoints[uid].redisPubSub != address
  }

  /** A write of these values takes an endpoint's verkey over, or carries an address
      for an endpoint that has another one by now. */
  ghost predicate Collides(t: Tables, uid: string, verkey: Option<string>, address: Option<string>) {
    || EndpointRivals(t, uid, verkey) != {}
    || (address.Some? && HasOther(t, uid, address))
  }

  /** The events that do harm. A session's write carries an address exactly if the
      row it loaded had none. */
  ghost predicate Harmful(h: House, e: Event) {
    match e
    case Writes(i) =>
      && i in h.sessions && Ready(h.sessions[i])
      && Collides(h.s.tables, h.sessions[i].uid, Some(h.sessions[i].verkey), Carried(h.sessions[i]))
    case Elsewhere(EnsureEndpointOp(uid, redis, _, verkey, _)) => Collides(h.s.tables, uid, verkey, redis)
    case _ => false
  }

  lemma WriteKeepsIff(t: Tables, uid: string, address: Option<string>, agentId: Option<string>, verkey: Option<string>,
                      fcm: Option<string>)
    ensures AddressesKept(t, EnsureEndpoint(t, uid, address, agentId, verkey, fcm))
            <==> !Collides(t, uid, verkey, address)
  {
    var rivals := EndpointRivals(t, uid, verkey);
    if rivals != {} {
      var u :| u in rivals;
      assert u in t.endpoints && u !in EnsureEndpoint(t, uid, address, agentId, verkey, fcm).endpoints;
    }
  }

  lemma ElsewhereEndpoints(s: State, op: Op)
    requires !op.EnsureEndpointOp?
    ensures Step(s, op).tables.endpoints == s.tables.endpoints
  {
  }

  /** Exactly these events change a stored address or delete an endpoint. */
  lemma HarmfulIff(h: House, hash: string -> string, e: Event)
    ensures AddressesKept(h.s.tables, Happen(h, hash, e).s.tables) <==> !Harmful(h, e)
  {
    match e
    case Writes(i) =>
      if i in h.sessions && Ready(h.sessions[i]) {
        var x := h.sessions[i];
        WriteKeepsIff(h.s.tables, x.uid, Carried(x), None, Some(x.verkey), None);
      }
    case Elsewhere(op) =>
      if op.EnsureEndpointOp? {
        WriteKeepsIff(h.s.tables, op.uid, op.redis, op.agentId, op.newVerkey, op.fcm);
      } else {
        ElsewhereEndpoints(h.s, op);
      }
    case _ =>
  }

  ghost predicate KeptThroughout(h: House, hash: string -> string, es: seq<Event>)
    decreases |es|
  {
    if es == [] then true
    else
      var h1 := Happen(h, hash, es[0]);
      AddressesKept(h.s.tables, h1.s.tables) && KeptThroughout(h1, hash, es[1..])
  }

  ghost predicate Harmless(h: House, hash: string -> string, es: seq<Event>)
    decreases |es|
  {
    es == [] || (!Harmful(h, es[0]) && Harmless(Happen(h, hash, es[0]), hash, es[1..]))
  }

  /** For every interleaving, with whatever the cache answers: endpoints and their
      stored addresses stay as they are throughout if and only if no write takes an
      endpoint over and none brings an address, because none was loaded, to an
      endpoint that has another one by now. */
  lemma {:induction false} AddressesKeptIff(h: House, hash: string -> string, es: seq<Event>)
    ensures KeptThroughout(h, hash, es) <==> Harmless(h, hash, es)
    decreases |es|
  {
    if es != [] {
      HarmfulIff(h, hash, es[0]);
      AddressesKeptIff(Happen(h, hash, es[0]), hash, es[1..]);
    }
  }

  /** Two first sessions of one DID that overlap: both load nothing, choose servers
      of their own, and the second write replaces the address of the first. */
  lemma FirstStartsRace(s: State, hash: string -> string, did: string, verkey: string, verkey2: string, a: string,
                        b: string)
    requires a != b && hash(did) !in s.tables.endpoints && CachedEndpoint(s, hash(did)).None?
    ensures var loaded := Happen(Happen(House(s, map[]), hash, Loads(0, did, verkey)), hash, Loads(1, did, verkey2));
            var chosen := Happen(Happen(loaded, hash, Chooses(0, Some(a))), hash, Chooses(1, Some(b)));
            var h1 := Happen(chosen, hash, Writes(0));
            var h2 := Happen(h1, hash, Writes(1));
            && hash(did) in h1.s.tables.endpoints && hash(did) in h2.s.tables.endpoints
            && h1.s.tables.endpoints[hash(did)].redisPubSub == Some(a + "/" + hash(did))
            && h2.s.tables.endpoints[hash(did)].redisPubSub == Some(b + "/" + hash(did))
            && a + "/" + hash(did) != b + "/" + hash(did)
  {
    var uid := hash(did);
    var first := Session(uid, verkey, None, Some(a), false);
    var second := Session(uid, verkey2, None, Some(b), false);
    BothChoose(s, hash, did, verkey, verkey2, a, b);
    BothWrite(s, first, second);
    SuffixKept(a, b, "/" + uid);
    assert a + "/" + uid == a + ("/" + uid) && b + "/" + uid == b + ("/" + uid);
  }

  lemma BothChoose(s: State, hash: string -> string, did: string, verkey: string, verkey2: string, a: string, b: string)
    requires hash(did) !in s.tables.endpoints && CachedEndpoint(s, hash(did)).None?
    ensures var loaded := Happen(Happen(House(s, map[]), hash, Loads(0, did, verkey)), hash, Loads(1, did, verkey2));
            Happen(Happen(loaded, hash, Chooses(0, Some(a))), hash, Chooses(1, Some(b)))
              == House(s, map[0 := Session(hash(did), verkey, None, Some(a), false),
                              1 := Session(hash(did), verkey2, None, Some(b), false)])
  {
    assert LoadEndpoint(s, hash(did)) == (s, None);
  }

  lemma BothWrite(s: State, first: Session, second: Session)
    requires first.row.None? && second.row.None? && first.server.Some? && second.server.Some? && first.uid == second.uid
    ensures var h1 := Written(House(s, map[0 := first, 1 := second]), 0);
            && h1.sessions == map[1 := second.(overtaken := true)]
            && first.uid in h1.s.tables.endpoints
            && (first.uid !in s.tables.endpoints ==> h1.s.tables.endpoints[first.uid].redisPubSub == Carried(first))
            && first.uid in Written(h1, 1).s.tables.endpoints
            && Written(h1, 1).s.tables.endpoints[first.uid].redisPubSub == Carried(second)
  {
    var h1 := Written(House(s, map[0 := first, 1 := second]), 0);
    assert Overtake(map[1 := second], first.uid) == map[1 := second.(overtaken := true)];
    assert map[0 := first, 1 := second] - {0} == map[1 := second];
  }

  lemma SuffixKept(a: string, b: string, tail: string)
    ensures a + tail == b + tail <==> a == b
  {
    if a + tail == b + tail {
      assert |a| == |b|;
      assert a == (a + tail)[..|a|] && b == (b + tail)[..|b|];
    }
  }

  // ----------------------------------------- sessions that do not overlap there

  /** No takeover, names used as what they are, no address written elsewhere, and a
      session that is going to write an address has not been overtaken. */
  ghost predicate Orderly(h: House, hash: string -> string, e: Event, n: RepoEndpoints.Names) {
    match e
    case Loads(_, did, _) => hash(did) in n.uids
    case Writes(i) =>
      i in h.sessions ==>
        && EndpointRivals(h.s.tables, h.sessions[i].uid, Some(h.sessions[i].verkey)) == {}
        && (Carried(h.sessions[i]).Some? ==> !h.sessions[i].overtaken)
    case Elsewhere(op) =>
      RepoEndpoints.Named(op, n) && NoTakeover(h.s, op) && (op.EnsureEndpointOp? ==> op.redis.None?)
    case _ => true
  }

  ghost predicate AllOrderly(h: House, hash: string -> string, es: seq<Event>, n: RepoEndpoints.Names)
    decreases |es|
  {
    es == [] || (Orderly(h, hash, es[0], n) && AllOrderly(Happen(h, hash, es[0]), hash, es[1..], n))
  }

  /** What a session loaded is still true of the address, unless it was overtaken. */
  ghost predicate LoadedTruly(t: Tables, x: Session, n: RepoEndpoints.Names) {
    && x.uid in n.uids
    && (!x.overtaken && (x.row.None? || x.row.value.redisPubSub.None?) ==>
          x.uid !in t.endpoints || t.endpoints[x.uid].redisPubSub.None?)
  }

  ghost predicate HouseOk(h: House, n: RepoEndpoints.Names) {
    UidsOk(h.s, n) && forall i :: i in h.sessions ==> LoadedTruly(h.s.tables, h.sessions[i], n)
  }

  lemma UidsStep(s: State, op: Op, n: RepoEndpoints.Names)
    requires UidsOk(s, n) && RepoEndpoints.Named(op, n) && NoTakeover(s, op)
    ensures UidsOk(Step(s, op), n)
  {
    assert Legal(s, [op], n) by { assert [op][1..] == []; }
    RunUidsOk(s, [op], n);
    assert [op][1..] == [];
    assert Run(s, [op]) == Step(s, op);
  }

  /** The agents' side has no part in endpoint reads. */
  lemma AgentSideKeeps(s: State, t: Tables, n: RepoEndpoints.Names)
    requires UidsOk(s, n) && t.endpoints == s.tables.endpoints && t.routingKeys == s.tables.routingKeys
    ensures UidsOk(s.(tables := t), n)
  {
    forall u | u in n.uids ensures UidSlotOk(s.(tables := t), u) {
      assert UidSlotOk(s, u);
    }
  }

  lemma LoadsOk(h: House, hash: string -> string, i: nat, did: string, verkey: string, n: RepoEndpoints.Names)
    requires HouseOk(h, n) && hash(did) in n.uids
    ensures HouseOk(Happen(h, hash, Loads(i, did, verkey)), n)
  {
    UidsStep(h.s, LoadEndpointOp(hash(did)), n);
    assert UidSlotOk(h.s, hash(did));
  }

  lemma WritesOk(h: House, i: nat, n: RepoEndpoints.Names)
    requires HouseOk(h, n) && i in h.sessions && Ready(h.sessions[i])
    requires EndpointRivals(h.s.tables, h.sessions[i].uid, Some(h.sessions[i].verkey)) == {}
    ensures HouseOk(Written(h, i), n)
  {
    var x := h.sessions[i];
    UidsStep(h.s, EnsureEndpointOp(x.uid, Carried(x), None, Some(x.verkey), None), n);
    var t1 := Written(h, i).s.tables;
    assert h.s.tables.endpoints - {} == h.s.tables.endpoints;
    forall j | j in Written(h, i).sessions ensures LoadedTruly(t1, Written(h, i).sessions[j], n) {
      assert LoadedTruly(h.s.tables, h.sessions[j], n);
    }
  }

  lemma ElsewhereOk(h: House, op: Op, n: RepoEndpoints.Names)
    requires HouseOk(h, n) && RepoEndpoints.Named(op, n) && NoTakeover(h.s, op)
    requires op.EnsureEndpointOp? ==> op.redis.None?
    ensures HouseOk(h.(s := Step(h.s, op)), n)
  {
    UidsStep(h.s, op, n);
    if !op.EnsureEndpointOp? { ElsewhereEndpoints(h.s, op); }
    assert h.s.tables.endpoints - {} == h.s.tables.endpoints;
    forall j | j in h.sessions ensures LoadedTruly(Step(h.s, op).tables, h.sessions[j], n) {
      assert LoadedTruly(h.s.tables, h.sessions[j], n);
    }
  }

  lemma OrderlyStep(h: House, hash: string -> string, e: Event, n: RepoEndpoints.Names)
    requires HouseOk(h, n) && Orderly(h, hash, e, n)
    ensures HouseOk(Happen(h, hash, e), n) && !Harmful(h, e)
  {
    match e
    case Loads(i, did, verkey) => LoadsOk(h, hash, i, did, verkey, n);
    case Chooses(_, _) =>
    case Writes(i) => if i in h.sessions && Ready(h.sessions[i]) { WritesOk(h, i, n); }
    case StoresPeer(did, verkey, newId) =>
      AgentSideKeeps(h.s, EnsureAgent(h.s.tables, did, verkey, None, None, newId), n);
    case Elsewhere(op) => ElsewhereOk(h, op, n);
  }

  lemma KeptTwice(t: Tables, u: Tables, v: Tables)
    requires AddressesKept(t, u) && AddressesKept(u, v)
    ensures AddressesKept(t, v)
  {
  }

  /** However sessions interleave and under whatever verkeys DIDs come back: as long
      as no session overtakes another between its load and its write of an address,
      and nobody takes a verkey over, an endpoint keeps existing under its id and an
      address once stored never changes. */
  lemma {:induction false} AddressesNeverChange(h: House, hash: string -> string, es: seq<Event>,
                                                n: RepoEndpoints.Names)
    requires HouseOk(h, n) && AllOrderly(h, hash, es, n)
    ensures HouseOk(Days(h, hash, es), n) && AddressesKept(h.s.tables, Days(h, hash, es).s.tables)
    decreases |es|
  {
    if es != [] {
      var h1 := Happen(h, hash, es[0]);
      OrderlyStep(h, hash, es[0], n);
      HarmfulIff(h, hash, es[0]);
      AddressesNeverChange(h1, hash, es[1..], n);
      KeptTwice(h.s.tables, h1.s.tables, Days(h, hash, es).s.tables);
    }
  }
}
