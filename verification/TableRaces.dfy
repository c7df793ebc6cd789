/** The two `ensure_*` transactions taken apart. Each first finds and deletes the
    rows that hold its verkey, then writes its own row and commits. The database
    shows a statement only what is committed, and neither verkey column is unique,
    so two transactions that overlap do not see each other's row. */
module TableRaces {
  import opened Base
  import opened Tables

  datatype Call =
    | ForAgent(did: string, verkey: string, metadata: Option<Json>, fcm: Option<string>, newId: string)
    | ForEndpoint(uid: string, redis: Option<string>, agentId: Option<string>, newVerkey: Option<string>,
                  device: Option<string>)

  /** A transaction that has deleted its rivals and not committed yet. `overtaken`
      records that another one has committed the same verkey for another row since. */
  datatype Open = Open(call: Call, rivals: set<string>, overtaken: bool)

  datatype Work = Work(t: Tables, open: map<nat, Open>)

  datatype Event = Looks(i: nat, call: Call) | Commits(i: nat)

  function RivalsOf(t: Tables, call: Call): set<string> {
    match call
    case ForAgent(did, verkey, _, _, _) => AgentRivals(t, did, verkey)
    case ForEndpoint(uid, _, _, verkey, _) => EndpointRivals(t, uid, verkey)
  }

  /** The tables without the recorded rivals and with the row of the call. */
  function Committed(t: Tables, call: Call, rivals: set<string>): Tables {
    match call
    case ForAgent(did, verkey, metadata, fcm, newId) =>
      t.(agents := (t.agents - rivals)[did := EnsureAgent(t, did, verkey, metadata, fcm, newId).agents[did]])
    case ForEndpoint(uid, redis, agentId, verkey, device) =>
      var row := EnsureEndpoint(t, uid, redis, agentId, verkey, device).endpoints[uid];
      t.(endpoints := (t.endpoints - rivals)[uid := row])
  }

  /** The verkey a call brings, if it matters. */
  function Brings(call: Call): Option<string> {
    match call
    case ForAgent(_, verkey, _, _, _) => Some(verkey)
    case ForEndpoint(_, _, _, verkey, _) => if verkey == Some("") then None else verkey
  }

  function RowOf(call: Call): string {
    match call
    case ForAgent(did, _, _, _, _) => did
    case ForEndpoint(uid, _, _, _, _) => uid
  }

  predicate SameVerkey(a: Call, b: Call) {
    a.ForAgent? == b.ForAgent? && Brings(a).Some? && Brings(a) == Brings(b) && RowOf(a) != RowOf(b)
  }

  function Overtake(open: map<nat, Open>, call: Call): map<nat, Open> {
    map i | i in open :: if SameVerkey(call, open[i].call) then open[i].(overtaken := true) else open[i]
  }

  function Happen(b: Work, e: Event): Work {
    match e
    case Looks(i, call) =>
      if i in b.open then b else b.(open := b.open[i := Open(call, RivalsOf(b.t, call), false)])
    case Commits(i) =>
      if i !in b.open then b
      else Work(Committed(b.t, b.open[i].call, b.open[i].rivals), Overtake(b.open - {i}, b.open[i].call))
  }

  function Days(b: Work, es: seq<Event>): Work
    decreases |es|
  {
    if es == [] then b else Days(Happen(b, es[0]), es[1..])
  }

  /** A transaction that nobody overlaps is the one of `Tables`. */
  lemma AloneIsSerial(b: Work, i: nat, call: Call)
    requires i !in b.open
    ensures Happen(Happen(b, Looks(i, call)), Commits(i)).t
         == match call
            case ForAgent(did, verkey, metadata, fcm, newId) => EnsureAgent(b.t, did, verkey, metadata, fcm, newId)
            case ForEndpoint(uid, redis, agentId, verkey, device) =>
              EnsureEndpoint(b.t, uid, redis, agentId, verkey, device)
  {
  }

  // ---------------------------------------------------- when uniqueness is lost

  /** The row `d` holds the call's verkey, is not the call's own, and was not among
      the rivals the transaction deleted. */
  predicate Missed(t: Tables, o: Open, d: string) {
    d != RowOf(o.call) && d !in o.rivals && Brings(o.call).Some? &&
    match o.call
    case ForAgent(_, verkey, _, _, _) => d in t.agents && t.agents[d].verkey == verkey
    case ForEndpoint(_, _, _, verkey, _) => d in t.endpoints && t.endpoints[d].verkey == verkey
  }

  ghost predicate Collides(t: Tables, o: Open) {
    exists d :: Missed(t, o, d)
  }

  lemma AgentCommitIff(t: Tables, o: Open)
    requires WellFormed(t) && o.call.ForAgent?
    ensures WellFormed(Committed(t, o.call, o.rivals)) <==> !Collides(t, o)
  {
    var t1 := Committed(t, o.call, o.rivals);
    if d :| Missed(t, o, d) {
      assert d in t1.agents && o.call.did in t1.agents && t1.agents[d].verkey == t1.agents[o.call.did].verkey;
    } else {
      forall d | d in t1.agents && d != o.call.did ensures t1.agents[d].verkey != t1.agents[o.call.did].verkey {
        assert !Missed(t, o, d);
      }
    }
  }

  lemma EndpointCommitIff(t: Tables, o: Open)
    requires WellFormed(t) && o.call.ForEndpoint?
    ensures WellFormed(Committed(t, o.call, o.rivals)) <==> !Collides(t, o)
  {
    var t1 := Committed(t, o.call, o.rivals);
    var uid := o.call.uid;
    if d :| Missed(t, o, d) {
      assert d in t1.endpoints && uid in t1.endpoints && t1.endpoints[d].verkey == t1.endpoints[uid].verkey;
    } else {
      forall d | d in t1.endpoints && d != uid
        ensures t1.endpoints[d].verkey != t1.endpoints[uid].verkey || t1.endpoints[uid].verkey.GetOr("") == "" {
        assert !Missed(t, o, d);
      }
    }
  }

  lemma CommitIff(t: Tables, o: Open)
    requires WellFormed(t)
    ensures WellFormed(Committed(t, o.call, o.rivals)) <==> !Collides(t, o)
  {
    if o.call.ForAgent? { AgentCommitIff(t, o); } else { EndpointCommitIff(t, o); }
  }

  ghost predicate UniqueThroughout(b: Work, es: seq<Event>)
    decreases |es|
  {
    WellFormed(b.t) && (es == [] || UniqueThroughout(Happen(b, es[0]), es[1..]))
  }

  ghost predicate NoCollision(b: Work, es: seq<Event>)
    decreases |es|
  {
    if es == [] then true
    else
      && (es[0].Commits? && es[0].i in b.open ==> !Collides(b.t, b.open[es[0].i]))
      && NoCollision(Happen(b, es[0]), es[1..])
  }

  /** For every interleaving of transactions: no two agents and no two endpoints
      share a verkey at any time, if and only if no transaction commits a verkey
      that another row has got since it looked. */
  lemma {:induction false} UniqueIff(b: Work, es: seq<Event>)
    requires WellFormed(b.t)
    ensures UniqueThroughout(b, es) <==> NoCollision(b, es)
    decreases |es|
  {
    if es != [] {
      if es[0].Commits? && es[0].i in b.open {
        CommitIff(b.t, b.open[es[0].i]);
      }
      if WellFormed(Happen(b, es[0]).t) {
        UniqueIff(Happen(b, es[0]), es[1..]);
      }
    }
  }

  /** Two overlapping calls with one verkey for different agents both get it. */
  lemma TwoAgentsShare(t: Tables, a: Call, c: Call)
    requires a.ForAgent? && c.ForAgent? && a.did != c.did && a.verkey == c.verkey
    requires AgentRivals(t, a.did, a.verkey) == {} && AgentRivals(t, c.did, c.verkey) == {}
    ensures var b := Happen(Happen(Happen(Happen(Work(t, map[]), Looks(0, a)), Looks(1, c)), Commits(0)), Commits(1));
            && a.did in b.t.agents && c.did in b.t.agents
            && b.t.agents[a.did].verkey == b.t.agents[c.did].verkey && !WellFormed(b.t)
  {
    var t1 := Committed(t, a, {});
    var t2 := Committed(t1, c, {});
    assert t2.agents[a.did].verkey == t2.agents[c.did].verkey;
  }

  /** And so do two endpoints. */
  lemma TwoEndpointsShare(t: Tables, a: Call, c: Call)
    requires a.ForEndpoint? && c.ForEndpoint? && a.uid != c.uid && a.newVerkey == c.newVerkey && Brings(a).Some?
    requires EndpointRivals(t, a.uid, a.newVerkey) == {} && EndpointRivals(t, c.uid, c.newVerkey) == {}
    ensures var b := Happen(Happen(Happen(Happen(Work(t, map[]), Looks(0, a)), Looks(1, c)), Commits(0)), Commits(1));
            && a.uid in b.t.endpoints && c.uid in b.t.endpoints
            && b.t.endpoints[a.uid].verkey == b.t.endpoints[c.uid].verkey && !WellFormed(b.t)
  {
    var t1 := Committed(t, a, {});
    var t2 := Committed(t1, c, {});
    assert t2.endpoints[a.uid].verkey == t2.endpoints[c.uid].verkey;
  }

  // ---------------------------------------------------- calls that do not race

  /** What a transaction saw is still all there is, unless it was overtaken. */
  ghost predicate SawAll(t: Tables, o: Open) {
    !o.overtaken ==> !Collides(t, o)
  }

  ghost predicate AllSawAll(b: Work) {
    forall i :: i in b.open ==> SawAll(b.t, b.open[i])
  }

  ghost predicate Orderly(b: Work, es: seq<Event>)
    decreases |es|
  {
    if es == [] then true
    else
      && (es[0].Commits? && es[0].i in b.open ==> !b.open[es[0].i].overtaken)
      && Orderly(Happen(b, es[0]), es[1..])
  }

  lemma LooksSawAll(b: Work, i: nat, call: Call)
    requires AllSawAll(b)
    ensures AllSawAll(Happen(b, Looks(i, call)))
  {
    var o := Open(call, RivalsOf(b.t, call), false);
    forall d ensures !Missed(b.t, o, d) {
    }
  }

  lemma CommitSawAll(b: Work, i: nat)
    requires AllSawAll(b) && i in b.open
    ensures AllSawAll(Happen(b, Commits(i)))
  {
    var b1 := Happen(b, Commits(i));
    forall j | j in b1.open ensures SawAll(b1.t, b1.open[j]) {
      assert SawAll(b.t, b.open[j]);
      if !b1.open[j].overtaken {
        forall d ensures !Missed(b1.t, b1.open[j], d) {
          assert !Missed(b.t, b.open[j], d);
        }
      }
    }
  }

  /** If no transaction is overtaken, uniqueness survives every interleaving. */
  lemma {:induction false} OrderlyKeepsUnique(b: Work, es: seq<Event>)
    requires WellFormed(b.t) && AllSawAll(b) && Orderly(b, es)
    ensures UniqueThroughout(b, es) && WellFormed(Days(b, es).t)
    decreases |es|
  {
    if es != [] {
      if es[0].Looks? {
        LooksSawAll(b, es[0].i, es[0].call);
      } else if es[0].i in b.open {
        CommitIff(b.t, b.open[es[0].i]);
        CommitSawAll(b, es[0].i);
      }
      OrderlyKeepsUnique(Happen(b, es[0]), es[1..]);
    }
  }
}
