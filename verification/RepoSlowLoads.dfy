/** How old a read can get when loads take their time. The bound of one cache
    lifetime holds for loads that read and fill in one go; a load that fills late
    adds the time it took. */
module RepoSlowLoads {
  import opened Base
  import opened Tables
  import opened RepoCache
  import opened RepoInterleaved
  import opened RepoEndpoints

  type Names = RepoInterleaved.Names

  /** The interleaved world and every table it had, with its time. */
  datatype Tale = Tale(w: RepoInterleaved.World, past: seq<Snapshot>)

  ghost function Remembered(x: Tale): seq<Snapshot> {
    x.past + [Snapshot(x.w.s.now, x.w.s.tables)]
  }

  ghost function Tell(x: Tale, n: Names, e: Event): Tale {
    Tale(Happen(x.w, n, e), Remembered(x))
  }

  ghost function TellAll(x: Tale, n: Names, es: seq<Event>): Tale
    decreases |es|
  {
    if es == [] then x else TellAll(Tell(x, n, es[0]), n, es[1..])
  }

  /** No load fills later than `slow` after it began to read. */
  ghost predicate InTime(w: RepoInterleaved.World, e: Event, n: Names, slow: nat) {
    && RepoInterleaved.Fair(e, n)
    && (e.Fills? && e.l in w.flights ==> w.s.now - w.flights[e.l].at <= slow)
  }

  ghost predicate AllInTime(x: Tale, n: Names, es: seq<Event>, slow: nat)
    decreases |es|
  {
    es == [] || (InTime(x.w, es[0], n, slow) && AllInTime(Tell(x, n, es[0]), n, es[1..], slow))
  }

  // ------------------------------------------------------------ dated values

  /** At some moment after `lo` and not after `hi` this is what the tables said. */
  ghost predicate Seen(past: seq<Snapshot>, n: Names, k: Key, v: Value, lo: int, hi: int) {
    exists i :: 0 <= i < |past| && lo < past[i].now <= hi && Truth(past[i].tables, n, k) == Some(v)
  }

  /** A routing key led to an endpoint after `keyLo`, which had this row after `rowLo`. */
  ghost predicate LedTo(past: seq<Snapshot>, k: Key, v: Value, keyLo: int, rowLo: int, hi: int) {
    v.OfEndpoint? && RouteSeen(past, keyLo, rowLo, hi, k.name, v.endpoint)
  }

  /** What was taken for a key was true: for a routing key the owner after `lo`, and
      the row, which may come from the cache, a lifetime and a slow load before. */
  ghost predicate Dated(past: seq<Snapshot>, n: Names, k: Key, v: Value, lo: int, hi: int, slow: nat) {
    if IsRoute(n, k) then LedTo(past, k, v, lo, lo - TTL - slow, hi) else Seen(past, n, k, v, lo, hi)
  }

  ghost predicate SlotDated(past: seq<Snapshot>, n: Names, now: int, k: Key, slot: Slot, slow: nat) {
    && slot.expires <= now + TTL
    && Dated(past, n, k, slot.value, slot.expires - TTL - slow - 1, slot.expires - TTL, slow)
  }

  ghost predicate EntryDated(x: Tale, n: Names, k: Key, slow: nat) {
    Readable(k) && k in x.w.s.cache ==> SlotDated(x.past, n, x.w.s.now, k, x.w.s.cache[k], slow)
  }

  ghost predicate FlightDated(past: seq<Snapshot>, n: Names, now: int, f: Flight, slow: nat) {
    f.at <= now &&
    match f
    case Carrying(k, v, at) => Readable(k) && Dated(past, n, k, v, at - 1, now, slow)
    case Seeking(route, uid, at) => route in n.routes && uid in n.uids && OwnerSeen(past, at - 1, at, route, uid)
  }

  ghost predicate TaleInv(x: Tale, n: Names, slow: nat) {
    && RepoInterleaved.Disjoint(n) && KeysNamed(x.w.s.tables, n)
    && (forall k :: EntryDated(x, n, k, slow))
    && (forall l :: l in x.w.flights ==> FlightDated(x.past, n, x.w.s.now, x.w.flights[l], slow))
  }

  lemma SeenLater(past: seq<Snapshot>, more: Snapshot, n: Names, k: Key, v: Value, lo: int, hi: int, lo1: int, hi1: int)
    requires Seen(past, n, k, v, lo, hi) && lo1 <= lo && hi <= hi1
    ensures Seen(past + [more], n, k, v, lo1, hi1)
  {
    var i :| 0 <= i < |past| && lo < past[i].now <= hi && Truth(past[i].tables, n, k) == Some(v);
    assert (past + [more])[i] == past[i];
  }

  lemma OwnerLater(past: seq<Snapshot>, more: Snapshot, lo: int, hi: int, lo1: int, hi1: int, key: string, uid: string)
    requires OwnerSeen(past, lo, hi, key, uid) && lo1 <= lo && hi <= hi1
    ensures OwnerSeen(past + [more], lo1, hi1, key, uid)
  {
    var i :| 0 <= i < |past| && lo < past[i].now <= hi && OwnerOf(past[i].tables.routingKeys, key) == Some(uid);
    assert (past + [more])[i] == past[i];
  }

  lemma LedLater(past: seq<Snapshot>, more: Snapshot, k: Key, v: Value, keyLo: int, rowLo: int, hi: int,
                 keyLo1: int, rowLo1: int, hi1: int)
    requires LedTo(past, k, v, keyLo, rowLo, hi) && keyLo1 <= keyLo && rowLo1 <= rowLo && hi <= hi1
    ensures LedTo(past + [more], k, v, keyLo1, rowLo1, hi1)
  {
    var uid :| RouteVia(past, keyLo, rowLo, hi, k.name, uid, v.endpoint);
    OwnerLater(past, more, keyLo, hi, keyLo1, hi1, k.name, uid);
    RowSeenLater(past, more, rowLo, hi, uid, v.endpoint);
    WidenRow(past + [more], rowLo, hi, rowLo1, hi1, uid, v.endpoint);
    assert RouteVia(past + [more], keyLo1, rowLo1, hi1, k.name, uid, v.endpoint);
  }

  lemma DatedLater(past: seq<Snapshot>, more: Snapshot, n: Names, k: Key, v: Value, lo: int, hi: int,
                   lo1: int, hi1: int, slow: nat)
    requires Dated(past, n, k, v, lo, hi, slow) && lo1 <= lo && hi <= hi1
    ensures Dated(past + [more], n, k, v, lo1, hi1, slow)
  {
    if IsRoute(n, k) {
      LedLater(past, more, k, v, lo, lo - TTL - slow, hi, lo1, lo1 - TTL - slow, hi1);
    } else {
      SeenLater(past, more, n, k, v, lo, hi, lo1, hi1);
    }
  }

  lemma FlightLater(past: seq<Snapshot>, more: Snapshot, n: Names, now: int, later: int, f: Flight, slow: nat)
    requires FlightDated(past, n, now, f, slow) && now <= later
    ensures FlightDated(past + [more], n, later, f, slow)
  {
    match f
    case Carrying(k, v, at) => DatedLater(past, more, n, k, v, at - 1, now, at - 1, later, slow);
    case Seeking(route, uid, at) => OwnerLater(past, more, at - 1, at, at - 1, at, route, uid);
  }

  /** Remembering the present keeps everything dated. */
  lemma RememberKeeps(x: Tale, n: Names, slow: nat)
    requires TaleInv(x, n, slow)
    ensures TaleInv(Tale(x.w, Remembered(x)), n, slow)
  {
    var more := Snapshot(x.w.s.now, x.w.s.tables);
    var x1 := Tale(x.w, Remembered(x));
    forall k ensures EntryDated(x1, n, k, slow) {
      assert EntryDated(x, n, k, slow);
      if Readable(k) && k in x.w.s.cache {
        var (lo, hi) := (x.w.s.cache[k].expires - TTL - slow - 1, x.w.s.cache[k].expires - TTL);
        DatedLater(x.past, more, n, k, x.w.s.cache[k].value, lo, hi, lo, hi, slow);
      }
    }
    forall l | l in x.w.flights ensures FlightDated(x1.past, n, x.w.s.now, x.w.flights[l], slow) {
      FlightLater(x.past, more, n, x.w.s.now, x.w.s.now, x.w.flights[l], slow);
    }
  }

  ghost predicate PresentIn(x: Tale) {
    x.past != [] && x.past[|x.past| - 1] == Snapshot(x.w.s.now, x.w.s.tables)
  }

  lemma NowDated(x: Tale, n: Names, k: Key)
    requires PresentIn(x) && Truth(x.w.s.tables, n, k).Some?
    ensures Seen(x.past, n, k, Truth(x.w.s.tables, n, k).value, x.w.s.now - 1, x.w.s.now)
  {
    assert Truth(x.past[|x.past| - 1].tables, n, k) == Truth(x.w.s.tables, n, k);
  }

  lemma WidenSeen(past: seq<Snapshot>, n: Names, k: Key, v: Value, lo: int, hi: int, lo1: int, hi1: int)
    requires Seen(past, n, k, v, lo, hi) && lo1 <= lo && hi <= hi1
    ensures Seen(past, n, k, v, lo1, hi1)
  {
  }

  /** The row a routing key's load takes, from the cache or from the table. */
  lemma RowTaken(x: Tale, n: Names, uid: string, slow: nat)
    requires TaleInv(x, n, slow) && PresentIn(x) && uid in n.uids && LoadEndpoint(x.w.s, uid).1.Some?
    ensures RowSeen(x.past, x.w.s.now - TTL - slow, x.w.s.now, uid, LoadEndpoint(x.w.s, uid).1.value)
  {
    var k := Key(Endpoints, uid);
    var row := LoadEndpoint(x.w.s, uid).1.value;
    if CachedEndpoint(x.w.s, uid).Some? {
      assert EntryDated(x, n, k, slow);
      var e := x.w.s.cache[k].expires;
      assert Seen(x.past, n, k, OfEndpoint(row), e - TTL - slow - 1, e - TTL);
      var i :| 0 <= i < |x.past| && e - TTL - slow - 1 < x.past[i].now <= e - TTL
               && Truth(x.past[i].tables, n, k) == Some(OfEndpoint(row));
      assert EndpointAt(x.past[i].tables, uid) == Some(row);
    } else {
      assert EndpointAt(x.past[|x.past| - 1].tables, uid) == Some(row);
    }
  }

  lemma WidenOwner(past: seq<Snapshot>, lo: int, hi: int, lo1: int, hi1: int, key: string, uid: string)
    requires OwnerSeen(past, lo, hi, key, uid) && lo1 <= lo && hi <= hi1
    ensures OwnerSeen(past, lo1, hi1, key, uid)
  {
  }

  lemma SeekerTakes(past: seq<Snapshot>, n: Names, now: int, f: Flight, row: Endpoint, slow: nat)
    requires f.Seeking? && FlightDated(past, n, now, f, slow) && RowSeen(past, now - TTL - slow, now, f.uid, row)
    ensures FlightDated(past, n, now, Taken(f, row), slow)
  {
    WidenRow(past, now - TTL - slow, now, f.at - 1 - TTL - slow, now, f.uid, row);
    WidenOwner(past, f.at - 1, f.at, f.at - 1, now, f.route, f.uid);
    assert RouteVia(past, f.at - 1, f.at - 1 - TTL - slow, now, f.route, f.uid, row);
  }

  lemma TakesKeeps(x: Tale, n: Names, l: nat, slow: nat)
    requires TaleInv(x, n, slow) && PresentIn(x) && l in x.w.flights && x.w.flights[l].Seeking?
    requires LoadEndpoint(x.w.s, x.w.flights[l].uid).1.Some?
    ensures var read := LoadEndpoint(x.w.s, x.w.flights[l].uid).1.value;
            FlightDated(x.past, n, x.w.s.now, Taken(x.w.flights[l], read), slow)
  {
    var f := x.w.flights[l];
    assert FlightDated(x.past, n, x.w.s.now, f, slow);
    RowTaken(x, n, f.uid, slow);
    SeekerTakes(x.past, n, x.w.s.now, f, LoadEndpoint(x.w.s, f.uid).1.value, slow);
  }

  lemma PutDates(x: Tale, n: Names, k: Key, v: Value, slow: nat)
    requires TaleInv(x, n, slow) && SlotDated(x.past, n, x.w.s.now, k, Slot(v, x.w.s.now + TTL), slow)
    ensures TaleInv(Tale(x.w.(s := Put(x.w.s, k, v)), x.past), n, slow)
  {
    var x1 := Tale(x.w.(s := Put(x.w.s, k, v)), x.past);
    forall k1 ensures EntryDated(x1, n, k1, slow) {
      assert EntryDated(x, n, k1, slow);
    }
  }

  lemma FillDates(x: Tale, n: Names, l: nat, slow: nat)
    requires TaleInv(x, n, slow) && InTime(x.w, Fills(l), n, slow)
    ensures TaleInv(Tale(Happen(x.w, n, Fills(l)), x.past), n, slow)
  {
    if l in x.w.flights && x.w.flights[l].Carrying? {
      var f := x.w.flights[l];
      CarriedDated(x.past, n, x.w.s.now, f, slow);
      PutDates(x, n, f.k, f.value, slow);
      DropFlight(Tale(x.w.(s := Put(x.w.s, f.k, f.value)), x.past), n, l, slow);
    }
  }

  lemma CarriedDated(past: seq<Snapshot>, n: Names, now: int, f: Flight, slow: nat)
    requires f.Carrying? && FlightDated(past, n, now, f, slow) && now - f.at <= slow
    ensures SlotDated(past, n, now, f.k, Slot(f.value, now + TTL), slow)
  {
    WidenDated(past, n, f.k, f.value, f.at - 1, now, now - slow - 1, slow);
  }

  lemma WidenDated(past: seq<Snapshot>, n: Names, k: Key, v: Value, lo: int, hi: int, lo1: int, slow: nat)
    requires Dated(past, n, k, v, lo, hi, slow) && lo1 <= lo
    ensures Dated(past, n, k, v, lo1, hi, slow)
  {
    if IsRoute(n, k) {
      var uid :| RouteVia(past, lo, lo - TTL - slow, hi, k.name, uid, v.endpoint);
      WidenRoute(past, lo, lo - TTL - slow, hi, lo1, lo1 - TTL - slow, hi, k.name, uid, v.endpoint);
    } else {
      WidenSeen(past, n, k, v, lo, hi, lo1, hi);
    }
  }

  lemma AddFlight(x: Tale, n: Names, l: nat, f: Flight, slow: nat)
    requires TaleInv(x, n, slow) && FlightDated(x.past, n, x.w.s.now, f, slow)
    ensures TaleInv(Tale(x.w.(flights := x.w.flights[l := f]), x.past), n, slow)
  {
    var x1 := Tale(x.w.(flights := x.w.flights[l := f]), x.past);
    forall k ensures EntryDated(x1, n, k, slow) {
      assert EntryDated(x, n, k, slow);
    }
  }

  lemma DropFlight(x: Tale, n: Names, l: nat, slow: nat)
    requires TaleInv(x, n, slow)
    ensures TaleInv(Tale(x.w.(flights := x.w.flights - {l}), x.past), n, slow)
  {
    var x1 := Tale(x.w.(flights := x.w.flights - {l}), x.past);
    forall k ensures EntryDated(x1, n, k, slow) {
      assert EntryDated(x, n, k, slow);
    }
  }

  lemma ReadsDate(x: Tale, n: Names, e: Event, slow: nat)
    requires TaleInv(x, n, slow) && PresentIn(x)
    requires (e.Reads? || e.FindsOwner? || e.TakesRow?) && RepoInterleaved.Fair(e, n)
    ensures TaleInv(Tale(Happen(x.w, n, e), x.past), n, slow)
  {
    var now := x.w.s.now;
    match e
    case Reads(l, k) =>
      var v := Truth(x.w.s.tables, n, k);
      if v.Some? && Truthy(v.value) && !IsRoute(n, k) {
        NowDated(x, n, k);
        AddFlight(x, n, l, Carrying(k, v.value, now), slow);
      }
    case FindsOwner(l, route) =>
      var owner := OwnerOf(x.w.s.tables.routingKeys, route);
      if owner.Some? && owner.value != "" && route in n.routes {
        OwnerIsRow(x.w.s.tables.routingKeys, route);
        assert OwnerOf(x.past[|x.past| - 1].tables.routingKeys, route) == owner;
        AddFlight(x, n, l, Seeking(route, owner.value, now), slow);
      }
    case TakesRow(l) =>
      if l in x.w.flights && x.w.flights[l].Seeking? {
        var row := LoadEndpoint(x.w.s, x.w.flights[l].uid).1;
        if row.Some? {
          TakesKeeps(x, n, l, slow);
          AddFlight(x, n, l, Taken(x.w.flights[l], row.value), slow);
        } else {
          DropFlight(x, n, l, slow);
        }
      }
  }

  lemma QuietDates(x: Tale, n: Names, e: Event, slow: nat)
    requires TaleInv(x, n, slow) && RepoInterleaved.Fair(e, n)
    requires e.GivesUp? || e.Indexes? || e.Loses? || e.Changes?
    ensures TaleInv(Tale(Happen(x.w, n, e), x.past), n, slow)
  {
    var x1 := Tale(Happen(x.w, n, e), x.past);
    forall k ensures EntryDated(x1, n, k, slow) {
      assert EntryDated(x, n, k, slow);
    }
  }

  lemma PassDates(x: Tale, n: Names, d: nat, slow: nat)
    requires TaleInv(x, n, slow)
    ensures TaleInv(Tale(Happen(x.w, n, Passes(d)), Remembered(x)), n, slow)
  {
    var more := Snapshot(x.w.s.now, x.w.s.tables);
    var x1 := Tale(Happen(x.w, n, Passes(d)), Remembered(x));
    RememberKeeps(x, n, slow);
    forall k ensures EntryDated(x1, n, k, slow) {
      assert EntryDated(Tale(x.w, Remembered(x)), n, k, slow);
    }
    forall l | l in x1.w.flights ensures FlightDated(x1.past, n, x1.w.s.now, x1.w.flights[l], slow) {
      FlightLater(x.past, more, n, x.w.s.now, x1.w.s.now, x.w.flights[l], slow);
    }
  }

  lemma TellKeeps(x: Tale, n: Names, e: Event, slow: nat)
    requires TaleInv(x, n, slow) && InTime(x.w, e, n, slow)
    ensures TaleInv(Tell(x, n, e), n, slow)
  {
    RememberKeeps(x, n, slow);
    var x0 := Tale(x.w, Remembered(x));
    match e
    case Fills(l) => FillDates(x0, n, l, slow);
    case Reads(_, _) => ReadsDate(x0, n, e, slow);
    case FindsOwner(_, _) => ReadsDate(x0, n, e, slow);
    case TakesRow(_) => ReadsDate(x0, n, e, slow);
    case Passes(d) => PassDates(x, n, d, slow);
    case _ => QuietDates(x0, n, e, slow);
  }

  lemma {:induction false} TellAllKeeps(x: Tale, n: Names, es: seq<Event>, slow: nat)
    requires TaleInv(x, n, slow) && AllInTime(x, n, es, slow)
    ensures TaleInv(TellAll(x, n, es), n, slow)
    decreases |es|
  {
    if es != [] {
      TellKeeps(x, n, es[0], slow);
      TellAllKeeps(Tell(x, n, es[0]), n, es[1..], slow);
    }
  }

  // -------------------------------------------------------------- the bounds

  /** What the repository answers for a key: the cached value, or the tables'. */
  ghost function Answer(s: State, n: Names, k: Key): Option<Value> {
    if Get(s, k).Some? then Get(s, k) else Truth(s.tables, n, k)
  }

  /** The answer for a key was true within one lifetime and the time of the slowest
      load; an absent answer is never stale. */
  ghost predicate AnswerBounded(x: Tale, n: Names, k: Key, slow: nat) {
    match Answer(x.w.s, n, k)
    case Some(v) => Seen(x.past, n, k, v, x.w.s.now - TTL - slow, x.w.s.now)
    case None => Truth(x.w.s.tables, n, k) == None
  }

  /** For a routing key the owner was true within that time, and the row within
      twice that time. */
  ghost predicate RouteAnswerBounded(x: Tale, route: string, slow: nat) {
    match LoadEndpointViaRoutingKey(x.w.s, route).1
    case Some(row) =>
      RouteSeen(x.past, x.w.s.now - TTL - slow, x.w.s.now - 2 * (TTL + slow), x.w.s.now, route, row)
    case None =>
      var owner := OwnerOf(x.w.s.tables.routingKeys, route);
      owner == None || owner == Some("") || EndpointAt(x.w.s.tables, owner.value) == None
  }

  lemma AnswerIsBounded(x: Tale, n: Names, k: Key, slow: nat)
    requires TaleInv(x, n, slow) && PresentIn(x) && Readable(k) && !IsRoute(n, k)
    ensures AnswerBounded(x, n, k, slow)
  {
    if Get(x.w.s, k).Some? {
      assert EntryDated(x, n, k, slow);
      var e := x.w.s.cache[k].expires;
      WidenSeen(x.past, n, k, x.w.s.cache[k].value, e - TTL - slow - 1, e - TTL, x.w.s.now - TTL - slow, x.w.s.now);
    } else if Truth(x.w.s.tables, n, k).Some? {
      NowDated(x, n, k);
      WidenSeen(x.past, n, k, Truth(x.w.s.tables, n, k).value, x.w.s.now - 1, x.w.s.now,
                x.w.s.now - TTL - slow, x.w.s.now);
    }
  }

  /** An entry under a routing key, filled at `filled`. */
  lemma RouteEntryBounded(past: seq<Snapshot>, k: Key, v: Value, filled: int, now: int, slow: nat)
    requires LedTo(past, k, v, filled - slow - 1, filled - slow - 1 - TTL - slow, filled) && now - TTL < filled <= now
    ensures RouteSeen(past, now - TTL - slow, now - 2 * (TTL + slow), now, k.name, v.endpoint)
  {
    var lo := filled - slow - 1;
    var uid :| RouteVia(past, lo, lo - TTL - slow, filled, k.name, uid, v.endpoint);
    WidenRoute(past, lo, lo - TTL - slow, filled, now - TTL - slow, now - 2 * (TTL + slow), now, k.name, uid,
                 v.endpoint);
  }

  lemma RouteTableBounded(x: Tale, n: Names, route: string, uid: string, row: Endpoint, slow: nat)
    requires PresentIn(x) && OwnerOf(x.w.s.tables.routingKeys, route) == Some(uid)
    requires RowSeen(x.past, x.w.s.now - TTL - slow, x.w.s.now, uid, row)
    ensures RouteSeen(x.past, x.w.s.now - TTL - slow, x.w.s.now - 2 * (TTL + slow), x.w.s.now, route, row)
  {
    var t := x.w.s.now;
    assert OwnerOf(x.past[|x.past| - 1].tables.routingKeys, route) == Some(uid);
    assert OwnerSeen(x.past, t - 1, t, route, uid);
    WidenOwner(x.past, t - 1, t, t - TTL - slow, t, route, uid);
    WidenRow(x.past, t - TTL - slow, t, t - 2 * (TTL + slow), t, uid, row);
    assert RouteVia(x.past, t - TTL - slow, t - 2 * (TTL + slow), t, route, uid, row);
  }

  lemma RouteIsBounded(x: Tale, n: Names, route: string, slow: nat)
    requires TaleInv(x, n, slow) && PresentIn(x) && route in n.routes
    ensures RouteAnswerBounded(x, route, slow)
  {
    var k := Key(Endpoints, route);
    var owner := OwnerOf(x.w.s.tables.routingKeys, route);
    if CachedEndpoint(x.w.s, route).Some? {
      assert EntryDated(x, n, k, slow);
      RouteEntryBounded(x.past, k, x.w.s.cache[k].value, x.w.s.cache[k].expires - TTL, x.w.s.now, slow);
    } else if owner.Some? && owner.value != "" && LoadEndpoint(x.w.s, owner.value).1.Some? {
      OwnerIsRow(x.w.s.tables.routingKeys, route);
      RowTaken(x, n, owner.value, slow);
      RouteTableBounded(x, n, route, owner.value, LoadEndpoint(x.w.s, owner.value).1.value, slow);
    }
  }

  lemma EmptyTale(t: Tables, now: int, n: Names, slow: nat)
    requires RepoInterleaved.Disjoint(n) && KeysNamed(t, n)
    ensures TaleInv(Tale(RepoInterleaved.World(State(t, map[], now), map[]), []), n, slow)
  {
  }

  /** Over every interleaving of the steps of loads, deletions and changes of any
      kind: if no load fills later than `slow` after it began, every answer was
      true within a cache lifetime plus `slow`, and what a routing key leads to
      within twice that. */
  lemma SlowLoadStaleness(t: Tables, now: int, n: Names, es: seq<Event>, slow: nat, k: Key, route: string)
    requires RepoInterleaved.Disjoint(n) && KeysNamed(t, n) && Readable(k) && !IsRoute(n, k) && route in n.routes
    requires AllInTime(Tale(RepoInterleaved.World(State(t, map[], now), map[]), []), n, es, slow)
    ensures var x := TellAll(Tale(RepoInterleaved.World(State(t, map[], now), map[]), []), n, es);
            && AnswerBounded(Tale(x.w, Remembered(x)), n, k, slow)
            && RouteAnswerBounded(Tale(x.w, Remembered(x)), route, slow)
  {
    var x0 := Tale(RepoInterleaved.World(State(t, map[], now), map[]), []);
    EmptyTale(t, now, n, slow);
    TellAllKeeps(x0, n, es, slow);
    var x := TellAll(x0, n, es);
    RememberKeeps(x, n, slow);
    AnswerIsBounded(Tale(x.w, Remembered(x)), n, k, slow);
    RouteIsBounded(Tale(x.w, Remembered(x)), n, route, slow);
  }

  /** So a removed routing key stops resolving: once nobody has owned it for a
      lifetime and the time of the slowest load, it leads nowhere. */
  lemma RemovedKeyExpires(x: Tale, n: Names, route: string, since: int, slow: nat)
    requires TaleInv(x, n, slow) && PresentIn(x) && route in n.routes
    requires forall i :: 0 <= i < |x.past| && x.past[i].now > since ==>
                           OwnerOf(x.past[i].tables.routingKeys, route) == None
    requires since + TTL + slow <= x.w.s.now
    ensures LoadEndpointViaRoutingKey(x.w.s, route).1 == None
  {
    RouteIsBounded(x, n, route, slow);
  }

  /** The bound is reached, for any slowness: a load reads a row, the row changes,
      the load fills late, and the old row is read almost a lifetime after that. */
  lemma SlowLoadReached(s: State, n: Names, did: string, t: Tables, slow: nat)
    requires RepoInterleaved.Disjoint(n) && did in n.dids
    requires did in s.tables.agents && AgentAt(t, did) != AgentAt(s.tables, did)
    ensures var w0 := RepoInterleaved.World(s, map[]);
            var w1 := Happen(Happen(w0, n, Reads(0, Key(Agents, did))), n, Changes(t));
            var w2 := Happen(Happen(Happen(w1, n, Passes(slow)), n, Fills(0)), n, Passes(TTL - 1));
            && w1.s.tables == t && w1.s.now == s.now && w2.s.now == s.now + slow + TTL - 1
            && LoadAgent(w2.s, did).1 == Some(s.tables.agents[did]) && LoadAgent(w2.s, did).1 != AgentAt(t, did)
  {
    var w0 := RepoInterleaved.World(s, map[]);
    var w1 := Happen(Happen(w0, n, Reads(0, Key(Agents, did))), n, Changes(t));
    assert w1.flights[0] == Carrying(Key(Agents, did), OfAgent(s.tables.agents[did]), s.now);
    var w2 := Happen(Happen(w1, n, Passes(slow)), n, Fills(0));
    assert w2.s.cache[Key(Agents, did)] == Slot(OfAgent(s.tables.agents[did]), s.now + slow + TTL);
  }
}
