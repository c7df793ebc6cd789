/** From an HTTP post to a device: the key list of Aries RFC 0211 (section
    "keylist-update"), `routing`, and `post_to_device` with its failover. */
module Routing {
  import opened Base
  import opened Tables
  import opened RepoCache
  import opened Forward
  import KeyNames
  import PushClient
  import RepoEndpoints

  // ---------------------------------------------------------------- key lists

  datatype Update = Adding(recipientKey: string) | Removing(recipientKey: string) | Unexpected(action: string)
  datatype Confirmed = Added(key: string) | Removed(key: string)

  /** What the updates do, up to the first unexpected action. */
  function Updated(s: State, uid: string, updates: seq<Update>): State
    decreases |updates|
  {
    if updates == [] then s
    else match updates[0]
      case Adding(k) => Updated(CallAddKey(s, uid, KeyNames.ExtractKey(k)), uid, updates[1..])
      case Removing(k) => Updated(CallRemoveKey(s, uid, KeyNames.ExtractKey(k)), uid, updates[1..])
      case Unexpected(_) => s
  }

  function Confirmation(updates: seq<Update>): seq<Confirmed> {
    if updates == [] then []
    else match updates[0]
      case Adding(k) => [Added(KeyNames.EnsureIsKey(KeyNames.ExtractKey(k)))] + Confirmation(updates[1..])
      case Removing(k) => [Removed(KeyNames.EnsureIsKey(KeyNames.ExtractKey(k)))] + Confirmation(updates[1..])
      case Unexpected(_) => []
  }

  /** One confirmation for each update, in order: of the same kind, and with the
      did:key of the bare key that was written. */
  ghost predicate ConfirmsEach(updates: seq<Update>, confirmed: seq<Confirmed>) {
    && |confirmed| == |updates|
    && forall i :: 0 <= i < |updates| ==>
         match updates[i]
         case Adding(k) => confirmed[i] == Added("did:key:" + KeyNames.ExtractKey(k))
         case Removing(k) => confirmed[i] == Removed("did:key:" + KeyNames.ExtractKey(k))
         case Unexpected(_) => false
  }

  lemma {:induction false} ConfirmationExact(updates: seq<Update>)
    ensures (forall i :: 0 <= i < |updates| ==> !updates[i].Unexpected?) ==>
              ConfirmsEach(updates, Confirmation(updates))
  {
    if updates != [] && !updates[0].Unexpected? {
      ConfirmationExact(updates[1..]);
      KeyNames.BothSpellings(updates[0].recipientKey);
      var k := KeyNames.ExtractKey(updates[0].recipientKey);
      KeyNames.AfterLastClean(updates[0].recipientKey, ':');
      KeyNames.BothSpellings(k);
      assert KeyNames.EnsureIsKey(k) == "did:key:" + k;
    }
  }

  /** The key list update: an unexpected action raises an error, and what came
      before it stays done. */
  method UpdateKeyList(repo: Repo, uid: string, updates: seq<Update>) returns (r: Option<seq<Confirmed>>)
    modifies repo`memcached, repo.db
    ensures repo.View() == Updated(old(repo.View()), uid, updates)
    ensures r.Some? <==> forall i :: 0 <= i < |updates| ==> !updates[i].Unexpected?
    ensures r.Some? ==> r.value == Confirmation(updates) && ConfirmsEach(updates, r.value)
  {
    var updated: seq<Confirmed> := [];
    var i := 0;
    while i < |updates|
      invariant i <= |updates|
      invariant Updated(repo.View(), uid, updates[i..]) == Updated(old(repo.View()), uid, updates)
      invariant forall j :: 0 <= j < i ==> !updates[j].Unexpected?
      invariant updated + Confirmation(updates[i..]) == Confirmation(updates)
      decreases |updates| - i
    {
      assert updates[i..][0] == updates[i] && updates[i..][1..] == updates[i + 1..];
      match updates[i] {
        case Adding(k) =>
          var key := KeyNames.ExtractKey(k);
          var row := repo.AddRoutingKey(uid, key);
          ConcatAssoc(updated, [Added(KeyNames.EnsureIsKey(key))], Confirmation(updates[i + 1..]));
          updated := updated + [Added(KeyNames.EnsureIsKey(key))];
        case Removing(k) =>
          var key := KeyNames.ExtractKey(k);
          repo.RemoveRoutingKey(uid, key);
          ConcatAssoc(updated, [Removed(KeyNames.EnsureIsKey(key))], Confirmation(updates[i + 1..]));
          updated := updated + [Removed(KeyNames.EnsureIsKey(key))];
        case Unexpected(_) =>
          return None;
      }
      i := i + 1;
    }
    assert updates[i..] == [];
    ConfirmationExact(updates);
    r := Some(updated);
  }

  ghost predicate Holds(rows: seq<RoutingKey>, uid: string, key: string) {
    exists i :: 0 <= i < |rows| && rows[i].uid == uid && rows[i].key == key
  }

  /** The last word about a key among the updates carried out. */
  function LastWord(updates: seq<Update>, key: string): Option<bool> {
    if updates == [] || updates[0].Unexpected? then None
    else
      var later := LastWord(updates[1..], key);
      if later.Some? || KeyNames.ExtractKey(updates[0].recipientKey) != key then later
      else Some(updates[0].Adding?)
  }

  lemma {:induction false} WithoutHolds(rows: seq<RoutingKey>, uid: string, key: string, u: string, k: string)
    ensures Holds(KeysWithout(rows, uid, key), u, k) <==> Holds(rows, u, k) && !(u == uid && k == key)
  {
    if rows != [] {
      WithoutHolds(rows[1..], uid, key, u, k);
      var rest := KeysWithout(rows[1..], uid, key);
      var head := if rows[0].key == key && rows[0].uid == uid then [] else [rows[0]];
      ConsHolds([rows[0]], rows[1..], u, k);
      ConsHolds(head, rest, u, k);
      assert rows == [rows[0]] + rows[1..];
    }
  }

  lemma ConsHolds(a: seq<RoutingKey>, b: seq<RoutingKey>, u: string, k: string)
    ensures Holds(a + b, u, k) <==> Holds(a, u, k) || Holds(b, u, k)
  {
    if i :| 0 <= i < |a| && a[i].uid == u && a[i].key == k {
      assert (a + b)[i].key == k;
    }
    if i :| 0 <= i < |b| && b[i].uid == u && b[i].key == k {
      assert (a + b)[|a| + i].key == k;
    }
  }

  /** The meaning of a key list update: an endpoint holds a key afterwards if the
      last word about it was `add`, or if nothing was said and it held it before.
      Other endpoints keep what they had. */
  lemma {:induction false} KeyListMeaning(s: State, uid: string, updates: seq<Update>, u: string, k: string)
    ensures Holds(Updated(s, uid, updates).tables.routingKeys, u, k) <==>
            if u == uid && LastWord(updates, k).Some? then LastWord(updates, k).value
            else Holds(s.tables.routingKeys, u, k)
    decreases |updates|
  {
    if updates != [] {
      match updates[0]
      case Adding(rk) =>
        var key := KeyNames.ExtractKey(rk);
        KeyListMeaning(CallAddKey(s, uid, key), uid, updates[1..], u, k);
        var row := RoutingKey(s.tables.nextKeyId, key, uid);
        ConsHolds(s.tables.routingKeys, [row], u, k);
        assert [row][0] == row;
      case Removing(rk) =>
        var key := KeyNames.ExtractKey(rk);
        KeyListMeaning(CallRemoveKey(s, uid, key), uid, updates[1..], u, k);
        WithoutHolds(s.tables.routingKeys, uid, key, u, k);
      case Unexpected(_) =>
    }
  }

  lemma {:induction false} HolderOwns(rows: seq<RoutingKey>, uid: string, key: string)
    requires forall u :: Holds(rows, u, key) ==> u == uid
    ensures OwnerOf(rows, key) == if Holds(rows, uid, key) then Some(uid) else None
  {
    if rows != [] {
      forall u | Holds(rows[1..], u, key) ensures u == uid {
        ConsHolds([rows[0]], rows[1..], u, key);
        assert rows == [rows[0]] + rows[1..];
      }
      HolderOwns(rows[1..], uid, key);
      ConsHolds([rows[0]], rows[1..], uid, key);
      assert rows == [rows[0]] + rows[1..];
      if rows[0].key == key {
        assert Holds(rows, rows[0].uid, key);
      } else {
        assert !Holds([rows[0]], uid, key);
      }
    }
  }

  // ---------------------------------------------------------- post to device

  datatype PushResult = Answered(acked: bool) | ConnectionLost

  /** What the outside world does during one post. */
  datatype Weather = Weather(push: PushResult, server: Option<string>, fcmEnabled: bool, fcmSent: bool)

  datatype Status = Accepted | Gone | Misdirected | BadRequest

  function StatusOf(fields: Endpoint, w: Weather): Status {
    if w.push == Answered(true) then Accepted
    else if FcmDevice(fields).None? then Gone
    else if !w.fcmEnabled then Misdirected
    else if w.fcmSent then Accepted
    else Gone
  }

  function FcmDevice(fields: Endpoint): Option<string> {
    if fields.fcm.Some? && fields.fcm.value != "" then fields.fcm else None
  }

  /** Failing over writes all the fields the caller had, with a new address. An
      unreachable fleet or a missing address is an exception that is muted. */
  function Failover(s: State, fields: Endpoint, server: Option<string>): State {
    if server.None? || fields.redisPubSub.None? then s
    else CallEnsureEndpoint(s, fields.uid, Some(KeyNames.ChangeRedisServer(fields.redisPubSub.value, server.value)),
                            fields.agentId, fields.verkey, fields.fcm)
  }

  function Posted(s: State, fields: Endpoint, w: Weather): State {
    var s1 := LoadEndpoint(s, fields.uid).0;
    if w.push.ConnectionLost? then Failover(s1, fields, w.server) else s1
  }

  /** What a post may do to the tables: nothing, unless the connection was lost, a
      server was found and the fields have an address. Then the endpoint has the
      address on that server, other endpoints keep their rows or lose them to the
      verkey, and agents, keys and settings stay. */
  ghost predicate MovesAtMost(t: Tables, t1: Tables, fields: Endpoint, w: Weather) {
    if w.push.ConnectionLost? && w.server.Some? && fields.redisPubSub.Some? then
      && fields.uid in t1.endpoints
      && t1.endpoints[fields.uid].redisPubSub
         == Some(w.server.value + "/" + KeyNames.AfterLast(fields.redisPubSub.value, '/'))
      && (forall u :: u in t1.endpoints && u != fields.uid ==> u in t.endpoints && t1.endpoints[u] == t.endpoints[u])
      && (forall u :: u in t.endpoints && u !in t1.endpoints ==>
            fields.verkey.Some? && fields.verkey.value != "" && t.endpoints[u].verkey == fields.verkey)
      && t1 == t.(endpoints := t1.endpoints)
    else t1 == t
  }

  lemma PostedMoves(s: State, fields: Endpoint, w: Weather)
    ensures MovesAtMost(s.tables, Posted(s, fields, w).tables, fields, w)
  {
  }

  method PostToDevice(repo: Repo, fields: Endpoint, w: Weather) returns (status: Status)
    requires WellFormed(repo.db.t)
    modifies repo`memcached, repo.db
    ensures repo.View() == Posted(old(repo.View()), fields, w)
    ensures status == StatusOf(fields, w)
    ensures var device := fields.fcm.Some? && fields.fcm.value != "";
            && (status == Accepted <==> w.push == Answered(true) || (device && w.fcmEnabled && w.fcmSent))
            && (status == Misdirected <==> w.push != Answered(true) && device && !w.fcmEnabled)
    ensures status != BadRequest
    ensures MovesAtMost(old(repo.db.t), repo.db.t, fields, w)
    ensures WellFormed(repo.db.t)
  {
    PostedMoves(repo.View(), fields, w);
    var agent := repo.LoadEndpointByUid(fields.uid);
    var success := false;
    if w.push.ConnectionLost? {
      if w.server.Some? && fields.redisPubSub.Some? {
        var address := KeyNames.ChangeRedisServer(fields.redisPubSub.value, w.server.value);
        EnsureEndpointKeeps(repo.db.t, fields.uid, Some(address), fields.agentId, fields.verkey, fields.fcm);
        repo.EnsureEndpointExists(fields.uid, Some(address), fields.agentId, fields.verkey, fields.fcm);
      }
    } else {
      success := w.push.acked;
    }
    if success {
      return Accepted;
    }
    if fields.fcm.None? || fields.fcm.value == "" {
      return Gone;
    }
    if !w.fcmEnabled {
      return Misdirected;
    }
    success := w.fcmSent;
    status := if success then Accepted else Gone;
  }

  // ------------------------------------------------------------------ routing

  /** One attempt to hand a message to an endpoint. */
  datatype Handed = Handed(uid: string, message: Wire)

  /** The position of the first key that leads to an endpoint. */
  function FirstRegistered(s: State, keys: seq<string>): Option<nat> {
    if keys == [] then None
    else if LoadEndpointViaRoutingKey(s, keys[0]).1.Some? then Some(0)
    else match FirstRegistered(s, keys[1..])
      case None => None
      case Some(i) => Some(i + 1)
  }

  lemma UnregisteredChangesNothing(s: State, key: string)
    ensures LoadEndpointViaRoutingKey(s, key).1.None? ==> LoadEndpointViaRoutingKey(s, key).0 == s
  {
  }

  /** The key a posted payload is routed by, and the message to hand on. */
  function Destination(s: State, mediatorVk: string, payload: Wire): Option<(string, Wire)> {
    if payload.Noise? then None
    else if mediatorVk in payload.recipients then
      match Open(payload, mediatorVk)
      case Some((Some(to), msg)) => if to == "" then None else Some((to, msg))
      case _ => None
    else
      match FirstRegistered(s, payload.recipients)
      case Some(i) => if i < |payload.recipients| then Some((payload.recipients[i], payload)) else None
      case None => None
  }

  /** `routing`. Whatever goes wrong, errors of the delivery included, is a 400. */
  method Route(repo: Repo, mediatorVk: string, payload: Wire, w: Weather) returns (status: Status, handed: seq<Handed>)
    requires WellFormed(repo.db.t)
    modifies repo`memcached, repo.db
    ensures WellFormed(repo.db.t)
    ensures var s := old(repo.View());
            match Destination(s, mediatorVk, payload)
            case None => status == BadRequest && handed == [] && repo.View() == s
            case Some((key, message)) =>
              var (s1, row) := LoadEndpointViaRoutingKey(s, key);
              if row.None? then status == BadRequest && handed == [] && repo.View() == s
              else
                && handed == [Handed(row.value.uid, message)] && repo.View() == Posted(s1, row.value, w)
                && status == if StatusOf(row.value, w) == Accepted then Accepted else BadRequest
    ensures repo.db.t != old(repo.db.t) ==> handed != [] && w.push.ConnectionLost? && w.server.Some?
  {
    handed := [];
    if payload.Noise? {
      return BadRequest, [];
    }
    if mediatorVk in payload.recipients {
      // unpacked with the mediator's key
      if !payload.content.Message? || payload.content.kind != FORWARD {
        return BadRequest, [];
      }
      if payload.content.to.None? || payload.content.to.value == "" {
        return BadRequest, [];
      }
      if payload.content.msg.None? {
        return BadRequest, [];
      }
      UnregisteredChangesNothing(repo.View(), payload.content.to.value);
      var row := repo.LoadEndpointByRoutingKey(payload.content.to.value);
      if row.None? {
        return BadRequest, [];
      }
      handed := [Handed(row.value.uid, payload.content.msg.value)];
      status := PostToDevice(repo, row.value, w);
      return if status == Accepted then Accepted else BadRequest, handed;
    }
    ghost var s := repo.View();
    for i := 0 to |payload.recipients|
      invariant repo.View() == s && WellFormed(repo.db.t)
      invariant Skipped(s, payload.recipients, i)
    {
      UnregisteredChangesNothing(s, payload.recipients[i]);
      var row := repo.LoadEndpointByRoutingKey(payload.recipients[i]);
      if row.Some? {
        FirstRegisteredIs(s, payload.recipients, i);
        handed := [Handed(row.value.uid, payload)];
        status := PostToDevice(repo, row.value, w);
        return if status == Accepted then Accepted else BadRequest, handed;
      }
    }
    NoneRegistered(s, payload.recipients);
    status := BadRequest;
  }

  /** Input wrapped for the mediator is routed if and only if it is a forward message
      with a `to` that is not empty and a `msg`: by the `to`, with the `msg` alone. */
  lemma WrappedGoesToItsKey(s: State, mediatorVk: string, payload: Wire, key: string, message: Wire)
    requires payload.Envelope? && mediatorVk in payload.recipients
    ensures Destination(s, mediatorVk, payload) == Some((key, message))
            <==> payload.content == Message(FORWARD, Some(key), Some(message)) && key != ""
  {
  }

  ghost predicate Skipped(s: State, keys: seq<string>, n: nat) {
    n <= |keys| && forall j :: 0 <= j < n ==> LoadEndpointViaRoutingKey(s, keys[j]).1.None?
  }

  lemma {:induction false} FirstRegisteredIs(s: State, keys: seq<string>, i: nat)
    requires Skipped(s, keys, i) && i < |keys| && LoadEndpointViaRoutingKey(s, keys[i]).1.Some?
    ensures FirstRegistered(s, keys) == Some(i)
    decreases |keys|
  {
    if i > 0 {
      FirstRegisteredIs(s, keys[1..], i - 1);
    }
  }

  lemma {:induction false} NoneRegistered(s: State, keys: seq<string>)
    requires Skipped(s, keys, |keys|)
    ensures FirstRegistered(s, keys) == None
    decreases |keys|
  {
    if keys != [] {
      NoneRegistered(s, keys[1..]);
    }
  }

  ghost predicate FirstAmong(s: State, keys: seq<string>, i: nat) {
    Skipped(s, keys, i) && i < |keys| && LoadEndpointViaRoutingKey(s, keys[i]).1.Some?
  }

  ghost predicate GoesFirst(s: State, keys: seq<string>, key: string) {
    exists i: nat :: FirstAmong(s, keys, i) && keys[i] == key
  }

  /** Unwrapped input goes, as it is, to the endpoint of the first registered
      recipient key and to no other; without one it goes nowhere. */
  lemma UnwrappedGoesToFirst(s: State, mediatorVk: string, payload: Wire, key: string, message: Wire)
    requires payload.Envelope? && mediatorVk !in payload.recipients
    ensures Destination(s, mediatorVk, payload) == Some((key, message))
            <==> message == payload && GoesFirst(s, payload.recipients, key)
  {
    var keys := payload.recipients;
    if i: nat :| FirstAmong(s, keys, i) {
      FirstRegisteredIs(s, keys, i);
      forall j: nat | FirstAmong(s, keys, j) ensures j == i {
        FirstRegisteredIs(s, keys, j);
      }
    } else {
      NothingFirst(s, keys, |keys|);
      NoneRegistered(s, keys);
    }
  }

  lemma {:induction false} NothingFirst(s: State, keys: seq<string>, n: nat)
    requires n <= |keys| && forall i: nat :: !FirstAmong(s, keys, i)
    ensures Skipped(s, keys, n)
  {
    if n > 0 {
      NothingFirst(s, keys, n - 1);
      assert !FirstAmong(s, keys, n - 1);
    }
  }

  // -------------------------------------------------------------- end to end

  /** After E's key list update whose last word about K is `add`, with no other
      endpoint holding K, a message wrapped for K with the granted mediator key
      has K as its destination, and K leads to E if and only if no entry of
      another endpoint is still cached under K. */
  lemma EndToEnd(s: State, uid: string, updates: seq<Update>, key: string, mediatorVk: string, message: Wire)
    requires WellFormed(s.tables) && uid in s.tables.endpoints && uid != "" && key != ""
    requires LoadEndpoint(s, uid).1 == EndpointAt(s.tables, uid)
    requires LastWord(updates, key) == Some(true)
    requires forall u :: Holds(s.tables.routingKeys, u, key) ==> u == uid
    ensures Covers([mediatorVk], Some(key))
    ensures var s1 := Updated(s, uid, updates);
            && Destination(s1, mediatorVk, Wrapped(message, Some(key), [mediatorVk])) == Some((key, message))
            && (var row := LoadEndpointViaRoutingKey(s1, key).1;
                && row.Some?
                && (row.value.uid == uid <==> CachedEndpoint(s, key).None? || CachedEndpoint(s, key).value.uid == uid))
  {
    WrappedOnce(message, key, mediatorVk);
    OwnerIsHolder(s, uid, updates, key);
    KeyLeadsTo(s, Updated(s, uid, updates), uid, key);
  }

  lemma OwnerIsHolder(s: State, uid: string, updates: seq<Update>, key: string)
    requires LastWord(updates, key) == Some(true)
    requires forall u :: Holds(s.tables.routingKeys, u, key) ==> u == uid
    ensures OwnerOf(Updated(s, uid, updates).tables.routingKeys, key) == Some(uid)
    ensures SameEndpointSide(s, Updated(s, uid, updates))
  {
    var rows := Updated(s, uid, updates).tables.routingKeys;
    KeyListMeaning(s, uid, updates, uid, key);
    forall u | Holds(rows, u, key) ensures u == uid {
      KeyListMeaning(s, uid, updates, u, key);
    }
    HolderOwns(rows, uid, key);
    UpdatesTouchKeysOnly(s, uid, updates);
  }

  lemma KeyLeadsTo(s: State, s1: State, uid: string, key: string)
    requires WellFormed(s.tables) && uid in s.tables.endpoints && uid != ""
    requires LoadEndpoint(s, uid).1 == EndpointAt(s.tables, uid)
    requires SameEndpointSide(s, s1) && OwnerOf(s1.tables.routingKeys, key) == Some(uid)
    ensures var row := LoadEndpointViaRoutingKey(s1, key).1;
            && row.Some?
            && (row.value.uid == uid <==> CachedEndpoint(s, key).None? || CachedEndpoint(s, key).value.uid == uid)
  {
    assert CachedEndpoint(s1, key) == CachedEndpoint(s, key);
    assert CachedEndpoint(s1, uid) == CachedEndpoint(s, uid);
  }

  /** No other endpoint has owned the key within the last cache lifetime. */
  ghost predicate Unclaimed(w: RepoEndpoints.World, key: string, uid: string) {
    forall i :: 0 <= i < |w.past| && w.s.now - TTL < w.past[i].now ==>
      var owner := OwnerOf(w.past[i].tables.routingKeys, key);
      owner == None || owner == Some(uid)
  }

  ghost predicate AlwaysWellFormed(w: RepoEndpoints.World) {
    forall i :: 0 <= i < |w.past| ==> WellFormed(w.past[i].tables)
  }

  /** What a sender can know: if no other endpoint has owned K for a cache lifetime,
      nothing of another endpoint is cached under K. */
  lemma UnclaimedIsUncached(w: RepoEndpoints.World, n: RepoEndpoints.Names, uid: string, key: string)
    requires RepoEndpoints.Inv(w, n) && AlwaysWellFormed(w) && key in n.routes && Unclaimed(w, key, uid)
    ensures CachedEndpoint(w.s, key).None? || CachedEndpoint(w.s, key).value.uid == uid
  {
    if CachedEndpoint(w.s, key).Some? {
      assert RepoEndpoints.SlotSourced(w, n, key);
      var row := CachedEndpoint(w.s, key).value;
      var filled := w.s.cache[Key(Endpoints, key)].expires - TTL;
      var u :| RepoEndpoints.RouteVia(w.past, filled - 1, filled - TTL, filled, key, u, row);
      var i :| 0 <= i < |w.past| && filled - 1 < w.past[i].now <= filled
               && OwnerOf(w.past[i].tables.routingKeys, key) == Some(u);
      var j :| && 0 <= j < |w.past| && filled - TTL < w.past[j].now <= filled
               && EndpointAt(w.past[j].tables, u) == Some(row);
    }
  }

  /** End to end in terms of what happened: whatever calls were made before, if no
      other endpoint has owned K for a cache lifetime, a message wrapped for K after
      E's update is routed by K, and K leads to E. */
  lemma EndToEndUnclaimed(w: RepoEndpoints.World, n: RepoEndpoints.Names, uid: string, updates: seq<Update>,
                          key: string, mediatorVk: string, message: Wire)
    requires RepoEndpoints.Inv(w, n) && AlwaysWellFormed(w) && key in n.routes && key != "" && Unclaimed(w, key, uid)
    requires WellFormed(w.s.tables) && uid in w.s.tables.endpoints && uid != ""
    requires LoadEndpoint(w.s, uid).1 == EndpointAt(w.s.tables, uid)
    requires LastWord(updates, key) == Some(true)
    requires forall u :: Holds(w.s.tables.routingKeys, u, key) ==> u == uid
    ensures Covers([mediatorVk], Some(key))
    ensures var s1 := Updated(w.s, uid, updates);
            && Destination(s1, mediatorVk, Wrapped(message, Some(key), [mediatorVk])) == Some((key, message))
            && LoadEndpointViaRoutingKey(s1, key).1.Some?
            && LoadEndpointViaRoutingKey(s1, key).1.value.uid == uid
  {
    UnclaimedIsUncached(w, n, uid, key);
    EndToEnd(w.s, uid, updates, key, mediatorVk, message);
  }

  lemma WrappedOnce(message: Wire, key: string, mediatorVk: string)
    ensures Covers([mediatorVk], Some(key))
    ensures Wrapped(message, Some(key), [mediatorVk]) == Layer(mediatorVk, Some(key), message)
  {
    AlwaysCovers([mediatorVk], Some(key));
    var keys := [mediatorVk];
    assert keys[..0] == [];
    assert Layers(keys[..0], KeysMap(keys, Some(key)), message) == message;
  }

  /** Endpoints, agents and cached endpoints are the same. */
  ghost predicate SameEndpointSide(s: State, s1: State) {
    && s1.tables.endpoints == s.tables.endpoints && s1.tables.agents == s.tables.agents && s1.now == s.now
    && (forall k: Key :: k.space == Endpoints ==> (k in s1.cache <==> k in s.cache))
    && (forall k: Key :: k.space == Endpoints && k in s.cache ==> s1.cache[k] == s.cache[k])
  }

  lemma {:induction false} UpdatesTouchKeysOnly(s: State, uid: string, updates: seq<Update>)
    ensures SameEndpointSide(s, Updated(s, uid, updates))
    decreases |updates|
  {
    if updates != [] {
      match updates[0]
      case Adding(k) => UpdatesTouchKeysOnly(CallAddKey(s, uid, KeyNames.ExtractKey(k)), uid, updates[1..]);
      case Removing(k) => UpdatesTouchKeysOnly(CallRemoveKey(s, uid, KeyNames.ExtractKey(k)), uid, updates[1..]);
      case Unexpected(_) =>
    }
  }

  /** The whole way: endpoint `uid` updates its key list, a sender wraps a message
      for K with the granted mediator key, and posts it. It is handed on once, and
      unchanged to that endpoint if and only if no entry of another endpoint is
      still cached under K. */
  method AddWrapAndPost(repo: Repo, uid: string, updates: seq<Update>, key: string, mediatorVk: string, message: Wire,
                        w: Weather) returns (status: Status, handed: seq<Handed>)
    requires WellFormed(repo.db.t) && uid in repo.db.t.endpoints && uid != "" && key != ""
    requires LoadEndpoint(repo.View(), uid).1 == EndpointAt(repo.db.t, uid)
    requires LastWord(updates, key) == Some(true)
    requires forall u :: Holds(repo.db.t.routingKeys, u, key) ==> u == uid
    modifies repo`memcached, repo.db
    ensures |handed| == 1 && handed[0].message == message
    ensures var stale := old(CachedEndpoint(repo.View(), key));
            handed == [Handed(uid, message)] <==> stale.None? || stale.value.uid == uid
    ensures status == Accepted || status == BadRequest
  {
    ghost var s := repo.View();
    EndToEnd(s, uid, updates, key, mediatorVk, message);
    UpdatesTouchKeysOnly(s, uid, updates);
    var confirmed := UpdateKeyList(repo, uid, updates);
    assert WellFormed(repo.db.t) by { assert repo.db.t == Updated(s, uid, updates).tables; }
    var wrapped := ForwardWired(message, Some(key), [mediatorVk]);
    status, handed := Route(repo, mediatorVk, wrapped.value, w);
  }

  // ----------------------------------------------------------------- failover

  /** The rows as a push reads them. */
  function RowsOf(t: Tables): PushClient.Rows {
    map u | u in t.endpoints :: t.endpoints[u].redisPubSub
  }

  /** A post whose push goes through redis: whatever address the fields name, the
      one stream entry goes to the address that the endpoint's row has now, and the
      outcome of the push decides the status. */
  method PostThroughRedis(repo: Repo, pushes: PushClient.RedisPush, fields: Endpoint, expireAt: int,
                          redis: PushClient.Weather, server: Option<string>, fcmEnabled: bool, fcmSent: bool)
    returns (status: Status)
    requires WellFormed(repo.db.t) && pushes.Valid()
    requires pushes.rows == RowsOf(repo.db.t)
    modifies repo`memcached, repo.db, pushes`addresses, pushes`channels, pushes`written, pushes`nextId
    ensures pushes.Valid()
    ensures var address := PushClient.DirectAddress(RowsOf(old(repo.db.t)), fields.uid);
            pushes.written == if address.None? || redis.writeFails then old(pushes.written)
                              else old(pushes.written) + [(address.value, old(pushes.nextId))]
    ensures FcmDevice(fields).None? ==>
              (status == Accepted <==>
                 && pushes.written != old(pushes.written)
                 && exists i: nat :: PushClient.Answers(redis.arrivals, old(pushes.nextId), redis.start, expireAt, i))
  {
    var outcome := pushes.Push(fields.uid, expireAt, redis);
    var push := if outcome.Returned? then Answered(outcome.value) else ConnectionLost;
    status := PostToDevice(repo, fields, Weather(push, server, fcmEnabled, fcmSent));
  }

  /** After a failover the next push goes to the new server, on a channel of the
      same name. */
  lemma NextPushMoves(s: State, fields: Endpoint, server: string, w: Weather)
    requires fields.redisPubSub.Some? && w.push.ConnectionLost? && w.server == Some(server)
    ensures var address := PushClient.DirectAddress(RowsOf(Posted(s, fields, w).tables), fields.uid);
            && address.Some? && address.value == server + "/" + KeyNames.AfterLast(fields.redisPubSub.value, '/')
            && KeyNames.AfterLast(address.value, '/') == KeyNames.AfterLast(fields.redisPubSub.value, '/')
  {
    KeyNames.SameChannel(fields.redisPubSub.value, server);
    var t := Posted(s, fields, w).tables;
    assert fields.uid in t.endpoints;
    assert |server + "/"| > 0;
  }

  /** The row with nothing but its address changed. */
  function Moved(t: Tables, uid: string, address: string): Tables
    requires uid in t.endpoints
  {
    t.(endpoints := t.endpoints[uid := t.endpoints[uid].(redisPubSub := Some(address))])
  }

  /** A failover writes back the fields that were read earlier, possibly from the
      cache. It changes nothing but the address if and only if every field it
      carries is null or still the stored one, and no other endpoint has the
      verkey by now. */
  lemma FailoverOnlyMovesIff(s: State, fields: Endpoint, server: string)
    requires WellFormed(s.tables) && fields.uid in s.tables.endpoints && fields.redisPubSub.Some?
    ensures var row := s.tables.endpoints[fields.uid];
            Failover(s, fields, Some(server)).tables
              == Moved(s.tables, fields.uid, KeyNames.ChangeRedisServer(fields.redisPubSub.value, server))
            <==>
            && FieldCurrent(fields.agentId, row.agentId) && FieldCurrent(fields.verkey, row.verkey)
            && FieldCurrent(fields.fcm, row.fcm) && EndpointRivals(s.tables, fields.uid, fields.verkey) == {}
  {
    var row := s.tables.endpoints[fields.uid];
    var address := KeyNames.ChangeRedisServer(fields.redisPubSub.value, server);
    var after := Failover(s, fields, Some(server)).tables;
    var rivals := EndpointRivals(s.tables, fields.uid, fields.verkey);
    if rivals == {} {
      assert s.tables.endpoints - {} == s.tables.endpoints;
      assert after.endpoints == s.tables.endpoints[fields.uid := after.endpoints[fields.uid]];
    } else {
      var u :| u in rivals;
      assert u in Moved(s.tables, fields.uid, address).endpoints && u !in after.endpoints;
    }
    assert Moved(s.tables, fields.uid, address).endpoints[fields.uid] == row.(redisPubSub := Some(address));
    if after.endpoints[fields.uid] == row.(redisPubSub := Some(address)) {
      assert FieldCurrent(fields.agentId, row.agentId) && FieldCurrent(fields.verkey, row.verkey);
      assert FieldCurrent(fields.fcm, row.fcm);
    }
  }
}
