/** The pushing side: `RedisPush` with its two caches, and its wait for the ack. */
module PushClient {
  import opened Base
  import opened Packets
  import opened PushAck

  type EndpointId = string

  // ------------------------------------------------------------- ack waiting

  /** Something that happens on the reverse channel at a point of time. A packet of
      an odd kind, neither data nor close, is dropped inside the read. */
  datatype Arrival = Arrival(at: int, signal: Signal)
  datatype Signal = Received(packet: Packet) | Odd | Disconnected

  datatype Outcome = Returned(value: bool) | RaisedConnectionError

  ghost predicate InOrder(arrivals: seq<Arrival>) {
    forall i, j :: 0 <= i < j < |arrivals| ==> arrivals[i].at <= arrivals[j].at
  }

  /** The arrivals that end the wait for `id`; all others are read and dropped. */
  predicate Decides(a: Arrival, id: nat) {
    match a.signal
    case Disconnected => true
    case Odd => false
    case Received(packet) => Verdict(packet, id).Some?
  }

  function OutcomeOf(a: Arrival, id: nat): Outcome
    requires Decides(a, id)
  {
    match a.signal
    case Disconnected => RaisedConnectionError
    case Received(packet) => Returned(Verdict(packet, id).value)
  }

  /** A read in progress: the time, when it times out, and the timeout it was given. */
  datatype Reading = Reading(now: int, deadline: int, timeout: int)

  function NewRead(now: int, expireAt: int): Reading {
    Reading(now, expireAt, expireAt - now)
  }

  /** The read in force behind an arrival that does not decide: an odd packet makes
      the same read wait again with its full timeout; data ends the read, and the
      next one has the time that is left. */
  function After(r: Reading, a: Arrival, expireAt: int): Option<Reading> {
    var now := if r.now < a.at then a.at else r.now;
    if a.at >= r.deadline then None
    else if a.signal.Odd? then Some(Reading(now, now + r.timeout, r.timeout))
    else if now >= expireAt then None
    else Some(NewRead(now, expireAt))
  }

  /** The answer of a wait from a read in progress. */
  function Awaited(arrivals: seq<Arrival>, id: nat, expireAt: int, r: Reading): Outcome {
    if arrivals == [] || arrivals[0].at >= r.deadline then Returned(false)
    else if Decides(arrivals[0], id) then OutcomeOf(arrivals[0], id)
    else match After(r, arrivals[0], expireAt)
      case None => Returned(false)
      case Some(next) => Awaited(arrivals[1..], id, expireAt, next)
  }

  predicate NoneOdd(arrivals: seq<Arrival>) {
    forall i :: 0 <= i < |arrivals| ==> !arrivals[i].signal.Odd?
  }

  /** The ack-wait loop of `__push_internal`, from the moment the request is
      written, with the loop inside `AsyncRedisChannel.read`. A read takes the next
      packet as soon as it is there and times out when there is none before its
      deadline. The wait does not outlast `expireAt` unless odd packets arrive. */
  method AwaitAck(id: nat, start: int, expireAt: int, arrivals: seq<Arrival>) returns (outcome: Outcome, end: int)
    ensures outcome == if start >= expireAt then Returned(false)
                       else Awaited(arrivals, id, expireAt, NewRead(start, expireAt))
    ensures start <= end
    ensures NoneOdd(arrivals) ==> end <= expireAt || end == start
  {
    end := start;
    var next := 0;
    ghost var goal := Awaited(arrivals, id, expireAt, NewRead(start, expireAt));
    assert arrivals[0..] == arrivals;
    while end <= expireAt
      invariant next <= |arrivals| && start <= end
      invariant start >= expireAt ==> next == 0 && end == start
      invariant start < expireAt ==>
                  goal == if end < expireAt then Awaited(arrivals[next..], id, expireAt, NewRead(end, expireAt))
                          else Returned(false)
      invariant NoneOdd(arrivals) ==> end <= expireAt || end == start
      decreases |arrivals| - next, 1
    {
      var timeout := expireAt - end;
      if timeout <= 0 {
        return Returned(false), end;
      }
      var deadline := expireAt;
      var again := true;
      ghost var before := next;
      while again
        invariant next <= |arrivals| && start <= end && start < expireAt
        invariant again ==> goal == Awaited(arrivals[next..], id, expireAt, Reading(end, deadline, timeout))
        invariant again ==> end < deadline
        invariant !again ==>
                    goal == if end < expireAt then Awaited(arrivals[next..], id, expireAt, NewRead(end, expireAt))
                            else Returned(false)
        invariant NoneOdd(arrivals) ==> deadline == expireAt && (end <= expireAt || end == start)
        invariant next >= before && (!again ==> next > before)
        decreases |arrivals| - next, again
      {
        assert next == |arrivals| ==> arrivals[next..] == [];
        if next == |arrivals| || arrivals[next].at >= deadline {
          return Returned(false), deadline;
        }
        assert arrivals[next..][0] == arrivals[next] && arrivals[next..][1..] == arrivals[next + 1..];
        var a := arrivals[next];
        end := if end < a.at then a.at else end;
        if Decides(a, id) {
          return OutcomeOf(a, id), end;
        }
        next := next + 1;
        if a.signal.Odd? {
          deadline := end + timeout;
        } else {
          again := false;
        }
      }
    }
    outcome := Returned(false);
  }

  /** The read in force when the n-th arrival comes, if the wait lasts that long. */
  function InForce(arrivals: seq<Arrival>, expireAt: int, r: Reading, n: nat): Option<Reading>
    requires n <= |arrivals|
    decreases n
  {
    if n == 0 then Some(r)
    else match After(r, arrivals[0], expireAt)
      case None => None
      case Some(next) => InForce(arrivals[1..], expireAt, next, n - 1)
  }

  /** What a wait for `id` reads over: odd packets, data that is no ack, and acks of
      other requests. */
  predicate ReadOver(signal: Signal, id: nat) {
    signal == Odd || (signal.Received? && (signal.packet.OtherData? || (signal.packet.Ack? && signal.packet.id != id)))
  }

  /** The wait reaches the i-th arrival: it comes before the deadline of the read in
      force, behind nothing but packets that are read over. */
  ghost predicate Reaches(arrivals: seq<Arrival>, id: nat, expireAt: int, r: Reading, i: nat) {
    && i < |arrivals| && (forall j :: 0 <= j < i ==> ReadOver(arrivals[j].signal, id))
    && InForce(arrivals, expireAt, r, i).Some? && arrivals[i].at < InForce(arrivals, expireAt, r, i).value.deadline
  }

  /** The arrival that answers with True: an ack of this id with status True. */
  ghost predicate AnswersFrom(arrivals: seq<Arrival>, id: nat, expireAt: int, r: Reading, i: nat) {
    Reaches(arrivals, id, expireAt, r, i) && arrivals[i].signal == Received(Ack(id, true))
  }

  /** The loss of the connection during the wait. */
  ghost predicate LostFrom(arrivals: seq<Arrival>, id: nat, expireAt: int, r: Reading, i: nat) {
    Reaches(arrivals, id, expireAt, r, i) && arrivals[i].signal == Disconnected
  }

  ghost predicate Loses(arrivals: seq<Arrival>, id: nat, start: int, expireAt: int, i: nat) {
    start < expireAt && LostFrom(arrivals, id, expireAt, NewRead(start, expireAt), i)
  }

  ghost predicate Answers(arrivals: seq<Arrival>, id: nat, start: int, expireAt: int, i: nat) {
    start < expireAt && AnswersFrom(arrivals, id, expireAt, NewRead(start, expireAt), i)
  }

  /** Soundness and completeness of the wait: it ends with True exactly if such an
      ack is reached, however many stale ones precede it, and with a connection
      error exactly if the loss of the connection is. */
  lemma {:induction false} AwaitedIff(arrivals: seq<Arrival>, id: nat, expireAt: int, r: Reading)
    ensures Awaited(arrivals, id, expireAt, r) == Returned(true) <==>
            exists i: nat :: AnswersFrom(arrivals, id, expireAt, r, i)
    ensures Awaited(arrivals, id, expireAt, r) == RaisedConnectionError <==>
            exists i: nat :: LostFrom(arrivals, id, expireAt, r, i)
  {
    if arrivals != [] && arrivals[0].at < r.deadline {
      assert ReadOver(arrivals[0].signal, id) <==> !Decides(arrivals[0], id);
      if Decides(arrivals[0], id) {
        assert Reaches(arrivals, id, expireAt, r, 0);
        if OutcomeOf(arrivals[0], id) == Returned(true) {
          assert AnswersFrom(arrivals, id, expireAt, r, 0);
        }
        if OutcomeOf(arrivals[0], id) == RaisedConnectionError {
          assert LostFrom(arrivals, id, expireAt, r, 0);
        }
      } else if After(r, arrivals[0], expireAt).Some? {
        var rest := arrivals[1..];
        var next := After(r, arrivals[0], expireAt).value;
        AwaitedIff(rest, id, expireAt, next);
        ReachesLater(arrivals, id, expireAt, r, next);
        if i: nat :| AnswersFrom(rest, id, expireAt, next, i) {
          assert AnswersFrom(arrivals, id, expireAt, r, i + 1);
        }
        if i: nat :| AnswersFrom(arrivals, id, expireAt, r, i) {
          assert AnswersFrom(rest, id, expireAt, next, i - 1);
        }
        if i: nat :| LostFrom(rest, id, expireAt, next, i) {
          assert LostFrom(arrivals, id, expireAt, r, i + 1);
        }
        if i: nat :| LostFrom(arrivals, id, expireAt, r, i) {
          assert LostFrom(rest, id, expireAt, next, i - 1);
        }
      }
    }
  }

  lemma ReachesLater(arrivals: seq<Arrival>, id: nat, expireAt: int, r: Reading, next: Reading)
    requires arrivals != [] && ReadOver(arrivals[0].signal, id)
    requires After(r, arrivals[0], expireAt) == Some(next)
    ensures forall i: nat :: Reaches(arrivals[1..], id, expireAt, next, i)
                             ==> Reaches(arrivals, id, expireAt, r, i + 1)
    ensures forall i: nat :: i > 0 && Reaches(arrivals, id, expireAt, r, i)
                             ==> Reaches(arrivals[1..], id, expireAt, next, i - 1)
  {
  }

  lemma {:induction false} InForceWithoutOdd(arrivals: seq<Arrival>, expireAt: int, r: Reading, n: nat)
    requires n < |arrivals| && InOrder(arrivals) && NoneOdd(arrivals) && r.deadline == expireAt && r.now < expireAt
    ensures arrivals[n].at < expireAt ==> InForce(arrivals, expireAt, r, n).Some?
    ensures InForce(arrivals, expireAt, r, n).Some? ==> InForce(arrivals, expireAt, r, n).value.deadline == expireAt
    decreases n
  {
    if n > 0 && After(r, arrivals[0], expireAt).Some? {
      InForceWithoutOdd(arrivals[1..], expireAt, After(r, arrivals[0], expireAt).value, n - 1);
      assert arrivals[1..][n - 1] == arrivals[n];
    }
  }

  /** As long as only data and close packets travel, the deadline is `expireAt` all
      the time: stale acks never extend the wait, and any ack in time is enough. */
  lemma AnswersWithoutOdd(arrivals: seq<Arrival>, id: nat, start: int, expireAt: int, i: nat)
    requires InOrder(arrivals) && NoneOdd(arrivals)
    ensures Answers(arrivals, id, start, expireAt, i)
            <==> && start < expireAt && i < |arrivals| && arrivals[i].at < expireAt
                 && arrivals[i].signal == Received(Ack(id, true))
                 && forall j :: 0 <= j < i ==> ReadOver(arrivals[j].signal, id)
  {
    if start < expireAt && i < |arrivals| {
      InForceWithoutOdd(arrivals, expireAt, NewRead(start, expireAt), i);
    }
  }

  /** An odd packet makes the wait go on for as long as the read was given, from then
      on and no longer: an ack that comes after `expireAt` counts if it comes within
      that time. */
  lemma OddPacketExtends(id: nat, start: int, expireAt: int, odd: int, late: int)
    requires start <= odd < expireAt && odd <= late
    ensures var arrivals := [Arrival(odd, Odd), Arrival(late, Received(Ack(id, true)))];
            Awaited(arrivals, id, expireAt, NewRead(start, expireAt)) == Returned(true)
            <==> late - odd < expireAt - start
  {
    var arrivals := [Arrival(odd, Odd), Arrival(late, Received(Ack(id, true)))];
    assert arrivals[1..] == [arrivals[1]];
  }

  /** Data behind the odd packet ends that: what comes after it counts until
      `expireAt`, if the data came before it. */
  lemma DataEndsExtension(id: nat, start: int, expireAt: int, odd: int, data: int, late: int, tag: int)
    requires start <= odd < expireAt && odd <= data <= late
    ensures var arrivals := [Arrival(odd, Odd), Arrival(data, Received(OtherData(tag))),
                             Arrival(late, Received(Ack(id, true)))];
            Awaited(arrivals, id, expireAt, NewRead(start, expireAt)) == Returned(true)
            <==> data - odd < expireAt - start && late < expireAt
  {
    var arrivals := [Arrival(odd, Odd), Arrival(data, Received(OtherData(tag))),
                     Arrival(late, Received(Ack(id, true)))];
    var r1 := Reading(odd, odd + (expireAt - start), expireAt - start);
    assert arrivals[1..] == [arrivals[1], arrivals[2]] && arrivals[1..][1..] == [arrivals[2]];
    assert Awaited(arrivals, id, expireAt, NewRead(start, expireAt)) == Awaited(arrivals[1..], id, expireAt, r1);
  }

  // ---------------------------------------------------------- address lookup

  /** A pair of channels as the cache keeps it; both are opened on one address. */
  datatype Channels = Channels(forward: Address, reverse: Address)

  /** An endpoint's `redis_pub_sub` column, None for a missing row. */
  type Rows = map<EndpointId, Option<Address>>

  function Usable(a: Option<Address>): Option<Address> {
    if a.Some? && a.value != "" then a else None
  }

  /** What a direct look at the table gives: an address a push can use. */
  function DirectAddress(rows: Rows, endpoint: EndpointId): Option<Address> {
    if endpoint in rows then Usable(rows[endpoint]) else None
  }

  /** What the environment does to the one write and to the wait behind it. */
  datatype Weather = Weather(writeFails: bool, start: int, arrivals: seq<Arrival>)

  predicate IsAck(a: Arrival) {
    a.signal.Received? && a.signal.packet.Ack?
  }

  /** How the wait ends, in terms of the arrivals. */
  lemma DecidedBy(weather: Weather, id: nat, expireAt: int)
    ensures var outcome := if weather.start >= expireAt then Returned(false)
                           else Awaited(weather.arrivals, id, expireAt, NewRead(weather.start, expireAt));
            && (outcome == Returned(true) <==>
                  exists i: nat :: Answers(weather.arrivals, id, weather.start, expireAt, i))
            && (outcome == RaisedConnectionError <==>
                  exists i: nat :: Loses(weather.arrivals, id, weather.start, expireAt, i))
            && (outcome == Returned(true) ==>
                  exists a :: a in weather.arrivals && IsAck(a) && a.signal.packet.id == id)
  {
    var r := NewRead(weather.start, expireAt);
    AwaitedIff(weather.arrivals, id, expireAt, r);
    assert weather.start < expireAt ==> forall i: nat ::
        && (Answers(weather.arrivals, id, weather.start, expireAt, i)
            <==> AnswersFrom(weather.arrivals, id, expireAt, r, i))
        && (Loses(weather.arrivals, id, weather.start, expireAt, i)
            <==> LostFrom(weather.arrivals, id, expireAt, r, i));
    if i: nat :| Answers(weather.arrivals, id, weather.start, expireAt, i) {
      assert weather.arrivals[i] in weather.arrivals && IsAck(weather.arrivals[i]);
    }
  }

  class RedisPush {
    var rows: Rows                          // the endpoints table
    var addresses: map<EndpointId, Address> // memcached: endpoint -> address
    var channels: map<Address, Channels>    // the channel cache
    var written: seq<(Address, nat)>        // stream entries written so far
    var nextId: nat                         // uuid4 as a counter

    /** Channel pairs sit under their own address, and no request id was written
        twice or is still to come. */
    ghost predicate Valid()
      reads this
    {
      && (forall a :: a in channels ==> channels[a] == Channels(a, a))
      && (forall i, j :: 0 <= i < j < |written| ==> written[i].1 != written[j].1)
      && (forall i :: 0 <= i < |written| ==> written[i].1 < nextId)
    }

    /** The request with this id has been written. */
    ghost predicate Wrote(id: nat)
      reads this
    {
      exists i :: 0 <= i < |written| && written[i].1 == id
    }

    constructor (rows: Rows, addresses: map<EndpointId, Address>)
      ensures Valid() && this.rows == rows && this.addresses == addresses && written == [] && channels == map[]
    {
      this.rows, this.addresses := rows, addresses;
      channels, written, nextId := map[], [], 0;
    }

    /** `__get_session_channel_address`. When the address is cached and the cache
        is not to be ignored, the function ends without returning it. */
    method SessionChannelAddress(endpoint: EndpointId, ignoreCache: bool) returns (r: Option<Address>)
      modifies this`addresses
      ensures ignoreCache ==> Usable(r) == DirectAddress(rows, endpoint)
      ensures !ignoreCache ==> Usable(r) == DirectAddress(rows, endpoint) || r == None
      ensures r.None? && !ignoreCache && DirectAddress(rows, endpoint).Some? ==> addresses == old(addresses)
      ensures addresses - {endpoint} == old(addresses) - {endpoint}
      ensures Usable(r).Some? ==> endpoint in addresses && addresses[endpoint] == r.value
      ensures ignoreCache && Usable(r).None? ==> endpoint !in addresses || addresses[endpoint] == ""
    {
      var address := Usable(if endpoint in addresses then Some(addresses[endpoint]) else None);
      if address.Some? && ignoreCache {
        addresses := addresses - {endpoint};
      }
      if address.None? || ignoreCache {
        if endpoint in rows {
          var current := rows[endpoint];
          if Usable(current).Some? {
            addresses := addresses[endpoint := current.value];
          }
          return current;
        } else {
          return None;
        }
      }
      r := None;
    }

    /** `__get_channel`. */
    method GetChannel(endpoint: EndpointId, ignoreCache: bool) returns (r: Option<Channels>)
      requires Valid()
      modifies this`addresses, this`channels
      ensures Valid()
      ensures r.Some? ==> DirectAddress(rows, endpoint) == Some(r.value.forward) && r.value.reverse == r.value.forward
      ensures r.Some? ==> channels == old(channels)[r.value.forward := r.value]
      ensures r.None? ==> channels == old(channels)
      ensures r.Some? ==> endpoint in addresses && addresses[endpoint] == r.value.forward
      ensures ignoreCache ==> (r.Some? <==> DirectAddress(rows, endpoint).Some?)
    {
      var address := SessionChannelAddress(endpoint, ignoreCache);
      if address.None? || address.value == "" {
        return None;
      }
      var a := address.value;
      if a !in channels {
        channels := channels[a := Channels(a, a)];
      }
      r := Some(channels[a]);
    }

    /** `push`: its retry loop never goes round twice, so this is one call of
        `__push_internal` with a read timeout turned into False. Whatever the two
        caches hold, the push uses the address in the table, writes at most one
        stream entry, and its outcome is decided by the ack wait. */
    method Push(endpoint: EndpointId, expireAt: int, weather: Weather) returns (outcome: Outcome)
      requires Valid()
      modifies this`addresses, this`channels, this`written, this`nextId
      ensures Valid() && nextId >= old(nextId) && !old(Wrote(nextId))
      ensures DirectAddress(rows, endpoint).None? ==> outcome == Returned(false) && written == old(written)
      ensures written != old(written) ==>
                && endpoint in rows && rows[endpoint].Some? && rows[endpoint].value != ""
                && |written| == |old(written)| + 1 && written[|old(written)|].0 == rows[endpoint].value
      ensures !weather.writeFails && endpoint in rows && rows[endpoint].GetOr("") != "" ==> written != old(written)
      ensures DirectAddress(rows, endpoint).Some? && weather.writeFails ==>
                outcome == RaisedConnectionError && written == old(written)
      ensures DirectAddress(rows, endpoint).Some? && !weather.writeFails ==>
                written == old(written) + [(DirectAddress(rows, endpoint).value, old(nextId))]
      ensures outcome == Returned(true) <==>
                && DirectAddress(rows, endpoint).Some? && !weather.writeFails
                && exists i: nat :: Answers(weather.arrivals, old(nextId), weather.start, expireAt, i)
      ensures outcome == Returned(true) ==>
                exists a :: a in weather.arrivals && IsAck(a) && !old(Wrote(a.signal.packet.id))
      ensures outcome.RaisedConnectionError? <==>
                && DirectAddress(rows, endpoint).Some?
                && (weather.writeFails
                    || exists i: nat :: Loses(weather.arrivals, old(nextId), weather.start, expireAt, i))
      ensures outcome.RaisedConnectionError? ==>
                && endpoint !in addresses && DirectAddress(rows, endpoint).Some?
                && DirectAddress(rows, endpoint).value !in channels
    {
      for pass := 0 to 2
        invariant Valid() && written == old(written) && nextId == old(nextId)
        invariant pass == 2 ==> DirectAddress(rows, endpoint).None?
      {
        var found := GetChannel(endpoint, pass == 1);
        if found.Some? {
          var ch := found.value;
          if weather.writeFails {
            CleanOnDisconnect(endpoint, ch);
            return RaisedConnectionError;
          }
          var id := nextId;
          nextId := nextId + 1;
          written := written + [(ch.forward, id)];
          var end;
          outcome, end := AwaitAck(id, weather.start, expireAt, weather.arrivals);
          DecidedBy(weather, id, expireAt);
          if outcome.RaisedConnectionError? {
            CleanOnDisconnect(endpoint, ch);
          }
          return;
        }
      }
      outcome := Returned(false);
    }

    /** `__clean_on_disconnect`. */
    method CleanOnDisconnect(endpoint: EndpointId, ch: Channels)
      requires Valid()
      modifies this`addresses, this`channels
      ensures Valid()
      ensures addresses == old(addresses) - {endpoint} && channels == old(channels) - {ch.forward}
    {
      addresses := addresses - {endpoint};
      if ch.forward in channels {
        channels := channels - {ch.forward};
      }
    }
  }

  /** Two pushes in a row. The second is never answered True by acks of requests
      that were written before it, the first one's in particular, however late they
      come; and no two requests share an id. */
  method PushTwice(pushes: RedisPush, endpoint: EndpointId, expireAt: int, weather: Weather,
                   endpoint2: EndpointId, expireAt2: int, weather2: Weather)
    returns (first: Outcome, second: Outcome, ghost between: seq<(Address, nat)>)
    requires pushes.Valid()
    modifies pushes`addresses, pushes`channels, pushes`written, pushes`nextId
    ensures pushes.Valid() && old(pushes.written) <= between <= pushes.written
    ensures first == Returned(true) ==> |between| == |old(pushes.written)| + 1
    ensures second == Returned(true) ==> |pushes.written| == |between| + 1
    ensures (forall a :: a in weather2.arrivals && IsAck(a) ==>
               exists i :: 0 <= i < |between| && between[i].1 == a.signal.packet.id) ==>
            second != Returned(true)
  {
    first := pushes.Push(endpoint, expireAt, weather);
    between := pushes.written;
    second := pushes.Push(endpoint2, expireAt2, weather2);
  }
}
