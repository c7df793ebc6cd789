/** Pushers that share a channel object: when an ack that is there is enough, and
    a run in which it is not. */
module PushSharing {
  import opened Base
  import opened Packets
  import opened PushAck
  import opened PushCompleteness
  import RedisGroups

  ghost predicate OnlyReads(es: seq<Event>) {
    forall i :: 0 <= i < |es| ==> es[i].ReadPacket?
  }

  ghost predicate SomeoneWaits(w: World, c: nat) {
    exists q :: q in w.pushers && w.pushers[q].Awaiting? && w.pushers[q].channel == c
  }

  /** Nobody who waits on the channel has anything to read. */
  ghost predicate Exhausted(w: World, c: nat) {
    !SomeoneWaits(w, c) || c !in w.channels || w.channels[c].unread == []
  }

  /** A push waits, its ack is there, and no packet there would end it badly. */
  ghost predicate AckPending(w: World, k: Wait) {
    && k.p in w.pushers && w.pushers[k.p] == Awaiting(k.c, k.id, k.message)
    && k.c in w.channels && w.channels[k.c].address == k.address
    && Ack(k.id, true) in w.channels[k.c].unread
    && (forall i :: 0 <= i < |w.channels[k.c].unread| ==> BenignPacket(w.channels[k.c].unread[i]))
  }

  /** Not a close packet and not a refusal. */
  predicate BenignPacket(packet: Packet) {
    !packet.Close? && (packet.Ack? ==> packet.status)
  }

  ghost predicate Alone(w: World, k: Wait) {
    forall q :: q in w.pushers && q != k.p && w.pushers[q].Awaiting? ==> w.pushers[q].channel != k.c
  }

  /** The schedule in which `q` reads the acks of `k` and `k.p` reads the rest. */
  function Theft(unread: seq<Packet>, k: Wait, q: nat): seq<Event> {
    if unread == [] then []
    else
      [ReadPacket(if unread[0].Ack? && unread[0].id == k.id then q else k.p)] + Theft(unread[1..], k, q)
  }

  ghost predicate BothWait(w: World, k: Wait, q: nat, unread: seq<Packet>) {
    && k.p in w.pushers && w.pushers[k.p] == Awaiting(k.c, k.id, k.message)
    && q != k.p && q in w.pushers && w.pushers[q].Awaiting? && w.pushers[q].channel == k.c && w.pushers[q].id != k.id
    && k.c in w.channels && w.channels[k.c].unread == unread
    && (forall i :: 0 <= i < |unread| ==> BenignPacket(unread[i]))
  }

  lemma {:induction false} TheftSucceeds(w: World, k: Wait, q: nat, unread: seq<Packet>)
    requires BothWait(w, k, q, unread)
    ensures BothWait(Play(w, Theft(unread, k, q)), k, q, [])
    ensures OnlyReads(Theft(unread, k, q))
    decreases |unread|
  {
    if unread != [] {
      var es := Theft(unread, k, q);
      assert es[1..] == Theft(unread[1..], k, q);
      TheftSucceeds(Next(w, es[0]), k, q, unread[1..]);
    }
  }

  lemma ReadsUndisturbed(es: seq<Event>, k: Wait)
    requires OnlyReads(es)
    ensures AllUndisturbed(es, k)
  {
  }

  lemma AckIsRead(w: World, k: Wait)
    requires AckIsThere(w, k)
    ensures !Exhausted(w, k.c)
  {
  }

  /** When an ack is enough. A push waits for an ack that is there. Every schedule
      of reads that goes on until nobody on the channel has anything to read ends
      with the push answered True if and only if no other push waits on the same
      channel object; otherwise some schedule drops the ack for good. */
  lemma AckEnoughIff(w: World, k: Wait)
    requires Inv(w) && AckPending(w, k)
    ensures (forall es :: OnlyReads(es) && Exhausted(Play(w, es), k.c) ==> Done(Play(w, es), k)) <==> Alone(w, k)
  {
    if Alone(w, k) {
      forall es | OnlyReads(es) && Exhausted(Play(w, es), k.c) ensures Done(Play(w, es), k) {
        ReadsUndisturbed(es, k);
        PlayKeepsAck(w, es, k);
        if AckIsThere(Play(w, es), k) {
          AckIsRead(Play(w, es), k);
        }
      }
    } else {
      var q :| q in w.pushers && q != k.p && w.pushers[q].Awaiting? && w.pushers[q].channel == k.c;
      var unread := w.channels[k.c].unread;
      assert BothWait(w, k, q, unread);
      TheftSucceeds(w, k, q, unread);
      assert Exhausted(Play(w, Theft(unread, k, q)), k.c) && !Done(Play(w, Theft(unread, k, q)), k);
    }
  }

  // ------------------------------------------- schedules that also start pushes

  /** Reads, and pushes that others start. */
  ghost predicate ReadsAndStarts(es: seq<Event>, k: Wait) {
    forall i :: 0 <= i < |es| ==> es[i].ReadPacket? || (es[i].StartPush? && es[i].p != k.p)
  }

  /** A push starts on this channel object only when the ack has been read. */
  ghost predicate StartsThereLate(w: World, es: seq<Event>, k: Wait)
    decreases |es|
  {
    es == [] ||
    ((es[0].StartPush? && es[0].c == k.c ==> Done(w, k)) && StartsThereLate(Next(w, es[0]), es[1..], k))
  }

  lemma DoneStaysHere(w: World, e: Event, k: Wait)
    requires Done(w, k) && (e.ReadPacket? || (e.StartPush? && e.p != k.p))
    ensures Done(Next(w, e), k)
  {
  }

  lemma {:induction false} LateStartsKeepAck(w: World, es: seq<Event>, k: Wait)
    requires (AckIsThere(w, k) || Done(w, k)) && ReadsAndStarts(es, k) && StartsThereLate(w, es, k)
    ensures AckIsThere(Play(w, es), k) || Done(Play(w, es), k)
    decreases |es|
  {
    if es != [] {
      if Done(w, k) {
        DoneStaysHere(w, es[0], k);
      } else if es[0].ReadPacket? {
        ReadKeepsAck(w, es[0].p, k);
      } else {
        EventKeepsWaiting(w, es[0], k);
      }
      LateStartsKeepAck(Next(w, es[0]), es[1..], k);
    }
  }

  lemma BenignWait(w: World, k: Wait)
    requires AckPending(w, k) && Alone(w, k)
    ensures AckIsThere(w, k)
  {
    forall i | 0 <= i < |w.channels[k.c].unread| ensures Verdict(w.channels[k.c].unread[i], k.id) != Some(false) {
      assert BenignPacket(w.channels[k.c].unread[i]);
    }
  }

  /** The same for schedules of reads and starts: all those in which nobody starts a
      push on the channel object before the ack is read answer the push, if and only
      if nobody else waits there now. */
  lemma AckEnoughWithStartsIff(w: World, k: Wait)
    requires Inv(w) && AckPending(w, k)
    ensures (forall es :: ReadsAndStarts(es, k) && StartsThereLate(w, es, k) && Exhausted(Play(w, es), k.c) ==>
               Done(Play(w, es), k))
            <==> Alone(w, k)
  {
    if Alone(w, k) {
      BenignWait(w, k);
      forall es | ReadsAndStarts(es, k) && StartsThereLate(w, es, k) && Exhausted(Play(w, es), k.c)
        ensures Done(Play(w, es), k) {
        LateStartsKeepAck(w, es, k);
        if AckIsThere(Play(w, es), k) {
          AckIsRead(Play(w, es), k);
        }
      }
    } else {
      AckEnoughIff(w, k);
      var es :| OnlyReads(es) && Exhausted(Play(w, es), k.c) && !Done(Play(w, es), k);
      ReadsStartNothing(w, es, k);
    }
  }

  lemma {:induction false} ReadsStartNothing(w: World, es: seq<Event>, k: Wait)
    requires OnlyReads(es)
    ensures ReadsAndStarts(es, k) && StartsThereLate(w, es, k)
    decreases |es|
  {
    if es != [] {
      ReadsStartNothing(Next(w, es[0]), es[1..], k);
    }
  }

  /** The push is sure of its answer: every further reading gives it. */
  ghost predicate Sure(w: World, k: Wait) {
    forall es :: OnlyReads(es) && Exhausted(Play(w, es), k.c) ==> Done(Play(w, es), k)
  }

  /** And a push that starts there while the ack is unread takes the certainty away. */
  lemma EarlyStartUnsettles(w: World, k: Wait, q: nat, forward: Address, id: nat, message: int)
    requires Inv(w) && AckPending(w, k) && q != k.p && id !in w.issued && !(q in w.pushers && w.pushers[q].Awaiting?)
    ensures !Sure(Next(w, StartPush(q, k.c, forward, id, message)), k)
  {
    var w1 := Next(w, StartPush(q, k.c, forward, id, message));
    NextKeeps(w, StartPush(q, k.c, forward, id, message));
    assert w1.pushers[q] == Awaiting(k.c, id, message) && !Alone(w1, k);
    AckEnoughIff(w1, k);
  }

  /** The push waits and nothing on its channel would end it badly. */
  ghost predicate WaitsWell(w: World, k: Wait) {
    && k.p in w.pushers && w.pushers[k.p] == Awaiting(k.c, k.id, k.message)
    && k.c in w.channels && w.channels[k.c].address == k.address
    && (forall i :: 0 <= i < |w.channels[k.c].unread| ==> BenignPacket(w.channels[k.c].unread[i]))
  }

  lemma ScheduleStep(w: World, e: Event, k: Wait)
    requires WaitsWell(w, k) && (e.ReadPacket? || (e.StartPush? && e.p != k.p))
    ensures WaitsWell(Next(w, e), k) || Done(Next(w, e), k)
  {
  }

  lemma {:induction false} ScheduleKeeps(w: World, es: seq<Event>, k: Wait)
    requires (WaitsWell(w, k) || Done(w, k)) && ReadsAndStarts(es, k)
    ensures WaitsWell(Play(w, es), k) || Done(Play(w, es), k)
    decreases |es|
  {
    if es != [] {
      if Done(w, k) { DoneStaysHere(w, es[0], k); } else { ScheduleStep(w, es[0], k); }
      ScheduleKeeps(Next(w, es[0]), es[1..], k);
    }
  }

  lemma {:induction false} DrainsInVain(w: World, k: Wait)
    requires WaitsWell(w, k) && Ack(k.id, true) !in w.channels[k.c].unread
    ensures var es := Reads(k.p, |w.channels[k.c].unread|);
            OnlyReads(es) && Exhausted(Play(w, es), k.c) && !Done(Play(w, es), k)
    decreases |w.channels[k.c].unread|
  {
    var unread := w.channels[k.c].unread;
    if unread != [] {
      assert BenignPacket(unread[0]) && unread[0] in unread;
      assert forall x :: x in unread[1..] ==> x in unread;
      assert Reads(k.p, |unread|)[1..] == Reads(k.p, |unread| - 1);
      DrainsInVain(Next(w, ReadPacket(k.p)), k);
    }
  }

  /** After any schedule of reads and starts, whoever starts where: the push is sure
      of its answer if and only if it has it, or its ack is unread and nobody else
      waits on the channel object. */
  lemma SureIff(w: World, es: seq<Event>, k: Wait)
    requires Inv(w) && AckPending(w, k) && ReadsAndStarts(es, k)
    ensures var w1 := Play(w, es); Sure(w1, k) <==> Done(w1, k) || (AckPending(w1, k) && Alone(w1, k))
  {
    var w1 := Play(w, es);
    ScheduleKeeps(w, es, k);
    PlayKeeps(w, es);
    if Done(w1, k) {
      forall more | OnlyReads(more) ensures Done(Play(w1, more), k) {
        ReadsStayDone(w1, more, k);
      }
    } else if AckPending(w1, k) {
      AckEnoughIff(w1, k);
    } else {
      DrainsInVain(w1, k);
    }
  }

  lemma {:induction false} ReadsStayDone(w: World, es: seq<Event>, k: Wait)
    requires Done(w, k) && OnlyReads(es)
    ensures Done(Play(w, es), k)
    decreases |es|
  {
    if es != [] {
      DoneStaysHere(w, es[0], k);
      ReadsStayDone(Next(w, es[0]), es[1..], k);
    }
  }

  // ----------------------------------------------------------- a run that loses

  const SHARING: Listener := Listener("a", "g", 0)

  /** Such a state is reached from the start: two pushes to one address share the
      cached channel object, a listener serves the first and acks it. */
  function SharedRun(first: int, second: int): seq<Event> {
    [Redis("a", RedisGroups.Create("g")), Subscribe(0, "a"),
     StartPush(0, 0, "a", 0, first), StartPush(1, 0, "a", 1, second),
     Redis("a", RedisGroups.Fetch("g", 0, 1, false)), Take(SHARING), HandOn(SHARING), SendAck(SHARING)]
  }

  lemma {:induction false} PlaySplit(w: World, es: seq<Event>, n: nat)
    requires n <= |es|
    ensures Play(w, es) == Play(Play(w, es[..n]), es[n..])
    decreases n
  {
    if n > 0 {
      assert es[..n][1..] == es[1..][..n - 1] && es[1..][n - 1..] == es[n..];
      PlaySplit(Next(w, es[0]), es[1..], n - 1);
    }
  }

  lemma PlayTwo(w: World, a: Event, b: Event)
    ensures Play(w, [a, b]) == Next(Next(w, a), b)
  {
    assert [a, b][1..] == [b] && [b][1..] == [];
    assert Play(Next(w, a), [b]) == Next(Next(w, a), b);
  }

  lemma PlayFour(w: World, a: Event, b: Event, c: Event, d: Event)
    ensures Play(w, [a, b, c, d]) == Next(Next(Next(Next(w, a), b), c), d)
  {
    PlaySplit(w, [a, b, c, d], 2);
    assert [a, b, c, d][..2] == [a, b] && [a, b, c, d][2..] == [c, d];
    PlayTwo(w, a, b);
    PlayTwo(Next(Next(w, a), b), c, d);
  }

  const GROUPS := map["g" := RedisGroups.Group(0, [], map[])]

  ghost predicate Prepared(w: World) {
    w == World(map["a" := RedisGroups.Stream([], GROUPS)], map[0 := Channel("a", [])], map[], map[], map[], [])
  }

  ghost predicate BothPushed(w: World, first: int, second: int) {
    && w.channels == map[0 := Channel("a", [])] && w.holdings == map[] && w.delivered == []
    && w.pushers == map[0 := Awaiting(0, 0, first), 1 := Awaiting(0, 1, second)]
    && w.streams == map["a" := RedisGroups.Stream([Some(Push(0, "a", first)), Some(Push(1, "a", second))], GROUPS)]
  }

  lemma Prepares(first: int, second: int)
    ensures var es := SharedRun(first, second); Prepared(Next(Next(START, es[0]), es[1]))
  {
    var w1 := Next(START, SharedRun(first, second)[0]);
    assert w1.streams == map["a" := RedisGroups.Stream([], GROUPS)];
  }

  lemma Pushes(w: World, first: int, second: int)
    requires Prepared(w)
    ensures var es := SharedRun(first, second); BothPushed(Next(Next(w, es[2]), es[3]), first, second)
  {
    var es := SharedRun(first, second);
    var w1 := Next(w, es[2]);
    var (one, two) := (Some(Push(0, "a", first)), Some(Push(1, "a", second)));
    assert [] + [one] == [one] && [one] + [two] == [one, two];
    assert w1.streams["a"] == RedisGroups.Stream([one], GROUPS);
    assert w1.streams == map["a" := RedisGroups.Stream([Some(Push(0, "a", first))], GROUPS)];
    assert w1.pushers == map[0 := Awaiting(0, 0, first)] && w1.issued == map[0 := first];
  }

  ghost predicate Taken(w: World, w0: World, first: int, handedOn: bool) {
    && w.channels == w0.channels && w.pushers == w0.pushers
    && w.holdings == map[SHARING := Holding(0, "a", first, handedOn)]
    && w.delivered == if handedOn then [Delivery(0, first)] else []
  }

  lemma Takes(w: World, first: int, second: int)
    requires BothPushed(w, first, second)
    ensures var es := SharedRun(first, second); Taken(Next(Next(w, es[4]), es[5]), w, first, false)
  {
    var es := SharedRun(first, second);
    var stream := w.streams["a"];
    var grp := RedisGroups.FetchInto(stream.entries, stream.groups["g"], 0, 1, false);
    assert grp == RedisGroups.HandOne(stream.groups["g"], stream.entries[0], 0, false);
    assert RedisGroups.LocalOf(grp, 0).queue == [Push(0, "a", first)];
    assert Next(w, es[4]).streams["a"].groups["g"] == grp;
  }

  lemma Acks(w: World, w0: World, first: int, second: int)
    requires BothPushed(w0, first, second) && Taken(w, w0, first, false)
    ensures var es := SharedRun(first, second); var w1 := Next(Next(w, es[6]), es[7]);
            && w1.pushers == w0.pushers && w1.channels == map[0 := Channel("a", [Ack(0, true)])]
            && w1.delivered == [Delivery(0, first)]
  {
    var es := SharedRun(first, second);
    assert Taken(Next(w, es[6]), w0, first, true);
    assert [] + [Ack(0, true)] == [Ack(0, true)];
    assert Publish(w0.channels, "a", Ack(0, true)) == map[0 := Channel("a", [Ack(0, true)])];
  }

  lemma SharedRunIs(first: int, second: int)
    ensures var w := Play(START, SharedRun(first, second));
            && w.pushers == map[0 := Awaiting(0, 0, first), 1 := Awaiting(0, 1, second)]
            && w.channels == map[0 := Channel("a", [Ack(0, true)])] && w.delivered == [Delivery(0, first)]
  {
    var es := SharedRun(first, second);
    PlaySplit(START, es, 4);
    assert es[..4] == [es[0], es[1], es[2], es[3]] && es[4..] == [es[4], es[5], es[6], es[7]];
    PlayFour(START, es[0], es[1], es[2], es[3]);
    Prepares(first, second);
    Pushes(Next(Next(START, es[0]), es[1]), first, second);
    var w := Play(START, es[..4]);
    PlayFour(w, es[4], es[5], es[6], es[7]);
    Takes(w, first, second);
    Acks(Next(Next(w, es[4]), es[5]), w, first, second);
  }

  /** The run in which the first push loses its ack: its message was handed on and
      acked in time, the second pusher reads the ack, and then nothing is left to
      read while both go on waiting. */
  lemma SharedChannelLosesAck(first: int, second: int)
    ensures var w := Play(START, SharedRun(first, second));
            var w1 := Next(w, ReadPacket(1));
            && AckPending(w, Wait(0, 0, "a", 0, first)) && !Alone(w, Wait(0, 0, "a", 0, first))
            && Delivery(0, first) in w.delivered
            && w1.pushers == w.pushers && w1.pushers[0].Awaiting? && w1.channels[0].unread == []
            && Next(w1, ReadPacket(0)) == w1 && Next(w1, ReadPacket(1)) == w1
  {
    SharedRunIs(first, second);
    var w := Play(START, SharedRun(first, second));
    assert w.channels[0].unread[0] == Ack(0, true) && [Ack(0, true)][1..] == [];
    assert 1 in w.pushers && w.pushers[1] == Awaiting(0, 1, second);
  }
}
