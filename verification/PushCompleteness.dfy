/** Completeness of the ack wait among all interleavings: as long as a pusher has
    its channel object to itself and is not disconnected, an ack that a listener
    sends reaches it, whatever stale packets are in front of it. */
module PushCompleteness {
  import opened Base
  import opened Packets
  import opened PushAck

  /** One push: who waits, on which channel object, under which id. */
  datatype Wait = Wait(p: nat, c: nat, address: Address, id: nat, message: int)

  /** The event leaves the wait alone: its pusher does not give up, its channel is
      neither dropped, nor closed, nor given to another push. */
  ghost predicate Undisturbed(e: Event, k: Wait) {
    match e
    case DropChannel(c) => c != k.c
    case GiveUp(p) => p != k.p
    case StartPush(p, c, _, _, _) => p != k.p && c != k.c
    case ForeignPacket(a, packet) => !(a == k.address && packet.Close?)
    case _ => true
  }

  ghost predicate AllUndisturbed(es: seq<Event>, k: Wait) {
    forall i :: 0 <= i < |es| ==> Undisturbed(es[i], k)
  }

  ghost predicate Done(w: World, k: Wait) {
    k.p in w.pushers && w.pushers[k.p] == Answered(k.id, k.message, true)
  }

  /** The push waits alone on its channel, with nothing there that would end it badly. */
  ghost predicate Waiting(w: World, k: Wait) {
    && k.p in w.pushers && w.pushers[k.p] == Awaiting(k.c, k.id, k.message)
    && k.c in w.channels && w.channels[k.c].address == k.address
    && (forall q :: q in w.pushers && q != k.p && w.pushers[q].Awaiting? ==> w.pushers[q].channel != k.c)
    && (forall i :: 0 <= i < |w.channels[k.c].unread| ==> Verdict(w.channels[k.c].unread[i], k.id) != Some(false))
  }

  ghost predicate AckIsThere(w: World, k: Wait) {
    Waiting(w, k) && Ack(k.id, true) in w.channels[k.c].unread
  }

  lemma AppendVerdict(unread: seq<Packet>, packet: Packet, id: nat)
    requires forall i :: 0 <= i < |unread| ==> Verdict(unread[i], id) != Some(false)
    requires Verdict(packet, id) != Some(false)
    ensures forall i :: 0 <= i < |unread + [packet]| ==> Verdict((unread + [packet])[i], id) != Some(false)
  {
  }

  lemma PublishKeepsWaiting(w: World, a: Address, packet: Packet, k: Wait)
    requires Waiting(w, k) && (a == k.address ==> Verdict(packet, k.id) != Some(false))
    ensures Waiting(w.(channels := Publish(w.channels, a, packet)), k)
    ensures AckIsThere(w, k) ==> AckIsThere(w.(channels := Publish(w.channels, a, packet)), k)
  {
    if a == k.address {
      AppendVerdict(w.channels[k.c].unread, packet, k.id);
    }
  }

  lemma ReadKeepsWaiting(w: World, p: nat, k: Wait)
    requires Waiting(w, k)
    ensures Waiting(Next(w, ReadPacket(p)), k) || Done(Next(w, ReadPacket(p)), k)
  {
    var unread := w.channels[k.c].unread;
    if p == k.p && unread != [] {
      assert forall i :: 0 <= i < |unread[1..]| ==> unread[1..][i] == unread[i + 1];
    }
  }

  lemma StartKeepsWaiting(w: World, e: Event, k: Wait)
    requires Waiting(w, k) && Undisturbed(e, k) && e.StartPush?
    ensures Waiting(Next(w, e), k) && (AckIsThere(w, k) ==> AckIsThere(Next(w, e), k))
  {
  }

  /** Any other event keeps a wait going, and the ack where it is. */
  lemma OtherKeepsWaiting(w: World, e: Event, k: Wait)
    requires Waiting(w, k) && Undisturbed(e, k)
    requires !e.ReadPacket? && !e.SendAck? && !e.ForeignPacket? && !e.StartPush?
    ensures Waiting(Next(w, e), k) && (AckIsThere(w, k) ==> AckIsThere(Next(w, e), k))
  {
  }

  /** An undisturbed event keeps a wait going, or ends it with True. */
  lemma EventKeepsWaiting(w: World, e: Event, k: Wait)
    requires Waiting(w, k) && Undisturbed(e, k)
    ensures Waiting(Next(w, e), k) || Done(Next(w, e), k)
    ensures !e.ReadPacket? && AckIsThere(w, k) ==> AckIsThere(Next(w, e), k)
  {
    match e
    case SendAck(l) =>
      if l in w.holdings && w.holdings[l].handedOn {
        PublishKeepsWaiting(w, w.holdings[l].reverse, Ack(w.holdings[l].id, true), k);
      }
    case ForeignPacket(a, packet) => if !packet.Ack? { PublishKeepsWaiting(w, a, packet, k); }
    case ReadPacket(p) => ReadKeepsWaiting(w, p, k);
    case StartPush(_, _, _, _, _) => StartKeepsWaiting(w, e, k);
    case _ => OtherKeepsWaiting(w, e, k);
  }

  /** Reading takes one packet off, and never the ack without noticing it. */
  lemma ReadKeepsAck(w: World, p: nat, k: Wait)
    requires AckIsThere(w, k)
    ensures AckIsThere(Next(w, ReadPacket(p)), k) || Done(Next(w, ReadPacket(p)), k)
  {
  }

  lemma DoneStays(w: World, e: Event, k: Wait)
    requires Done(w, k) && Undisturbed(e, k)
    ensures Done(Next(w, e), k)
  {
  }

  lemma {:induction false} PlayKeepsWaiting(w: World, es: seq<Event>, k: Wait)
    requires (Waiting(w, k) || Done(w, k)) && AllUndisturbed(es, k)
    ensures Waiting(Play(w, es), k) || Done(Play(w, es), k)
    decreases |es|
  {
    if es != [] {
      if Done(w, k) { DoneStays(w, es[0], k); } else { EventKeepsWaiting(w, es[0], k); }
      PlayKeepsWaiting(Next(w, es[0]), es[1..], k);
    }
  }

  lemma {:induction false} PlayKeepsAck(w: World, es: seq<Event>, k: Wait)
    requires (AckIsThere(w, k) || Done(w, k)) && AllUndisturbed(es, k)
    ensures AckIsThere(Play(w, es), k) || Done(Play(w, es), k)
    decreases |es|
  {
    if es != [] {
      if Done(w, k) {
        DoneStays(w, es[0], k);
      } else if es[0].ReadPacket? {
        ReadKeepsAck(w, es[0].p, k);
      } else {
        EventKeepsWaiting(w, es[0], k);
      }
      PlayKeepsAck(Next(w, es[0]), es[1..], k);
    }
  }

  lemma AckArrives(w: World, l: Listener, k: Wait)
    requires Waiting(w, k) && l in w.holdings
    requires w.holdings[l].handedOn && w.holdings[l].id == k.id && w.holdings[l].reverse == k.address
    ensures AckIsThere(Next(w, SendAck(l)), k)
  {
  }

  function Reads(p: nat, n: nat): seq<Event> {
    if n == 0 then [] else [ReadPacket(p)] + Reads(p, n - 1)
  }

  /** The pusher reads on, through any number of stale packets, and finds its ack. */
  lemma {:induction false} Drain(w: World, k: Wait)
    requires AckIsThere(w, k)
    ensures Done(Play(w, Reads(k.p, |w.channels[k.c].unread|)), k)
    decreases |w.channels[k.c].unread|
  {
    var n := |w.channels[k.c].unread|;
    var w1 := Next(w, ReadPacket(k.p));
    ReadKeepsAck(w, k.p, k);
    assert Reads(k.p, n)[1..] == Reads(k.p, n - 1);
    if Done(w1, k) {
      ReadsAfterDone(w1, n - 1, k);
    } else {
      Drain(w1, k);
    }
  }

  lemma {:induction false} ReadsAfterDone(w: World, n: nat, k: Wait)
    requires Done(w, k)
    ensures Done(Play(w, Reads(k.p, n)), k)
  {
    if n > 0 {
      DoneStays(w, ReadPacket(k.p), k);
      assert Reads(k.p, n)[1..] == Reads(k.p, n - 1);
      ReadsAfterDone(Next(w, ReadPacket(k.p)), n - 1, k);
    }
  }

  /** A push that starts on a channel of its own with no close packet in it. */
  lemma StartWaits(w: World, p: nat, c: nat, forward: Address, id: nat, message: int)
    requires Inv(w) && c in w.channels && id !in w.issued && !(p in w.pushers && w.pushers[p].Awaiting?)
    requires forall q :: q in w.pushers && w.pushers[q].Awaiting? ==> w.pushers[q].channel != c
    requires Close !in w.channels[c].unread
    ensures Waiting(Next(w, StartPush(p, c, forward, id, message)), Wait(p, c, w.channels[c].address, id, message))
  {
  }

  /** Completeness: a push starts alone on its channel; in any undisturbed course of
      events a listener that holds its request acks it; then the push has been
      answered with True, or is as soon as it has read what is on its channel. */
  lemma AckCompleteness(w: World, p: nat, c: nat, forward: Address, id: nat, message: int,
                        before: seq<Event>, l: Listener, after: seq<Event>)
    requires Inv(w) && c in w.channels && id !in w.issued && !(p in w.pushers && w.pushers[p].Awaiting?)
    requires forall q :: q in w.pushers && w.pushers[q].Awaiting? ==> w.pushers[q].channel != c
    requires Close !in w.channels[c].unread
    requires var k := Wait(p, c, w.channels[c].address, id, message);
             AllUndisturbed(before, k) && AllUndisturbed(after, k)
    requires var w1 := Play(Next(w, StartPush(p, c, forward, id, message)), before);
             && l in w1.holdings && w1.holdings[l].handedOn && w1.holdings[l].id == id
             && w1.holdings[l].reverse == w.channels[c].address
    ensures var k := Wait(p, c, w.channels[c].address, id, message);
            var w2 := Play(Next(Play(Next(w, StartPush(p, c, forward, id, message)), before), SendAck(l)), after);
            Done(w2, k) || (c in w2.channels && Done(Play(w2, Reads(p, |w2.channels[c].unread|)), k))
  {
    var k := Wait(p, c, w.channels[c].address, id, message);
    StartWaits(w, p, c, forward, id, message);
    var w0 := Next(w, StartPush(p, c, forward, id, message));
    PlayKeepsWaiting(w0, before, k);
    var w1 := Play(w0, before);
    if Done(w1, k) { DoneStays(w1, SendAck(l), k); } else { AckArrives(w1, l, k); }
    PlayKeepsAck(Next(w1, SendAck(l)), after, k);
    var w2 := Play(Next(w1, SendAck(l)), after);
    if AckIsThere(w2, k) {
      Drain(w2, k);
    }
  }
}
