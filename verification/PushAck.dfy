/** The push/ack protocol: any number of pushers and listeners, interleaved.

    A pusher writes a request with a fresh id to a stream and waits on a reverse
    channel for an ack of that id. Channel objects are shared between pushers,
    every ack goes to every channel subscribed to its address, and stale or
    foreign packets may be in the way. A listener takes a request from its
    reader, hands the message on (queues it for pickup, sends it over the
    websocket or yields it) and only then acks. */
module PushAck {
  import opened Base
  import opened Packets
  import opened RedisGroups

  /** A channel object: its address and the packets it has not read yet. */
  datatype Channel = Channel(address: Address, unread: seq<Packet>)

  datatype Pusher =
    | Awaiting(channel: nat, id: nat, message: int)
    | Answered(id: nat, message: int, result: bool)

  /** A request a listener works on. */
  datatype Holding = Holding(id: nat, reverse: Address, message: int, handedOn: bool)

  datatype Listener = Listener(address: Address, group: GroupId, reader: ReaderId)

  /** A message handed on by some listener, with its request's id. */
  datatype Delivery = Delivery(id: nat, message: int)

  datatype World = World(
    streams: map<Address, Stream>,
    channels: map<nat, Channel>,
    pushers: map<nat, Pusher>,
    holdings: map<Listener, Holding>,
    issued: map<nat, int>,       // the message of every request id used so far
    delivered: seq<Delivery>)

  datatype Event =
    | Subscribe(c: nat, address: Address)
    | DropChannel(c: nat)
    | StartPush(p: nat, c: nat, forward: Address, id: nat, message: int)
    | ReadPacket(p: nat)
    | GiveUp(p: nat)                              // timeout or connection error
    | Redis(address: Address, e: RedisGroups.Event)
    | Take(l: Listener)
    | HandOn(l: Listener)
    | SendAck(l: Listener)
    | Abandon(l: Listener)
    | ForeignPacket(address: Address, packet: Packet)

  const START := World(map[], map[], map[], map[], map[], [])

  function StreamAt(w: World, a: Address): Stream {
    if a in w.streams then w.streams[a] else Stream([], map[])
  }

  function Publish(cs: map<nat, Channel>, a: Address, packet: Packet): map<nat, Channel> {
    map c | c in cs :: if cs[c].address == a then cs[c].(unread := cs[c].unread + [packet]) else cs[c]
  }

  /** What one packet means to a pusher waiting for an ack of `id`: None to read on. */
  function Verdict(packet: Packet, id: nat): Option<bool> {
    match packet
    case Ack(i, status) => if i == id then Some(status) else None
    case OtherData(_) => None
    case Close => Some(false)
  }

  function Pushing(w: World, p: nat, c: nat, forward: Address, id: nat, message: int): World {
    if c !in w.channels || id in w.issued || (p in w.pushers && w.pushers[p].Awaiting?) then w
    else
      var s := Step(StreamAt(w, forward), Write(Some(Push(id, w.channels[c].address, message))));
      w.(streams := w.streams[forward := s], issued := w.issued[id := message],
         pushers := w.pushers[p := Awaiting(c, id, message)])
  }

  function Reading(w: World, p: nat): World {
    if p in w.pushers && w.pushers[p].Awaiting? && w.pushers[p].channel in w.channels then
      var a := w.pushers[p];
      var ch := w.channels[a.channel];
      if ch.unread == [] then w
      else
        var w1 := w.(channels := w.channels[a.channel := ch.(unread := ch.unread[1..])]);
        match Verdict(ch.unread[0], a.id)
        case None => w1
        case Some(result) => w1.(pushers := w.pushers[p := Answered(a.id, a.message, result)])
    else w
  }

  function Taking(w: World, l: Listener): World {
    var s := StreamAt(w, l.address);
    if l in w.holdings || l.group !in s.groups || LocalOf(s.groups[l.group], l.reader).queue == [] then w
    else
      var w1 := w.(streams := w.streams[l.address := Step(s, Return(l.group, l.reader))]);
      match LocalOf(s.groups[l.group], l.reader).queue[0]
      case Push(id, reverse, message) => w1.(holdings := w.holdings[l := Holding(id, reverse, message, false)])
      case OtherPayload(_) => w1
  }

  function Handing(w: World, l: Listener): World {
    if l in w.holdings then
      var h := w.holdings[l];
      w.(holdings := w.holdings[l := h.(handedOn := true)], delivered := w.delivered + [Delivery(h.id, h.message)])
    else w
  }

  function Acking(w: World, l: Listener): World {
    if l in w.holdings && w.holdings[l].handedOn then
      w.(holdings := w.holdings - {l},
         channels := Publish(w.channels, w.holdings[l].reverse, Ack(w.holdings[l].id, true)))
    else w
  }

  /** Redis events of others: creating groups, fetching, and foreign writes. */
  function RedisStep(w: World, a: Address, e: RedisGroups.Event): World {
    if e.Return? || (e.Write? && e.entry.Some? && e.entry.value.Push?) then w
    else w.(streams := w.streams[a := Step(StreamAt(w, a), e)])
  }

  function Next(w: World, e: Event): World {
    match e
    case Subscribe(c, a) => if c in w.channels then w else w.(channels := w.channels[c := Channel(a, [])])
    case DropChannel(c) => w.(channels := w.channels - {c})
    case StartPush(p, c, forward, id, message) => Pushing(w, p, c, forward, id, message)
    case ReadPacket(p) => Reading(w, p)
    case GiveUp(p) =>
      if p in w.pushers && w.pushers[p].Awaiting? then
        w.(pushers := w.pushers[p := Answered(w.pushers[p].id, w.pushers[p].message, false)])
      else w
    case Redis(a, r) => RedisStep(w, a, r)
    case Take(l) => Taking(w, l)
    case HandOn(l) => Handing(w, l)
    case SendAck(l) => Acking(w, l)
    case Abandon(l) => w.(holdings := w.holdings - {l})
    case ForeignPacket(a, packet) => if packet.Ack? then w else w.(channels := Publish(w.channels, a, packet))
  }

  function Play(w: World, es: seq<Event>): World
    decreases |es|
  {
    if es == [] then w else Play(Next(w, es[0]), es[1..])
  }

  // ------------------------------------------------------------- soundness

  /** A push payload carries the message its id was issued for. */
  predicate Genuine(p: Payload, issued: map<nat, int>) {
    p.Push? ==> p.id in issued && issued[p.id] == p.message
  }

  ghost predicate AllGenuine(q: seq<Payload>, issued: map<nat, int>) {
    forall i :: 0 <= i < |q| ==> Genuine(q[i], issued)
  }

  ghost predicate GenuineLocals(grp: Group, issued: map<nat, int>) {
    forall r: ReaderId :: AllGenuine(LocalOf(grp, r).queue, issued)
  }

  ghost predicate GenuineStream(s: Stream, issued: map<nat, int>) {
    && (forall i :: 0 <= i < |s.entries| && s.entries[i].Some? ==> Genuine(s.entries[i].value, issued))
    && (forall g :: g in s.groups ==> GenuineLocals(s.groups[g], issued))
  }

  ghost predicate WasDelivered(id: nat, message: int, delivered: seq<Delivery>) {
    Delivery(id, message) in delivered
  }

  ghost predicate StreamsOk(streams: map<Address, Stream>, issued: map<nat, int>) {
    forall a :: a in streams ==> GenuineStream(streams[a], issued)
  }

  /** Every ack in flight is for a request whose message was handed on before. */
  ghost predicate PacketsOk(channels: map<nat, Channel>, issued: map<nat, int>, delivered: seq<Delivery>) {
    forall c, k :: c in channels && k in channels[c].unread && k.Ack? ==>
      k.id in issued && WasDelivered(k.id, issued[k.id], delivered)
  }

  ghost predicate PushersOk(pushers: map<nat, Pusher>, issued: map<nat, int>, delivered: seq<Delivery>) {
    forall p :: p in pushers ==>
      && pushers[p].id in issued && issued[pushers[p].id] == pushers[p].message
      && (pushers[p].Answered? && pushers[p].result ==> WasDelivered(pushers[p].id, pushers[p].message, delivered))
  }

  /** No two pushes share a request id. */
  ghost predicate IdsDiffer(pushers: map<nat, Pusher>) {
    forall p, q :: p in pushers && q in pushers && p != q ==> pushers[p].id != pushers[q].id
  }

  ghost predicate HoldingsOk(holdings: map<Listener, Holding>, issued: map<nat, int>, delivered: seq<Delivery>) {
    forall l :: l in holdings ==>
      && holdings[l].id in issued && issued[holdings[l].id] == holdings[l].message
      && (holdings[l].handedOn ==> WasDelivered(holdings[l].id, holdings[l].message, delivered))
  }

  ghost predicate Inv(w: World) {
    && StreamsOk(w.streams, w.issued)
    && PacketsOk(w.channels, w.issued, w.delivered)
    && PushersOk(w.pushers, w.issued, w.delivered)
    && IdsDiffer(w.pushers)
    && HoldingsOk(w.holdings, w.issued, w.delivered)
  }

  lemma HandGenuine(grp: Group, entry: Fields, r: ReaderId, lost: bool, issued: map<nat, int>)
    requires GenuineLocals(grp, issued) && (entry.Some? ==> Genuine(entry.value, issued))
    ensures GenuineLocals(HandOne(grp, entry, r, lost), issued)
  {
    forall x: ReaderId ensures AllGenuine(LocalOf(HandOne(grp, entry, r, lost), x).queue, issued) {
      assert AllGenuine(LocalOf(grp, x).queue, issued);
    }
  }

  lemma {:induction false} FetchGenuine(entries: seq<Fields>, grp: Group, r: ReaderId, count: nat, lost: bool,
                                       issued: map<nat, int>)
    requires GenuineLocals(grp, issued)
    requires forall i :: 0 <= i < |entries| && entries[i].Some? ==> Genuine(entries[i].value, issued)
    ensures GenuineLocals(FetchInto(entries, grp, r, count, lost), issued)
    decreases count
  {
    var next := grp.start + |grp.log|;
    if count > 0 && next < |entries| {
      HandGenuine(grp, entries[next], r, lost, issued);
      FetchGenuine(entries, HandOne(grp, entries[next], r, lost), r, count - 1, lost, issued);
    }
  }

  lemma StepGenuine(s: Stream, e: RedisGroups.Event, issued: map<nat, int>)
    requires GenuineStream(s, issued)
    requires e.Write? && e.entry.Some? ==> Genuine(e.entry.value, issued)
    ensures GenuineStream(Step(s, e), issued)
  {
    match e
    case Write(_) =>
    case Create(_) =>
    case Fetch(g, r, count, lost) =>
      if g in s.groups { FetchGenuine(s.entries, s.groups[g], r, count, lost, issued); }
    case Return(g, r) =>
      if g in s.groups {
        forall x: ReaderId ensures AllGenuine(LocalOf(ReturnFrom(s.groups[g], r), x).queue, issued) {
          assert AllGenuine(LocalOf(s.groups[g], x).queue, issued);
        }
      }
  }

  lemma IssueKeeps(w: World, id: nat, message: int)
    requires Inv(w) && id !in w.issued
    ensures Inv(w.(issued := w.issued[id := message]))
  {
  }

  lemma PushKeeps(w: World, p: nat, c: nat, forward: Address, id: nat, message: int)
    requires Inv(w)
    ensures Inv(Pushing(w, p, c, forward, id, message))
  {
    if id !in w.issued && c in w.channels {
      IssueKeeps(w, id, message);
      StepGenuine(StreamAt(w, forward), Write(Some(Push(id, w.channels[c].address, message))), w.issued[id := message]);
    }
  }

  lemma TakeKeeps(w: World, l: Listener)
    requires Inv(w)
    ensures Inv(Taking(w, l))
  {
    var s := StreamAt(w, l.address);
    StepGenuine(s, Return(l.group, l.reader), w.issued);
    if l.group in s.groups {
      assert GenuineLocals(s.groups[l.group], w.issued);
      assert AllGenuine(LocalOf(s.groups[l.group], l.reader).queue, w.issued);
    }
  }

  lemma ReadKeeps(w: World, p: nat)
    requires Inv(w)
    ensures Inv(Reading(w, p))
  {
  }

  lemma PublishKeeps(w: World, a: Address, packet: Packet)
    requires Inv(w)
    requires packet.Ack? ==> packet.id in w.issued && WasDelivered(packet.id, w.issued[packet.id], w.delivered)
    ensures PacketsOk(Publish(w.channels, a, packet), w.issued, w.delivered)
  {
  }

  lemma NextKeeps(w: World, e: Event)
    requires Inv(w)
    ensures Inv(Next(w, e))
  {
    match e
    case StartPush(p, c, forward, id, message) => PushKeeps(w, p, c, forward, id, message);
    case ReadPacket(p) => ReadKeeps(w, p);
    case Redis(a, r) =>
      if !(r.Write? && r.entry.Some? && r.entry.value.Push?) { StepGenuine(StreamAt(w, a), r, w.issued); }
    case Take(l) => TakeKeeps(w, l);
    case SendAck(l) =>
      if l in w.holdings && w.holdings[l].handedOn {
        PublishKeeps(w, w.holdings[l].reverse, Ack(w.holdings[l].id, true));
      }
    case ForeignPacket(a, packet) =>
      if !packet.Ack? { PublishKeeps(w, a, packet); }
    case _ =>
  }

  lemma {:induction false} PlayKeeps(w: World, es: seq<Event>)
    requires Inv(w)
    ensures Inv(Play(w, es))
    decreases |es|
  {
    if es != [] {
      NextKeeps(w, es[0]);
      PlayKeeps(Next(w, es[0]), es[1..]);
    }
  }

  /** In every interleaving, a push that returned True had its own message
      handed on by a listener, under the id of that very request. */
  lemma PushSoundness(es: seq<Event>, p: nat)
    requires var w := Play(START, es); p in w.pushers && w.pushers[p].Answered? && w.pushers[p].result
    ensures var w := Play(START, es); Delivery(w.pushers[p].id, w.pushers[p].message) in w.delivered
  {
    PlayKeeps(START, es);
  }

  // --------------------------------------------------------------- the way of a push

  /** A listener that has nothing in hand takes the oldest message of its reader, hands
      it on and acks it: the message is delivered once, under its own id, and the ack
      goes behind what is unread on every channel at its reverse address, and on no
      other. */
  lemma RequestServed(w: World, l: Listener, id: nat, reverse: Address, message: int)
    requires l !in w.holdings && l.address in w.streams && l.group in w.streams[l.address].groups
    requires var queue := LocalOf(w.streams[l.address].groups[l.group], l.reader).queue;
             queue != [] && queue[0] == Push(id, reverse, message)
    ensures var w1 := Next(Next(Next(w, Take(l)), HandOn(l)), SendAck(l));
            && w1.delivered == w.delivered + [Delivery(id, message)] && w1.holdings == w.holdings
            && w1.pushers == w.pushers && w1.issued == w.issued && w1.channels.Keys == w.channels.Keys
            && (forall c :: c in w.channels ==>
                  && w1.channels[c].address == w.channels[c].address
                  && w1.channels[c].unread
                     == w.channels[c].unread + if w.channels[c].address == reverse then [Ack(id, true)] else [])
            && (var before, after := LocalOf(w.streams[l.address].groups[l.group], l.reader),
                                     LocalOf(w1.streams[l.address].groups[l.group], l.reader);
                after.queue == before.queue[1..] && after.returned == before.returned + [before.queue[0]])
  {
    var w2 := Next(Next(w, Take(l)), HandOn(l));
    assert w2.holdings == w.holdings[l := Holding(id, reverse, message, true)];
  }

  /** A push that gives up is answered False, whatever comes for it later, until its
      pusher starts another. */
  lemma GivesUpForGood(w: World, p: nat, es: seq<Event>)
    requires p in w.pushers && w.pushers[p].Awaiting?
    requires forall i :: 0 <= i < |es| ==> !(es[i].StartPush? && es[i].p == p)
    ensures var w1 := Play(Next(w, GiveUp(p)), es);
            p in w1.pushers && w1.pushers[p] == Answered(w.pushers[p].id, w.pushers[p].message, false)
  {
    AnsweredStays(Next(w, GiveUp(p)), p, es);
  }

  lemma AnsweredStep(w: World, p: nat, e: Event)
    requires p in w.pushers && w.pushers[p].Answered? && !(e.StartPush? && e.p == p)
    ensures p in Next(w, e).pushers && Next(w, e).pushers[p] == w.pushers[p]
  {
  }

  lemma {:induction false} AnsweredStays(w: World, p: nat, es: seq<Event>)
    requires p in w.pushers && w.pushers[p].Answered?
    requires forall i :: 0 <= i < |es| ==> !(es[i].StartPush? && es[i].p == p)
    ensures p in Play(w, es).pushers && Play(w, es).pushers[p] == w.pushers[p]
    decreases |es|
  {
    if es != [] {
      AnsweredStep(w, p, es[0]);
      AnsweredStays(Next(w, es[0]), p, es[1..]);
    }
  }

  /** A push that starts writes one entry at the end of its stream, with its id, its
      message and the address it waits at; an id that was used starts nothing. */
  lemma PushIsWritten(w: World, p: nat, c: nat, forward: Address, id: nat, message: int)
    requires c in w.channels && !(p in w.pushers && w.pushers[p].Awaiting?)
    ensures var w1 := Next(w, StartPush(p, c, forward, id, message));
            if id in w.issued then w1 == w
            else
              && StreamAt(w1, forward).entries
                 == StreamAt(w, forward).entries + [Some(Push(id, w.channels[c].address, message))]
              && StreamAt(w1, forward).groups == StreamAt(w, forward).groups
              && (forall a :: a != forward ==> StreamAt(w1, a) == StreamAt(w, a))
              && w1.pushers == w.pushers[p := Awaiting(c, id, message)] && w1.channels == w.channels
              && w1.delivered == w.delivered && w1.holdings == w.holdings
  {
  }
}
