/** One redis stream read by consumer groups (`AsyncRedisGroup`).

    Redis is abstract: an append-only list of entries and, per group, the
    position where the group was created and a log of the entries handed out
    since, each with its owner (None when the reply was lost on its way to the
    reader). */
module RedisGroups {
  import opened Base
  import opened Packets

  type GroupId = string
  type ReaderId = nat

  /** An entry holds a payload or only other fields, which readers skip. */
  type Fields = Option<Payload>

  datatype Handed = Handed(entry: Fields, owner: Option<ReaderId>)

  /** What a reader keeps: messages fetched but not returned by `read` yet, and
      everything `read` has returned. */
  datatype Local = Local(queue: seq<Payload>, returned: seq<Payload>)
  datatype Group = Group(start: nat, log: seq<Handed>, locals: map<ReaderId, Local>)
  datatype Stream = Stream(entries: seq<Fields>, groups: map<GroupId, Group>)

  datatype Event =
    | Write(entry: Fields)
    | Create(g: GroupId)
    | Fetch(g: GroupId, r: ReaderId, count: nat, lost: bool)
    | Return(g: GroupId, r: ReaderId)

  function LocalOf(grp: Group, r: ReaderId): Local {
    if r in grp.locals then grp.locals[r] else Local([], [])
  }

  /** The payload of an entry, if it has one. */
  function Content(entry: Fields): seq<Payload> {
    match entry
    case None => []
    case Some(p) => [p]
  }

  /** Redis hands the next entry of the stream to one reader of the group. */
  function HandOne(grp: Group, entry: Fields, r: ReaderId, lost: bool): Group {
    if lost then grp.(log := grp.log + [Handed(entry, None)])
    else
      var l := LocalOf(grp, r);
      grp.(log := grp.log + [Handed(entry, Some(r))],
           locals := grp.locals[r := l.(queue := l.queue + Content(entry))])
  }

  /** XREADGROUP with the id `>`: up to `count` entries nobody in the group has. */
  function FetchInto(entries: seq<Fields>, grp: Group, r: ReaderId, count: nat, lost: bool): Group
    decreases count
  {
    var next := grp.start + |grp.log|;
    if count == 0 || |entries| <= next then grp
    else FetchInto(entries, HandOne(grp, entries[next], r, lost), r, count - 1, lost)
  }

  /** `read` hands the oldest locally queued message out. */
  function ReturnFrom(grp: Group, r: ReaderId): Group {
    var l := LocalOf(grp, r);
    if l.queue == [] then grp
    else grp.(locals := grp.locals[r := Local(l.queue[1..], l.returned + [l.queue[0]])])
  }

  function Step(s: Stream, e: Event): Stream {
    match e
    case Write(entry) => s.(entries := s.entries + [entry])
    case Create(g) =>
      // an existing group (BUSYGROUP) is fine; a new one starts behind the last entry
      if g in s.groups then s else s.(groups := s.groups[g := Group(|s.entries|, [], map[])])
    case Fetch(g, r, count, lost) =>
      if g in s.groups then s.(groups := s.groups[g := FetchInto(s.entries, s.groups[g], r, count, lost)]) else s
    case Return(g, r) =>
      if g in s.groups then s.(groups := s.groups[g := ReturnFrom(s.groups[g], r)]) else s
  }

  function Run(s: Stream, es: seq<Event>): Stream
    decreases |es|
  {
    if es == [] then s else Run(Step(s, es[0]), es[1..])
  }

  /** The payloads of the entries that went to `r`, in stream order. */
  function Share(log: seq<Handed>, r: ReaderId): seq<Payload> {
    if log == [] then []
    else
      var h := log[|log| - 1];
      Share(log[..|log| - 1], r) + if h.owner == Some(r) then Content(h.entry) else []
  }

  /** A reader's returned and locally queued messages are exactly its share. */
  ghost predicate Settled(grp: Group, r: ReaderId) {
    LocalOf(grp, r).returned + LocalOf(grp, r).queue == Share(grp.log, r)
  }

  /** The group has dealt a stretch of the stream out, entry by entry, and every
      reader holds exactly its share of it. */
  ghost predicate Partitioned(entries: seq<Fields>, grp: Group) {
    && grp.start + |grp.log| <= |entries|
    && (forall i :: 0 <= i < |grp.log| ==> grp.log[i].entry == entries[grp.start + i])
    && (forall r: ReaderId :: Settled(grp, r))
  }

  lemma HandSettles(grp: Group, entry: Fields, r: ReaderId, lost: bool, x: ReaderId)
    requires Settled(grp, x)
    ensures Settled(HandOne(grp, entry, r, lost), x)
  {
  }

  lemma HandKeeps(entries: seq<Fields>, grp: Group, r: ReaderId, lost: bool)
    requires Partitioned(entries, grp) && grp.start + |grp.log| < |entries|
    ensures Partitioned(entries, HandOne(grp, entries[grp.start + |grp.log|], r, lost))
  {
    var entry := entries[grp.start + |grp.log|];
    forall x: ReaderId ensures Settled(HandOne(grp, entry, r, lost), x) {
      HandSettles(grp, entry, r, lost, x);
    }
  }

  lemma {:induction false} FetchKeeps(entries: seq<Fields>, grp: Group, r: ReaderId, count: nat, lost: bool)
    requires Partitioned(entries, grp)
    ensures Partitioned(entries, FetchInto(entries, grp, r, count, lost))
    decreases count
  {
    var next := grp.start + |grp.log|;
    if count > 0 && next < |entries| {
      HandKeeps(entries, grp, r, lost);
      FetchKeeps(entries, HandOne(grp, entries[next], r, lost), r, count - 1, lost);
    }
  }

  lemma ReturnKeeps(entries: seq<Fields>, grp: Group, r: ReaderId)
    requires Partitioned(entries, grp)
    ensures Partitioned(entries, ReturnFrom(grp, r))
  {
    forall x: ReaderId ensures Settled(ReturnFrom(grp, r), x) {
      assert Settled(grp, x);
      var l := LocalOf(grp, x);
      if l.queue != [] {
        ConcatAssoc(l.returned, [l.queue[0]], l.queue[1..]);
        assert [l.queue[0]] + l.queue[1..] == l.queue;
      }
    }
  }

  ghost predicate Inv(s: Stream) {
    forall g :: g in s.groups ==> Partitioned(s.entries, s.groups[g])
  }

  lemma StepKeeps(s: Stream, e: Event)
    requires Inv(s)
    ensures Inv(Step(s, e))
  {
    match e
    case Write(entry) =>
      assert forall g :: g in s.groups ==> Partitioned(s.entries, s.groups[g]);
    case Create(g) =>
    case Fetch(g, r, count, lost) =>
      if g in s.groups { FetchKeeps(s.entries, s.groups[g], r, count, lost); }
    case Return(g, r) =>
      if g in s.groups { ReturnKeeps(s.entries, s.groups[g], r); }
  }

  /** In every interleaving of writers and readers and for any read counts, each
      group deals a stretch of the stream that starts where the group was created
      out to its readers: every entry has one owner, and a reader returns its own
      entries in stream order, the rest waiting in its local queue. */
  lemma {:induction false} GroupsPartition(s: Stream, es: seq<Event>)
    requires Inv(s)
    ensures forall g :: g in Run(s, es).groups ==> Partitioned(Run(s, es).entries, Run(s, es).groups[g])
    decreases |es|
  {
    if es != [] {
      StepKeeps(s, es[0]);
      GroupsPartition(Step(s, es[0]), es[1..]);
    }
  }

  function Payloads(es: seq<Fields>): seq<Payload> {
    if es == [] then [] else Payloads(es[..|es| - 1]) + Content(es[|es| - 1])
  }

  lemma {:induction false} WholeShare(log: seq<Handed>, es: seq<Fields>, r: ReaderId)
    requires |log| == |es|
    requires forall i :: 0 <= i < |log| ==> log[i] == Handed(es[i], Some(r))
    ensures Share(log, r) == Payloads(es)
  {
    if log != [] {
      WholeShare(log[..|log| - 1], es[..|es| - 1], r);
    }
  }

  /** Nothing is skipped: once a group with a single reader has caught up and no
      reply was lost, that reader holds every payload since the group began. */
  lemma CaughtUp(s: Stream, g: GroupId, r: ReaderId)
    requires Inv(s) && g in s.groups
    requires s.groups[g].start + |s.groups[g].log| == |s.entries|
    requires forall h :: h in s.groups[g].log ==> h.owner == Some(r)
    ensures LocalOf(s.groups[g], r).returned + LocalOf(s.groups[g], r).queue == Payloads(s.entries[s.groups[g].start..])
  {
    var grp := s.groups[g];
    assert Settled(grp, r);
    WholeShare(grp.log, s.entries[grp.start..], r);
  }

  /** The new entries of the log are these entries of the stream, with this owner. */
  ghost predicate HandsOut(entries: seq<Fields>, grp: Group, grp1: Group, n: nat, owner: Option<ReaderId>) {
    var next := grp.start + |grp.log|;
    && next + n <= |entries| && grp1.start == grp.start && |grp1.log| == |grp.log| + n
    && (forall i :: 0 <= i < |grp.log| ==> grp1.log[i] == grp.log[i])
    && (forall i :: |grp.log| <= i < |grp1.log| ==> grp1.log[i] == Handed(entries[grp.start + i], owner))
  }

  lemma HandsOutMore(entries: seq<Fields>, grp: Group, r: ReaderId, lost: bool, grp2: Group, n: nat)
    requires grp.start + |grp.log| < |entries|
    requires HandsOut(entries, HandOne(grp, entries[grp.start + |grp.log|], r, lost), grp2, n,
                      if lost then None else Some(r))
    ensures HandsOut(entries, grp, grp2, n + 1, if lost then None else Some(r))
  {
    var grp1 := HandOne(grp, entries[grp.start + |grp.log|], r, lost);
    assert forall i :: 0 <= i < |grp.log| ==> grp1.log[i] == grp.log[i];
  }

  lemma HandsOutNone(entries: seq<Fields>, grp: Group, owner: Option<ReaderId>)
    requires grp.start + |grp.log| <= |entries|
    ensures HandsOut(entries, grp, grp, 0, owner)
  {
  }

  /** One read takes as many of the entries that nobody in the group has as it may,
      and as there are, and gives them all to its reader unless the reply is lost. */
  lemma {:induction false} FetchExact(entries: seq<Fields>, grp: Group, r: ReaderId, count: nat, lost: bool)
    requires grp.start + |grp.log| <= |entries|
    ensures HandsOut(entries, grp, FetchInto(entries, grp, r, count, lost),
                     Min(count, |entries| - grp.start - |grp.log|), if lost then None else Some(r))
    decreases count
  {
    var next := grp.start + |grp.log|;
    if count > 0 && next < |entries| {
      var grp1 := HandOne(grp, entries[next], r, lost);
      FetchExact(entries, grp1, r, count - 1, lost);
      HandsOutMore(entries, grp, r, lost, FetchInto(entries, grp1, r, count - 1, lost),
                   Min(count - 1, |entries| - next - 1));
    } else {
      HandsOutNone(entries, grp, if lost then None else Some(r));
    }
  }

  lemma StepStart(s: Stream, e: Event, g: GroupId)
    requires g in s.groups
    ensures g in Step(s, e).groups && Step(s, e).groups[g].start == s.groups[g].start
    ensures s.entries <= Step(s, e).entries
  {
    if e.Fetch? && e.g == g { FetchStart(s.entries, s.groups[g], e.r, e.count, e.lost); }
  }

  lemma {:induction false} FetchStart(entries: seq<Fields>, grp: Group, r: ReaderId, count: nat, lost: bool)
    ensures FetchInto(entries, grp, r, count, lost).start == grp.start
    decreases count
  {
    var next := grp.start + |grp.log|;
    if count > 0 && next < |entries| {
      FetchStart(entries, HandOne(grp, entries[next], r, lost), r, count - 1, lost);
    }
  }

  lemma {:induction false} RunStart(s: Stream, es: seq<Event>, g: GroupId)
    requires g in s.groups
    ensures g in Run(s, es).groups && Run(s, es).groups[g].start == s.groups[g].start
    ensures s.entries <= Run(s, es).entries
    decreases |es|
  {
    if es != [] {
      StepStart(s, es[0], g);
      RunStart(Step(s, es[0]), es[1..], g);
    }
  }

  /** A group that is created begins behind what was written before: in every run
      that follows, the entries it hands out are exactly the first ones written
      since. Creating it again changes nothing. */
  lemma NewGroupBegins(s: Stream, g: GroupId, es: seq<Event>)
    requires Inv(s) && g !in s.groups
    ensures var s1 := Run(Step(s, Create(g)), es);
            && s.entries <= s1.entries && g in s1.groups && Step(s1, Create(g)) == s1
            && |s.entries| + |s1.groups[g].log| <= |s1.entries|
            && (forall i :: 0 <= i < |s1.groups[g].log| ==>
                  s1.groups[g].log[i].entry == s1.entries[|s.entries| + i])
  {
    StepKeeps(s, Create(g));
    GroupsPartition(Step(s, Create(g)), es);
    RunStart(Step(s, Create(g)), es, g);
  }

  // ----------------------------------------------------- groups are independent

  predicate Concerns(e: Event, g: GroupId) {
    e.Write? || e.g == g
  }

  /** The events a group can notice: all writes and its own readers' events. */
  function Only(es: seq<Event>, g: GroupId): seq<Event> {
    if es == [] then []
    else (if Concerns(es[0], g) then [es[0]] else []) + Only(es[1..], g)
  }

  ghost predicate SameFor(s: Stream, t: Stream, g: GroupId) {
    s.entries == t.entries && (g in s.groups <==> g in t.groups) && (g in s.groups ==> s.groups[g] == t.groups[g])
  }

  /** Whatever the readers of other groups do, a group behaves as if they were
      not there. */
  lemma {:induction false} GroupsIndependent(s: Stream, t: Stream, es: seq<Event>, g: GroupId)
    requires SameFor(s, t, g)
    ensures SameFor(Run(s, es), Run(t, Only(es, g)), g)
    decreases |es|
  {
    if es != [] {
      if Concerns(es[0], g) {
        assert Only(es, g)[0] == es[0] && Only(es, g)[1..] == Only(es[1..], g);
        GroupsIndependent(Step(s, es[0]), Step(t, es[0]), es[1..], g);
      } else {
        assert Only(es, g) == Only(es[1..], g);
        GroupsIndependent(Step(s, es[0]), t, es[1..], g);
      }
    }
  }

  // -------------------------------------------------------------- the reader

  /** The redis server as its clients' connections see it. */
  class StreamServer {
    var stream: Stream

    constructor ()
      ensures stream == Stream([], map[])
    {
      stream := Stream([], map[]);
    }
  }

  /** What the connection may do to one read: nothing, time out after the entries
      were handed out, refuse to open, or break in the middle, before or after the
      group was created and the entries were handed out. */
  datatype Fault = Fine | ReplyLost | Unreachable | Broken(created: bool, handedOut: bool)

  /** What one read does to the stream before anything is returned. */
  function Polled(s: Stream, g: GroupId, r: ReaderId, count: nat, fault: Fault): Stream {
    match fault
    case Unreachable => s
    case Broken(created, handedOut) =>
      var s1 := if created then Step(s, Create(g)) else s;
      if handedOut then Step(s1, Fetch(g, r, count, true)) else s1
    case _ => Step(Step(s, Create(g)), Fetch(g, r, count, fault.ReplyLost?))
  }

  predicate Fails(fault: Fault) {
    fault.Unreachable? || fault.Broken?
  }

  /** What happens between two reads of a reader that waits: others write, and the
      connection behaves in some way at the next read. */
  datatype Round = Round(arrivals: seq<Fields>, fault: Fault)

  function Arrived(s: Stream, arrivals: seq<Fields>): Stream {
    s.(entries := s.entries + arrivals)
  }

  datatype ReadResult = Message(value: Payload) | TimedOut | ConnectionError

  /** A reader of one group. `queue` is its local queue, which the log of the
      group mirrors together with what was returned before. */
  class AsyncRedisGroup {
    const server: StreamServer
    const groupId: GroupId
    const selfId: ReaderId
    const readCount: nat
    var mkstream: bool
    var queue: seq<Payload>

    ghost function Mirror(): Local
      reads server
    {
      if groupId in server.stream.groups then LocalOf(server.stream.groups[groupId], selfId) else Local([], [])
    }

    ghost predicate Valid()
      reads this, server
    {
      readCount >= 1 && (mkstream ==> groupId in server.stream.groups) && queue == Mirror().queue
    }

    constructor (server: StreamServer, groupId: Option<GroupId>, selfId: ReaderId, readCount: nat)
      requires var g := groupId.GetOr("*");
               g in server.stream.groups ==> selfId !in server.stream.groups[g].locals
      ensures Valid() && this.server == server && this.selfId == selfId
      ensures this.groupId == groupId.GetOr("*") && this.readCount == if readCount == 0 then 1 else readCount
    {
      this.server := server;
      this.groupId := groupId.GetOr("*");
      this.selfId := selfId;
      this.readCount := if readCount == 0 then 1 else readCount;
      mkstream, queue := false, [];
    }

    /** `__async_reader`: creates the group on first use, then reads once. */
    method Poll(fault: Fault)
      requires Valid() && !Fails(fault)
      modifies this`mkstream, this`queue, server
      ensures Valid() && mkstream && Mirror().returned == old(Mirror().returned)
      ensures server.stream == Step(Step(old(server.stream), Create(groupId)),
                                    Fetch(groupId, selfId, readCount, fault.ReplyLost?))
    {
      if !mkstream {
        server.stream := Step(server.stream, Create(groupId));
        mkstream := true;
      }
      ghost var created := server.stream;
      FetchReturnsNothing(created.entries, created.groups[groupId], selfId, readCount, fault.ReplyLost?);
      ghost var goal := FetchInto(created.entries, created.groups[groupId], selfId, readCount, fault.ReplyLost?);
      var grp := server.stream.groups[groupId];
      var left := readCount;
      while left > 0 && grp.start + |grp.log| < |server.stream.entries|
        invariant server.stream == created && mkstream
        invariant FetchInto(created.entries, grp, selfId, left, fault.ReplyLost?) == goal
        invariant queue == LocalOf(grp, selfId).queue
      {
        var entry := server.stream.entries[grp.start + |grp.log|];
        grp := HandOne(grp, entry, selfId, fault.ReplyLost?);
        if !fault.ReplyLost? && entry.Some? {
          queue := queue + [entry.value];
        }
        left := left - 1;
      }
      server.stream := server.stream.(groups := server.stream.groups[groupId := grp]);
    }

    /** The payloads of what the next read is handed. */
    ghost function Ahead(): seq<Payload>
      reads this, server
    {
      Upcoming(server.stream, groupId, readCount)
    }

    /** `read` with a timeout: answers from the local queue without touching the
        connection, else reads once. A message returned is the oldest one of
        this reader's share that it has not returned before. */
    method Read(fault: Fault) returns (r: ReadResult)
      requires Valid()
      modifies this`mkstream, this`queue, server
      ensures Valid()
      ensures server.stream.entries == old(server.stream.entries)
      ensures r.ConnectionError? <==> old(queue) == [] && Fails(fault)
      ensures r.ConnectionError? ==>
                server.stream == Polled(old(server.stream), groupId, selfId, readCount, fault) && queue == []
      ensures old(queue) != [] ==>
                r == Message(old(queue)[0]) && server.stream == Step(old(server.stream), Return(groupId, selfId))
      ensures old(queue) == [] && !Fails(fault) ==>
                var fetched := Polled(old(server.stream), groupId, selfId, readCount, fault);
                server.stream == Step(fetched, Return(groupId, selfId))
      ensures !r.Message? ==> queue == [] && Mirror().returned == old(Mirror().returned)
      ensures r.Message? ==> Mirror().returned == old(Mirror().returned) + [r.value]
      ensures old(queue) == [] && fault.Fine? ==>
                if old(Ahead()) == [] then r == TimedOut
                else r == Message(old(Ahead())[0]) && queue == old(Ahead())[1..]
      ensures old(queue) == [] && fault.ReplyLost? ==> r == TimedOut
      ensures r.TimedOut? ==> server.stream == Polled(old(server.stream), groupId, selfId, readCount, fault)
    {
      if queue == [] {
        if Fails(fault) {
          BreakOff(fault);
          return ConnectionError;
        }
        FetchedQueue(server.stream, groupId, selfId, readCount, fault.ReplyLost?);
        Poll(fault);
      }
      if queue == [] {
        return TimedOut;
      }
      r := Message(queue[0]);
      queue := queue[1..];
      server.stream := Step(server.stream, Return(groupId, selfId));
    }

    /** A read that ends in a connection error: what was handed out is lost. */
    method BreakOff(fault: Fault)
      requires Valid() && Fails(fault) && queue == []
      modifies this`mkstream, server
      ensures Valid() && server.stream == Polled(old(server.stream), groupId, selfId, readCount, fault)
      ensures Mirror() == old(Mirror())
    {
      if fault.Broken? && fault.created && !mkstream {
        server.stream := Step(server.stream, Create(groupId));
        mkstream := true;
      }
      if fault.Broken? && fault.handedOut && groupId in server.stream.groups {
        LostChangesNobody(server.stream.entries, server.stream.groups[groupId], selfId, readCount, selfId);
        server.stream := Step(server.stream, Fetch(groupId, selfId, readCount, true));
      }
    }

    /** One round of a reader that waits: others write, then it reads. */
    method ReadOnce(round: Round) returns (r: ReadResult)
      requires Valid() && queue == []
      modifies this`mkstream, this`queue, server
      ensures Valid()
      ensures old(Inv(server.stream)) ==> Inv(server.stream)
      ensures r.Message? ==> Mirror().returned == old(Mirror().returned) + [r.value]
      ensures !r.Message? ==> queue == [] && Mirror().returned == old(Mirror().returned)
      ensures var s := Arrived(old(server.stream), round.arrivals);
              if r.TimedOut? then
                && server.stream == Polled(s, groupId, selfId, readCount, round.fault)
                && (round.fault.ReplyLost? || (round.fault.Fine? && Upcoming(s, groupId, readCount) == []))
              else LastRead(s, groupId, readCount, round.fault, r)
    {
      server.stream := Arrived(server.stream, round.arrivals);
      PolledKeeps(server.stream, groupId, selfId, readCount, round.fault);
      r := Read(round.fault);
    }

    /** `read` without a timeout: reads again and again until the local queue has
        something or the connection fails. While it waits others write; TimedOut
        says that the given rounds were not enough. The trace has the stream before
        each read: a read is repeated exactly if it was handed nothing. */
    method ReadWaiting(rounds: seq<Round>) returns (r: ReadResult, ghost trace: seq<Stream>)
      requires Valid()
      modifies this`mkstream, this`queue, server
      ensures Valid()
      ensures old(Inv(server.stream)) ==> Inv(server.stream)
      ensures old(queue) != [] ==>
                r == Message(old(queue)[0]) && server.stream == Step(old(server.stream), Return(groupId, selfId))
      ensures r.Message? ==> Mirror().returned == old(Mirror().returned) + [r.value]
      ensures !r.Message? ==> queue == [] && Mirror().returned == old(Mirror().returned)
      ensures old(queue) == [] ==> WaitEnds(old(server.stream), groupId, selfId, readCount, rounds, trace, r)
    {
      trace := [];
      if queue != [] {
        PolledKeeps(server.stream, groupId, selfId, readCount, Fine);
        r := Read(Fine);
        return;
      }
      ghost var before := Mirror().returned;
      for i := 0 to |rounds|
        invariant Valid() && Mirror().returned == before && queue == []
        invariant old(Inv(server.stream)) ==> Inv(server.stream)
        invariant |trace| == i && Waited(old(server.stream), groupId, selfId, readCount, rounds, trace)
        invariant HandedNothing(groupId, readCount, rounds, trace, |trace|)
        invariant server.stream == if i == 0 then old(server.stream)
                                   else Polled(trace[i - 1], groupId, selfId, readCount, rounds[i - 1].fault)
      {
        ghost var before := trace;
        WaitedMore(old(server.stream), groupId, selfId, readCount, rounds, trace,
                   Arrived(server.stream, rounds[i].arrivals));
        trace := trace + [Arrived(server.stream, rounds[i].arrivals)];
        r := ReadOnce(rounds[i]);
        ReadMore(old(server.stream), groupId, selfId, readCount, rounds, before, trace[i], r);
        if !r.TimedOut? {
          return;
        }
      }
      r := TimedOut;
    }
  }

  /** The streams before the first reads of a reader that waits: before the first one,
      what there was and what arrived; before each other one, what the read before it
      left and what arrived since. */
  ghost predicate Waited(s: Stream, g: GroupId, r: ReaderId, count: nat, rounds: seq<Round>, trace: seq<Stream>) {
    && |trace| <= |rounds|
    && (trace != [] ==> trace[0] == Arrived(s, rounds[0].arrivals))
    && (forall i :: 0 < i < |trace| ==>
          trace[i] == Arrived(Polled(trace[i - 1], g, r, count, rounds[i - 1].fault), rounds[i].arrivals))
  }

  /** The first `n` of these reads did not fail and were handed nothing. */
  ghost predicate HandedNothing(g: GroupId, count: nat, rounds: seq<Round>, trace: seq<Stream>, n: nat) {
    && n <= |trace| <= |rounds|
    && forall i :: 0 <= i < n ==>
         rounds[i].fault.ReplyLost? || (rounds[i].fault.Fine? && Upcoming(trace[i], g, count) == [])
  }

  lemma WaitedMore(s: Stream, g: GroupId, r: ReaderId, count: nat, rounds: seq<Round>, trace: seq<Stream>,
                   next: Stream)
    requires Waited(s, g, r, count, rounds, trace) && |trace| < |rounds|
    requires var n := |trace|;
             next == Arrived(if n == 0 then s else Polled(trace[n - 1], g, r, count, rounds[n - 1].fault),
                             rounds[n].arrivals)
    ensures Waited(s, g, r, count, rounds, trace + [next])
  {
  }

  /** How the wait ends: it times out only when every read was handed nothing; else
      its last read fails, or is handed something and returns the first of it. */
  ghost predicate WaitEnds(s: Stream, g: GroupId, r: ReaderId, count: nat, rounds: seq<Round>, trace: seq<Stream>,
                           result: ReadResult) {
    && Waited(s, g, r, count, rounds, trace)
    && if result.TimedOut? then |trace| == |rounds| && HandedNothing(g, count, rounds, trace, |trace|)
       else
         && trace != [] && HandedNothing(g, count, rounds, trace, |trace| - 1)
         && LastRead(trace[|trace| - 1], g, count, rounds[|trace| - 1].fault, result)
  }

  ghost predicate LastRead(s: Stream, g: GroupId, count: nat, fault: Fault, result: ReadResult) {
    if result.Message? then fault.Fine? && Upcoming(s, g, count) != [] && result.value == Upcoming(s, g, count)[0]
    else Fails(fault)
  }

  /** One more read of a reader that waits. */
  lemma ReadMore(s: Stream, g: GroupId, r: ReaderId, count: nat, rounds: seq<Round>, trace: seq<Stream>,
                 next: Stream, result: ReadResult)
    requires Waited(s, g, r, count, rounds, trace + [next]) && HandedNothing(g, count, rounds, trace, |trace|)
    requires var fault := rounds[|trace|].fault;
             if result.TimedOut? then fault.ReplyLost? || (fault.Fine? && Upcoming(next, g, count) == [])
             else LastRead(next, g, count, fault, result)
    ensures result.TimedOut? ==> HandedNothing(g, count, rounds, trace + [next], |trace| + 1)
    ensures !result.TimedOut? ==> WaitEnds(s, g, r, count, rounds, trace + [next], result)
  {
  }

  /** Reading keeps every group's partition, whatever the connection does. */
  lemma PolledKeeps(s: Stream, g: GroupId, r: ReaderId, count: nat, fault: Fault)
    ensures Inv(s) ==> Inv(Polled(s, g, r, count, fault)) && Inv(Step(s, Return(g, r)))
    ensures Inv(s) ==> Inv(Step(Polled(s, g, r, count, fault), Return(g, r)))
  {
    if Inv(s) {
      StepKeeps(s, Create(g));
      StepKeeps(s, Return(g, r));
      StepKeeps(s, Fetch(g, r, count, true));
      StepKeeps(Step(s, Create(g)), Fetch(g, r, count, true));
      StepKeeps(Step(s, Create(g)), Fetch(g, r, count, fault.ReplyLost?));
      StepKeeps(Polled(s, g, r, count, fault), Return(g, r));
    }
  }

  /** `q` and behind it the payloads of the entries from a position on, up to `count`
      entries. */
  function PayloadsOnto(q: seq<Payload>, entries: seq<Fields>, next: nat, count: nat): seq<Payload>
    decreases count
  {
    if count == 0 || |entries| <= next then q
    else PayloadsOnto(q + Content(entries[next]), entries, next + 1, count - 1)
  }

  /** The payloads of what the group hands out next: of the first entries that nobody
      in it has. A group that does not exist yet begins at the end. */
  function Upcoming(s: Stream, g: GroupId, count: nat): seq<Payload> {
    if g in s.groups then PayloadsOnto([], s.entries, s.groups[g].start + |s.groups[g].log|, count) else []
  }

  /** The first of the entries a read is handed. */
  lemma FetchOne(entries: seq<Fields>, grp: Group, r: ReaderId, count: nat, lost: bool) returns (grp1: Group)
    requires count > 0 && grp.start + |grp.log| < |entries|
    ensures FetchInto(entries, grp, r, count, lost) == FetchInto(entries, grp1, r, count - 1, lost)
    ensures grp1.start == grp.start && |grp1.log| == |grp.log| + 1
    ensures LocalOf(grp1, r).returned == LocalOf(grp, r).returned
    ensures !lost ==> LocalOf(grp1, r).queue == LocalOf(grp, r).queue + Content(entries[grp.start + |grp.log|])
  {
    grp1 := HandOne(grp, entries[grp.start + |grp.log|], r, lost);
  }

  lemma {:induction false} FetchQueues(entries: seq<Fields>, grp: Group, r: ReaderId, count: nat)
    ensures LocalOf(FetchInto(entries, grp, r, count, false), r).queue
         == PayloadsOnto(LocalOf(grp, r).queue, entries, grp.start + |grp.log|, count)
    decreases count
  {
    if count > 0 && grp.start + |grp.log| < |entries| {
      var grp1 := FetchOne(entries, grp, r, count, false);
      FetchQueues(entries, grp1, r, count - 1);
    }
  }

  /** What a first use of the group and one read put into an empty local queue. */
  lemma FetchedQueue(s: Stream, g: GroupId, r: ReaderId, count: nat, lost: bool)
    requires g in s.groups ==> LocalOf(s.groups[g], r).queue == []
    ensures LocalOf(Step(Step(s, Create(g)), Fetch(g, r, count, lost)).groups[g], r).queue
              == if lost then [] else Upcoming(s, g, count)
  {
    var grp := if g in s.groups then s.groups[g] else Group(|s.entries|, [], map[]);
    var fetched := FetchInto(s.entries, grp, r, count, lost);
    assert Step(Step(s, Create(g)), Fetch(g, r, count, lost)).groups[g] == fetched;
    assert LocalOf(grp, r).queue == [];
    if lost {
      LostChangesNobody(s.entries, grp, r, count, r);
    } else {
      FetchQueues(s.entries, grp, r, count);
    }
  }

  /** Fetching returns nothing yet. */
  lemma {:induction false} FetchReturnsNothing(entries: seq<Fields>, grp: Group, r: ReaderId, count: nat, lost: bool)
    ensures LocalOf(FetchInto(entries, grp, r, count, lost), r).returned == LocalOf(grp, r).returned
    decreases count
  {
    var next := grp.start + |grp.log|;
    if count > 0 && next < |entries| {
      var grp1 := FetchOne(entries, grp, r, count, lost);
      FetchReturnsNothing(entries, grp1, r, count - 1, lost);
    }
  }

  lemma {:induction false} LostChangesNobody(entries: seq<Fields>, grp: Group, r: ReaderId, count: nat, x: ReaderId)
    ensures LocalOf(FetchInto(entries, grp, r, count, true), x) == LocalOf(grp, x)
    decreases count
  {
    var next := grp.start + |grp.log|;
    if count > 0 && next < |entries| {
      LostChangesNobody(entries, HandOne(grp, entries[next], r, true), r, count - 1, x);
    }
  }
}
