/** Every interleaving of the producers and consumers of one pickup queue.

    A step is the stretch one task runs between two suspensions. `Event.set`
    wakes every waiter; a woken putter goes on without looking at the event
    again, a woken consumer evaluates its wait loop again. The scheduler is an
    arbitrary sequence of events, and an event that is not possible in a state
    leaves it as it is. */
module PickupSystem {
  import opened Base
  import opened PickupQueue

  datatype Putter = Idle | Asleep(job: PutJob) | Woken(job: PutJob)

  /** Where a batch request waits. `Arming` is the wait inside `wait_for` that
      has been created but has not looked at the event yet. */
  datatype Phase = Arming | Sleeping | Awake
  datatype Request = Request(size: nat, start: int, delay: Option<int>)
  datatype Waiter = Waiter(request: Request, phase: Phase)

  /** A request that was answered: when, and with which entries. */
  datatype Served = Served(c: nat, request: Request, end: int, items: seq<Entry>)

  function Until(r: Request): Option<int> {
    Deadline(r.delay, r.start)
  }

  datatype World = World(
    q: Queue,
    putters: seq<Putter>,
    waiters: map<nat, Waiter>,
    now: int,
    spinning: bool,           // a task loops without suspending: nothing else runs
    accepted: seq<Entry>,     // the puts that went through, in order
    delivered: seq<Entry>,    // the entries handed out, in order
    served: seq<Served>,      // the batch and noop requests answered, in order
    reused: nat)              // accepted puts whose id was live at that moment

  datatype Event =
    | StartPut(p: nat, job: PutJob)
    | RunPut(p: nat)
    | CancelPut(p: nat)
    | StartBatch(c: nat, size: nat, delay: Option<int>)
    | StartNoop(c: nat, delay: Option<int>)
    | LookAtEvent(c: nat)
    | RunWaiter(c: nat)
    | TimeOut(c: nat)
    | CancelWaiter(c: nat)
    | Reply                   // status, list or unknown request: no suspension
    | Tick(d: nat)

  function Init(capacity: Option<nat>, producers: nat): World {
    World(Queue([], 0, false, true, capacity), seq(producers, _ => Idle), map[], 0, false, [], [], [], 0)
  }

  function WakePutters(ps: seq<Putter>): (r: seq<Putter>)
    ensures |r| == |ps|
    ensures forall i :: 0 <= i < |ps| ==> r[i] == if ps[i].Asleep? then Woken(ps[i].job) else ps[i]
  {
    seq(|ps|, i requires 0 <= i < |ps| => if ps[i].Asleep? then Woken(ps[i].job) else ps[i])
  }

  function WakeWaiters(ws: map<nat, Waiter>): map<nat, Waiter> {
    map c | c in ws :: if ws[c].phase.Sleeping? then ws[c].(phase := Awake) else ws[c]
  }

  /** Waking follows from the events' flags: whoever waits is woken by `set`. */
  function Signal(w: World): World {
    var w1 := if w.q.ready then w.(putters := WakePutters(w.putters)) else w;
    if w1.q.filled then w1.(waiters := WakeWaiters(w1.waiters)) else w1
  }

  /** The stretch of `put` after its wait, run by putter `p`. */
  function FinishPut(w: World, p: nat, job: PutJob): World
    requires p < |w.putters|
  {
    match ChosenId(job)
    case None => w.(putters := w.putters[p := Idle])
    case Some(id) => Signal(Accept(w, p, Entry(id, job.message)))
  }

  function Accept(w: World, p: nat, e: Entry): World
    requires p < |w.putters|
  {
    w.(putters := w.putters[p := Idle], q := PutEntry(w.q, e), accepted := w.accepted + [e],
       reused := w.reused + if HasId(w.q.messages, e.id) then 1 else 0)
  }

  /** The request has a deadline and it is over. */
  predicate Passed(r: Request, now: int) {
    Until(r).Some? && Until(r).value <= now
  }

  /** Any request that does not take entries out. */
  function FinishReply(w: World): World {
    Signal(w.(q := Prepare(w.q)))
  }

  function FinishBatch(w: World, c: nat, r: Request): World
    requires 0 <= w.q.count
  {
    Signal(HandOut(w, c, r))
  }

  function HandOut(w: World, c: nat, r: Request): World
    requires 0 <= w.q.count
  {
    var items := w.q.messages[..BatchLength(w.q, r.size)];
    w.(q := Prepare(TakeBatch(w.q, r.size)), waiters := w.waiters - {c}, delivered := w.delivered + items,
       served := w.served + [Served(c, r, w.now, items)])
  }

  /** One evaluation of the batch wait loop by consumer `c`. */
  function Evaluate(w: World, c: nat, r: Request): World
    requires 0 <= w.q.count
  {
    match Decide(w.q, r.size, Until(r), w.now)
    case Finish => FinishBatch(w, c, r)
    case WaitUntil(_) => w.(waiters := w.waiters[c := Waiter(r, Arming)])
    case WaitForever =>
      if w.q.filled then w.(spinning := true)
      else w.(waiters := w.waiters[c := Waiter(r, Sleeping)])
  }

  function Step(w: World, e: Event): World {
    if w.spinning || w.q.count < 0 then w
    else match e
      case StartPut(p, job) => BeginPut(w, p, job)
      case RunPut(p) =>
        if p < |w.putters| && w.putters[p].Woken? then FinishPut(w, p, w.putters[p].job) else w
      case CancelPut(p) =>
        if p < |w.putters| then w.(putters := w.putters[p := Idle]) else w
      case StartBatch(c, size, delay) =>
        if c in w.waiters then w else Evaluate(w, c, Request(size, w.now, delay))
      case StartNoop(c, delay) => BeginNoop(w, c, delay)
      case LookAtEvent(c) =>
        if c in w.waiters && w.waiters[c].phase.Arming? then Arm(w, c) else w
      case RunWaiter(c) =>
        if c in w.waiters && w.waiters[c].phase.Awake? then Evaluate(w, c, w.waiters[c].request) else w
      case TimeOut(c) =>
        if c in w.waiters && Passed(w.waiters[c].request, w.now) then FinishBatch(w, c, w.waiters[c].request) else w
      case CancelWaiter(c) => w.(waiters := w.waiters - {c})
      case Reply => FinishReply(w)
      case Tick(d) => w.(now := w.now + d)
  }

  function BeginPut(w: World, p: nat, job: PutJob): World {
    if !(p < |w.putters| && w.putters[p].Idle?) then w
    else if w.q.ready then FinishPut(w, p, job)
    else w.(putters := w.putters[p := Asleep(job)])
  }

  function BeginNoop(w: World, c: nat, delay: Option<int>): World
    requires 0 <= w.q.count
  {
    if c in w.waiters then w
    else if delay.None? && w.q.count == 0 then FinishReply(w)
    else Evaluate(w, c, Request(1, w.now, delay))
  }

  /** The wait created by `wait_for` starts and looks at `filled`. */
  function Arm(w: World, c: nat): World
    requires c in w.waiters
  {
    w.(waiters := w.waiters[c := w.waiters[c].(phase := if w.q.filled then Awake else Sleeping)])
  }

  function Run(w: World, es: seq<Event>): World
    decreases |es|
  {
    if es == [] then w else Run(Step(w, es[0]), es[1..])
  }

  function CountWoken(ps: seq<Putter>): (n: nat)
    ensures n <= |ps|
  {
    if ps == [] then 0 else (if ps[0].Woken? then 1 else 0) + CountWoken(ps[1..])
  }

  lemma {:induction false} CountWokenUpdate(ps: seq<Putter>, p: nat, x: Putter)
    requires p < |ps|
    ensures CountWoken(ps[p := x]) ==
            CountWoken(ps) - (if ps[p].Woken? then 1 else 0) + (if x.Woken? then 1 else 0)
  {
    if p == 0 {
      assert ps[p := x][1..] == ps[1..];
    } else {
      assert ps[p := x][1..] == ps[1..][p - 1 := x];
      CountWokenUpdate(ps[1..], p - 1, x);
    }
  }

  lemma {:induction false} CountWokenBelow(ps: seq<Putter>, p: nat)
    requires p < |ps| && !ps[p].Woken?
    ensures CountWoken(ps) < |ps|
  {
    if p > 0 {
      CountWokenBelow(ps[1..], p - 1);
    }
  }

  /** The flags say what the count says. */
  ghost predicate FlagsAgree(q: Queue) {
    && (q.filled <==> q.count > 0)
    && (q.ready <==> q.capacity.None? || q.count < q.capacity.value)
    && (q.capacity.Some? ==> 1 <= q.capacity.value)
  }

  /** Nobody sleeps on an event that is set. */
  ghost predicate SleepersJustified(q: Queue, putters: seq<Putter>, waiters: map<nat, Waiter>) {
    && (q.filled ==> forall c :: c in waiters ==> !waiters[c].phase.Sleeping?)
    && (q.ready ==> forall p :: 0 <= p < |putters| ==> !putters[p].Asleep?)
  }

  /** count + woken-but-not-run putters stays below capacity + producers. */
  ghost predicate Bounded(q: Queue, putters: seq<Putter>) {
    q.capacity.Some? ==> q.count + CountWoken(putters) <= q.capacity.value + |putters| - 1
  }

  /** The counter is the number of queued entries plus the re-used ids. What was
      delivered followed by what is queued is what was accepted, in that order,
      with one entry left out for every re-used id. */
  ghost predicate Conserved(q: Queue, accepted: seq<Entry>, delivered: seq<Entry>, reused: nat) {
    && DistinctIds(q.messages)
    && q.count == |q.messages| + reused
    && |accepted| == |delivered| + q.count
    && Subsequence(delivered + q.messages, accepted)
    && (reused == 0 ==> accepted == delivered + q.messages)
    && (forall id :: HasId(q.messages, id) ==> HasId(accepted, id))
    && (DistinctIds(accepted) ==> reused == 0)
  }

  ghost predicate Inv(w: World) {
    && FlagsAgree(w.q)
    && SleepersJustified(w.q, w.putters, w.waiters)
    && Bounded(w.q, w.putters)
    && Conserved(w.q, w.accepted, w.delivered, w.reused)
  }

  lemma InitInv(capacity: Option<nat>, producers: nat)
    requires capacity.Some? ==> 1 <= capacity.value
    ensures Inv(Init(capacity, producers))
  {
  }

  /** Signalling wakes whoever slept on a set event; with more than one putter
      woken the count is below capacity, so the bound survives. */
  lemma SignalKeeps(w: World)
    requires FlagsAgree(w.q)
    requires Conserved(w.q, w.accepted, w.delivered, w.reused)
    requires !w.q.ready ==> Bounded(w.q, w.putters)
    ensures Inv(Signal(w))
  {
  }

  lemma PutBounded(q: Queue, putters: seq<Putter>, p: nat, e: Entry)
    requires FlagsAgree(q) && Bounded(q, putters) && p < |putters| && 0 <= q.count
    requires putters[p].Woken? || (putters[p].Idle? && q.ready)
    ensures FlagsAgree(PutEntry(q, e)) && Bounded(PutEntry(q, e), putters[p := Idle])
  {
    CountWokenUpdate(putters, p, Idle);
    CountWokenBelow(putters[p := Idle], p);
  }

  lemma PutKeeps(w: World, p: nat, job: PutJob)
    requires Inv(w) && 0 <= w.q.count && p < |w.putters|
    requires w.putters[p].Woken? || (w.putters[p].Idle? && w.q.ready)
    ensures Inv(FinishPut(w, p, job))
  {
    if ChosenId(job).Some? {
      var e := Entry(ChosenId(job).value, job.message);
      PutBounded(w.q, w.putters, p, e);
      PutConserves(w.q, w.accepted, w.delivered, w.reused, e);
      SignalKeeps(Accept(w, p, e));
    } else {
      CountWokenUpdate(w.putters, p, Idle);
    }
  }

  lemma AppendIds(es: seq<Entry>, e: Entry)
    ensures forall x :: HasId(es + [e], x) <==> HasId(es, x) || x == e.id
    ensures DistinctIds(es + [e]) <==> DistinctIds(es) && !HasId(es, e.id)
  {
    var r := es + [e];
    forall x ensures HasId(r, x) <==> HasId(es, x) || x == e.id {
      if HasId(es, x) {
        var i :| 0 <= i < |es| && es[i].id == x;
        assert r[i].id == x;
      }
      assert r[|es|].id == e.id;
    }
    if DistinctIds(r) {
      assert forall i :: 0 <= i < |es| ==> r[i] == es[i] && es[i].id != r[|es|].id;
      assert forall i, j :: 0 <= i < j < |es| ==> r[i].id != r[j].id;
    }
  }

  lemma DropKeepsOrder(messages: seq<Entry>, accepted: seq<Entry>, delivered: seq<Entry>, i: nat)
    requires i < |messages| && Subsequence(delivered + messages, accepted)
    ensures Subsequence(delivered + (messages[..i] + messages[i + 1..]), accepted)
  {
    var head := delivered + messages[..i];
    SubsequenceWithoutOne(head, messages[i], messages[i + 1..]);
    DropJoined(messages, delivered, i);
    SubsequenceTransitive(head + messages[i + 1..], delivered + messages, accepted);
  }

  lemma DropJoined(messages: seq<Entry>, delivered: seq<Entry>, i: nat)
    requires i < |messages|
    ensures delivered + messages[..i] + [messages[i]] + messages[i + 1..] == delivered + messages
    ensures delivered + messages[..i] + messages[i + 1..] == delivered + (messages[..i] + messages[i + 1..])
  {
  }

  /** Dropping the entry of a live id and putting a new one at the end. */
  lemma PutKeepsOrder(messages: seq<Entry>, accepted: seq<Entry>, delivered: seq<Entry>, e: Entry)
    requires DistinctIds(messages) && Subsequence(delivered + messages, accepted)
    ensures Subsequence(delivered + (Without(messages, e.id) + [e]), accepted + [e])
  {
    var rest := Without(messages, e.id);
    if HasId(messages, e.id) {
      var i :| 0 <= i < |messages| && messages[i].id == e.id;
      WithoutAt(messages, i);
      DropKeepsOrder(messages, accepted, delivered, i);
    } else {
      WithoutFacts(messages, e.id);
    }
    SubsequenceAppend(delivered + rest, accepted, e);
    ConcatAssoc(delivered, rest, [e]);
  }

  lemma PutConserves(q: Queue, accepted: seq<Entry>, delivered: seq<Entry>, reused: nat, e: Entry)
    requires Conserved(q, accepted, delivered, reused)
    ensures Conserved(PutEntry(q, e), accepted + [e], delivered,
                      reused + if HasId(q.messages, e.id) then 1 else 0)
  {
    WithoutFacts(q.messages, e.id);
    WithoutDistinct(q.messages, e.id);
    PutKeepsOrder(q.messages, accepted, delivered, e);
    AppendIds(Without(q.messages, e.id), e);
    AppendIds(accepted, e);
    if reused == 0 && !HasId(q.messages, e.id) {
      assert accepted + [e] == delivered + (q.messages + [e]);
    }
  }

  lemma TakeConserves(q: Queue, accepted: seq<Entry>, delivered: seq<Entry>, reused: nat, size: nat)
    requires Conserved(q, accepted, delivered, reused)
    ensures Conserved(Prepare(TakeBatch(q, size)), accepted,
                      delivered + q.messages[..BatchLength(q, size)], reused)
  {
    var n := BatchLength(q, size);
    assert delivered + q.messages[..n] + q.messages[n..] == delivered + q.messages;
  }

  lemma BatchKeeps(w: World, c: nat, r: Request)
    requires Inv(w)
    ensures Inv(FinishBatch(w, c, r))
  {
    TakeConserves(w.q, w.accepted, w.delivered, w.reused, r.size);
    SignalKeeps(HandOut(w, c, r));
  }

  lemma ReplyKeeps(w: World)
    requires Inv(w)
    ensures Inv(FinishReply(w))
  {
  }

  lemma EvaluateKeeps(w: World, c: nat, r: Request)
    requires Inv(w)
    ensures Inv(Evaluate(w, c, r))
  {
    if Decide(w.q, r.size, Until(r), w.now).Finish? {
      BatchKeeps(w, c, r);
    }
  }

  lemma BeginPutKeeps(w: World, p: nat, job: PutJob)
    requires Inv(w)
    ensures Inv(BeginPut(w, p, job))
  {
    if p < |w.putters| && w.putters[p].Idle? {
      if w.q.ready {
        PutKeeps(w, p, job);
      } else {
        CountWokenUpdate(w.putters, p, Asleep(job));
      }
    }
  }

  lemma WaiterStepKeeps(w: World, e: Event)
    requires Inv(w) && !w.spinning
    requires e.LookAtEvent? || e.RunWaiter? || e.TimeOut? || e.CancelWaiter?
    ensures Inv(Step(w, e))
  {
    if e.c in w.waiters {
      EvaluateKeeps(w, e.c, w.waiters[e.c].request);
      BatchKeeps(w, e.c, w.waiters[e.c].request);
    }
  }

  lemma StepKeeps(w: World, e: Event)
    requires Inv(w)
    ensures Inv(Step(w, e))
  {
    if !w.spinning {
      match e
      case StartPut(p, job) => BeginPutKeeps(w, p, job);
      case RunPut(p) =>
        if p < |w.putters| && w.putters[p].Woken? { PutKeeps(w, p, w.putters[p].job); }
      case CancelPut(p) =>
        if p < |w.putters| { CountWokenUpdate(w.putters, p, Idle); }
      case StartBatch(c, size, delay) => EvaluateKeeps(w, c, Request(size, w.now, delay));
      case StartNoop(c, delay) =>
        EvaluateKeeps(w, c, Request(1, w.now, delay));
        ReplyKeeps(w);
      case Reply => ReplyKeeps(w);
      case Tick(d) =>
      case _ => WaiterStepKeeps(w, e);
    }
  }

  lemma {:induction false} RunKeeps(w: World, es: seq<Event>)
    requires Inv(w)
    ensures Inv(Run(w, es))
    decreases |es|
  {
    if es != [] {
      StepKeeps(w, es[0]);
      RunKeeps(Step(w, es[0]), es[1..]);
    }
  }
}
