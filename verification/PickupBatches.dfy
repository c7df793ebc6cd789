/** Batch and noop requests over whole runs: what they hand out, when they end,
    and when one of them starts to loop without ever suspending. */
module PickupBatches {
  import opened Base
  import opened PickupQueue
  import opened PickupSystem
  import opened PickupTheorems

  // ------------------------------------------------------- what is handed out

  /** The entries of the answered requests, one request after the other. */
  function Items(served: seq<Served>): seq<Entry> {
    if served == [] then [] else Items(served[..|served| - 1]) + served[|served| - 1].items
  }

  /** A request got what it asked for, or its deadline was over. */
  predicate Right(s: Served) {
    |s.items| <= s.request.size && (|s.items| == s.request.size || Passed(s.request, s.end))
  }

  ghost predicate AllRight(delivered: seq<Entry>, served: seq<Served>, reused: nat) {
    && delivered == Items(served)
    && (reused == 0 ==> forall k :: 0 <= k < |served| ==> Right(served[k]))
  }

  ghost predicate ServedRight(w: World) {
    AllRight(w.delivered, w.served, w.reused)
  }

  lemma OneMore(delivered: seq<Entry>, served: seq<Served>, reused: nat, s: Served)
    requires AllRight(delivered, served, reused) && (reused == 0 ==> Right(s))
    ensures AllRight(delivered + s.items, served + [s], reused)
  {
    assert (served + [s])[..|served|] == served;
  }

  /** Without drift a batch takes as many entries as are counted, up to its size. */
  lemma BatchTakes(q: Queue, size: nat)
    requires q.count == |q.messages|
    ensures |q.messages[..BatchLength(q, size)]| == Min(size, q.count)
  {
  }

  lemma SignalServesNobody(w: World)
    ensures Signal(w).delivered == w.delivered && Signal(w).served == w.served && Signal(w).reused == w.reused
  {
  }

  lemma HandOutRight(w: World, c: nat, r: Request)
    requires w.q.count == |w.q.messages| + w.reused && ServedRight(w)
    requires r.size <= w.q.count || Passed(r, w.now)
    ensures ServedRight(FinishBatch(w, c, r))
  {
    var items := w.q.messages[..BatchLength(w.q, r.size)];
    if w.reused == 0 { BatchTakes(w.q, r.size); }
    OneMore(w.delivered, w.served, w.reused, Served(c, r, w.now, items));
    SignalServesNobody(HandOut(w, c, r));
  }

  lemma EvaluateRight(w: World, c: nat, r: Request)
    requires Inv(w) && ServedRight(w)
    ensures ServedRight(Evaluate(w, c, r))
  {
    if Decide(w.q, r.size, Until(r), w.now).Finish? {
      HandOutRight(w, c, r);
    }
  }

  lemma PutRight(w: World, p: nat, job: PutJob)
    requires ServedRight(w) && p < |w.putters|
    ensures ServedRight(FinishPut(w, p, job))
  {
    if ChosenId(job).Some? {
      var w1 := Accept(w, p, Entry(ChosenId(job).value, job.message));
      assert w1.delivered == w.delivered && w1.served == w.served && w.reused <= w1.reused;
      SignalServesNobody(w1);
    }
  }

  lemma StepRight(w: World, e: Event)
    requires Inv(w) && ServedRight(w)
    ensures ServedRight(Step(w, e))
  {
    if !w.spinning {
      match e
      case StartPut(p, job) => if p < |w.putters| { PutRight(w, p, job); }
      case RunPut(p) => if p < |w.putters| && w.putters[p].Woken? { PutRight(w, p, w.putters[p].job); }
      case StartBatch(c, size, delay) => EvaluateRight(w, c, Request(size, w.now, delay));
      case StartNoop(c, delay) => EvaluateRight(w, c, Request(1, w.now, delay));
      case RunWaiter(c) => if c in w.waiters { EvaluateRight(w, c, w.waiters[c].request); }
      case TimeOut(c) =>
        if c in w.waiters && Passed(w.waiters[c].request, w.now) { HandOutRight(w, c, w.waiters[c].request); }
      case _ =>
    }
  }

  lemma {:induction false} RunRight(w: World, es: seq<Event>)
    requires Inv(w) && ServedRight(w)
    ensures ServedRight(Run(w, es))
    decreases |es|
  {
    if es != [] {
      StepRight(w, es[0]);
      StepKeeps(w, es[0]);
      RunRight(Step(w, es[0]), es[1..]);
    }
  }

  /** In every run the answered requests hand out exactly what is delivered, in
      order. Without drift each of them gets exactly as many entries as it asked
      for, or fewer after its start time plus its delay; so without a delay it
      always gets all of them. */
  lemma BatchResult(capacity: Option<nat>, producers: nat, es: seq<Event>)
    requires capacity.Some? ==> 1 <= capacity.value
    ensures var w := Run(Init(capacity, producers), es);
            && w.delivered == Items(w.served)
            && (w.reused == 0 ==> forall s :: s in w.served ==> GotItsDue(s))
  {
    InitInv(capacity, producers);
    RunRight(Init(capacity, producers), es);
  }

  /** Never more than asked for, and fewer only with a delay that was over. */
  predicate GotItsDue(s: Served) {
    && |s.items| <= s.request.size
    && (|s.items| < s.request.size ==>
          && s.request.delay.Some? && s.request.delay.value >= 0
          && s.request.start + s.request.delay.value <= s.end)
  }

  /** A noop that finds something always answers at once with the oldest entry,
      whatever the capacity and the number of producers. */
  lemma NoopServesOldest(w: World, c: nat, delay: Option<int>)
    requires Inv(w) && !w.spinning && c !in w.waiters && w.q.messages != []
    ensures var w1 := Step(w, StartNoop(c, delay));
            && w1.served == w.served + [Served(c, Request(1, w.now, delay), w.now, [w.q.messages[0]])]
            && w1.q.messages == w.q.messages[1..]
            && c !in w1.waiters && !w1.spinning
  {
    var r := Request(1, w.now, delay);
    assert Step(w, StartNoop(c, delay)) == FinishBatch(w, c, r);
    assert w.q.messages[..1] == [w.q.messages[0]] && BatchLength(w.q, 1) == 1;
  }

  /** A noop without a delay on an empty queue is answered at once, with nothing: it
      waits for nothing and takes nothing. */
  lemma NoopOnEmpty(w: World, c: nat)
    requires Inv(w) && !w.spinning && c !in w.waiters && w.q.count == 0
    ensures var w1 := Step(w, StartNoop(c, None));
            && c !in w1.waiters && !w1.spinning && w1.served == w.served && w1.delivered == w.delivered
            && w1.q.messages == [] && w1.q.count == 0
  {
  }

  /** The one answer an event gives, if any: who gets it and when, that it takes the
      oldest entries, never more than asked for, and fewer only if nothing is left. */
  ghost predicate TookOldest(w: World, w1: World, s: Served) {
    && w1.served == w.served + [s] && w1.delivered == w.delivered + s.items
    && s.end == w.now && s.items + w1.q.messages == w.q.messages
    && |s.items| <= s.request.size && (|s.items| < s.request.size ==> w1.q.messages == [])
  }

  lemma HandOutTakes(w: World, c: nat, r: Request)
    requires Inv(w)
    ensures exists s :: TookOldest(w, FinishBatch(w, c, r), s)
  {
    var n := BatchLength(w.q, r.size);
    assert w.q.messages[..n] + w.q.messages[n..] == w.q.messages;
    assert TookOldest(w, FinishBatch(w, c, r), Served(c, r, w.now, w.q.messages[..n]));
  }

  lemma EvaluateTakes(w: World, c: nat, r: Request)
    requires Inv(w)
    ensures Evaluate(w, c, r).served == w.served || exists s :: TookOldest(w, Evaluate(w, c, r), s)
  {
    if Decide(w.q, r.size, Until(r), w.now).Finish? {
      HandOutTakes(w, c, r);
    }
  }

  /** Every answer takes all it may: drift or not, a request goes with fewer entries
      than it asked for only if it leaves the queue empty. */
  lemma AnswersTakeAll(w: World, e: Event)
    requires Inv(w)
    ensures Step(w, e).served == w.served || exists s :: TookOldest(w, Step(w, e), s)
  {
    if !w.spinning {
      match e
      case StartPut(_, _) =>
      case RunPut(_) =>
      case StartBatch(c, size, delay) => EvaluateTakes(w, c, Request(size, w.now, delay));
      case StartNoop(c, delay) => EvaluateTakes(w, c, Request(1, w.now, delay));
      case RunWaiter(c) => if c in w.waiters { EvaluateTakes(w, c, w.waiters[c].request); }
      case TimeOut(c) => if c in w.waiters { HandOutTakes(w, c, w.waiters[c].request); }
      case _ =>
    }
  }

  // --------------------------------------------------------- how requests end

  ghost predicate Waits(w: World, c: nat, r: Request) {
    c in w.waiters && w.waiters[c].request == r
  }

  ghost predicate WasServed(served: seq<Served>, before: nat, c: nat, r: Request) {
    exists k :: before <= k < |served| && served[k].c == c && served[k].request == r
  }

  /** A request keeps its size, its start time and its delay while it waits, and
      leaves only by being answered or cancelled. */
  lemma WaitsOrServed(w: World, e: Event, c: nat, r: Request)
    requires Inv(w) && Waits(w, c, r) && e != CancelWaiter(c)
    ensures Waits(Step(w, e), c, r) || WasServed(Step(w, e).served, |w.served|, c, r)
  {
    if e != RunWaiter(c) && e != TimeOut(c) {
      OthersStep(w, e, c, r);
    } else if c !in Step(w, e).waiters || Step(w, e).served != w.served {
      HandOutServes(w, c, r);
    }
  }

  lemma HandOutServes(w: World, c: nat, r: Request)
    requires Inv(w)
    ensures WasServed(FinishBatch(w, c, r).served, |w.served|, c, r)
  {
    var served := FinishBatch(w, c, r).served;
    assert served[|w.served|].c == c && served[|w.served|].request == r;
  }

  lemma StartOther(w: World, d: nat, x: Request, c: nat, r: Request)
    requires Inv(w) && Waits(w, c, r) && d != c
    ensures Waits(Evaluate(w, d, x), c, r)
  {
  }

  /** Past its deadline a request is answered by the next event that runs it. */
  lemma OverdueStep(w: World, e: Event, c: nat, r: Request)
    requires Inv(w) && !w.spinning && Waits(w, c, r) && Passed(r, w.now)
    requires e == TimeOut(c) || (e == RunWaiter(c) && w.waiters[c].phase.Awake?)
    ensures c !in Step(w, e).waiters && WasServed(Step(w, e).served, |w.served|, c, r)
  {
    assert Decide(w.q, r.size, Until(r), w.now).Finish?;
    assert Step(w, e) == FinishBatch(w, c, r);
    HandOutServes(w, c, r);
  }

  lemma ServedLater(served: seq<Served>, more: seq<Served>, before: nat, c: nat, r: Request)
    requires served <= more && WasServed(served, before, c, r)
    ensures WasServed(more, before, c, r)
  {
    var k :| before <= k < |served| && served[k].c == c && served[k].request == r;
    assert more[k] == served[k];
  }

  lemma ServedEarlier(served: seq<Served>, before: nat, after: nat, c: nat, r: Request)
    requires before <= after && WasServed(served, after, c, r)
    ensures WasServed(served, before, c, r)
  {
  }

  /** Progress: once its deadline is over, a request whose timeout fires anywhere
      in what follows is answered by then, unless it is cancelled or the whole
      loop stopped suspending. */
  lemma {:induction false} OverdueLeaves(w: World, es: seq<Event>, c: nat, r: Request)
    requires Inv(w) && Waits(w, c, r) && Passed(r, w.now)
    requires TimeOut(c) in es && CancelWaiter(c) !in es
    ensures Run(w, es).spinning || WasServed(Run(w, es).served, |w.served|, c, r)
    decreases |es|
  {
    if w.spinning {
      SpinForever(w, es);
    } else {
      var w1 := Step(w, es[0]);
      StepKeeps(w, es[0]);
      StepShape(w, es[0]);
      RunShape(w1, es[1..]);
      if es[0] == TimeOut(c) {
        OverdueStep(w, es[0], c, r);
      } else {
        WaitsOrServed(w, es[0], c, r);
      }
      if WasServed(w1.served, |w.served|, c, r) {
        ServedLater(w1.served, Run(w, es).served, |w.served|, c, r);
      } else {
        OverdueLeaves(w1, es[1..], c, r);
        if !Run(w, es).spinning { ServedEarlier(Run(w, es).served, |w.served|, |w1.served|, c, r); }
      }
    }
  }

  lemma {:induction false} RunWaits(w: World, es: seq<Event>, c: nat, r: Request)
    requires Inv(w) && Waits(w, c, r) && CancelWaiter(c) !in es
    ensures Waits(Run(w, es), c, r) || WasServed(Run(w, es).served, |w.served|, c, r)
    decreases |es|
  {
    if es != [] {
      var w1 := Step(w, es[0]);
      StepKeeps(w, es[0]);
      StepShape(w, es[0]);
      RunShape(w1, es[1..]);
      WaitsOrServed(w, es[0], c, r);
      if WasServed(w1.served, |w.served|, c, r) {
        ServedLater(w1.served, Run(w, es).served, |w.served|, c, r);
      } else {
        RunWaits(w1, es[1..], c, r);
        if WasServed(Run(w, es).served, |w1.served|, c, r) {
          ServedEarlier(Run(w, es).served, |w.served|, |w1.served|, c, r);
        }
      }
    }
  }

  /** A batch or a noop that starts with this delay. */
  predicate Starts(e: Event, c: nat, size: nat, delay: int) {
    e == StartBatch(c, size, Some(delay)) || (e == StartNoop(c, Some(delay)) && size == 1)
  }

  lemma StartWaitsOrServed(w: World, e: Event, c: nat, size: nat, delay: int)
    requires Inv(w) && !w.spinning && c !in w.waiters && 0 <= delay && Starts(e, c, size, delay)
    ensures var (w1, r) := (Step(w, e), Request(size, w.now, Some(delay)));
            && !w1.spinning && (Waits(w1, c, r) || WasServed(w1.served, |w.served|, c, r))
  {
    var r := Request(size, w.now, Some(delay));
    assert Step(w, e) == Evaluate(w, c, r);
    if Decide(w.q, r.size, Until(r), w.now).Finish? {
      HandOutServes(w, c, r);
    }
  }

  /** A delayed request is answered in time: in every run, once its delay has passed
      since its start, the firing of its timeout finds it answered or answers it,
      unless it was cancelled or the loop stopped suspending. */
  lemma AnsweredInTime(capacity: Option<nat>, producers: nat, before: seq<Event>, e: Event, c: nat, size: nat,
                       delay: int, es: seq<Event>)
    requires capacity.Some? ==> 1 <= capacity.value
    requires var w := Run(Init(capacity, producers), before);
             && !w.spinning && c !in w.waiters && 0 <= delay && Starts(e, c, size, delay)
             && w.now + delay <= Run(Step(w, e), es).now
    requires CancelWaiter(c) !in es
    ensures var w := Run(Init(capacity, producers), before);
            var w2 := Run(Step(w, e), es);
            w2.spinning || WasServed(Step(w2, TimeOut(c)).served, |w.served|, c, Request(size, w.now, Some(delay)))
  {
    var w := Run(Init(capacity, producers), before);
    var r := Request(size, w.now, Some(delay));
    InitInv(capacity, producers);
    RunKeeps(Init(capacity, producers), before);
    StartWaitsOrServed(w, e, c, size, delay);
    StepKeeps(w, e);
    StepShape(w, e);
    var w1 := Step(w, e);
    var w2 := Run(w1, es);
    RunKeeps(w1, es);
    RunShape(w1, es);
    StepShape(w2, TimeOut(c));
    if WasServed(w1.served, |w.served|, c, r) {
      ServedLater(w1.served, Step(w2, TimeOut(c)).served, |w.served|, c, r);
    } else {
      RunWaits(w1, es, c, r);
      if WasServed(w2.served, |w1.served|, c, r) {
        ServedEarlier(w2.served, |w.served|, |w1.served|, c, r);
        ServedLater(w2.served, Step(w2, TimeOut(c)).served, |w.served|, c, r);
      } else if !w2.spinning {
        OverdueStep(w2, TimeOut(c), c, r);
        ServedEarlier(Step(w2, TimeOut(c)).served, |w.served|, |w2.served|, c, r);
      }
    }
  }

  predicate StartsRequest(e: Event, c: nat) {
    (e.StartBatch? || e.StartNoop?) && e.c == c
  }

  lemma AbsentStays(w: World, e: Event, c: nat)
    requires Inv(w) && c !in w.waiters && !StartsRequest(e, c)
    ensures c !in Step(w, e).waiters
    ensures forall r :: !WasServed(Step(w, e).served, |w.served|, c, r)
  {
    if !w.spinning {
      match e
      case StartPut(p, job) => if p < |w.putters| { PutLeavesWaiters(w, p, job); }
      case RunPut(p) => if p < |w.putters| && w.putters[p].Woken? { PutLeavesWaiters(w, p, w.putters[p].job); }
      case StartBatch(d, size, delay) => RequestLeavesOthers(w, d, Request(size, w.now, delay), c);
      case StartNoop(d, delay) => RequestLeavesOthers(w, d, Request(1, w.now, delay), c);
      case RunWaiter(d) => if d in w.waiters { RequestLeavesOthers(w, d, w.waiters[d].request, c); }
      case TimeOut(d) => if d in w.waiters { RequestLeavesOthers(w, d, w.waiters[d].request, c); }
      case _ =>
    }
  }

  lemma PutLeavesWaiters(w: World, p: nat, job: PutJob)
    requires p < |w.putters|
    ensures FinishPut(w, p, job).waiters.Keys == w.waiters.Keys && FinishPut(w, p, job).served == w.served
  {
  }

  lemma HandOutLeavesOthers(w: World, d: nat, x: Request, c: nat)
    requires 0 <= w.q.count && c !in w.waiters && d != c
    ensures c !in FinishBatch(w, d, x).waiters
    ensures forall r :: !WasServed(FinishBatch(w, d, x).served, |w.served|, c, r)
  {
    var w1 := HandOut(w, d, x);
    SignalServesNobody(w1);
    assert forall k :: |w.served| <= k < |w1.served| ==> w1.served[k].c == d;
  }

  lemma RequestLeavesOthers(w: World, d: nat, x: Request, c: nat)
    requires Inv(w) && c !in w.waiters && d != c
    ensures c !in Evaluate(w, d, x).waiters && c !in FinishBatch(w, d, x).waiters
    ensures forall r :: !WasServed(Evaluate(w, d, x).served, |w.served|, c, r)
    ensures forall r :: !WasServed(FinishBatch(w, d, x).served, |w.served|, c, r)
  {
    HandOutLeavesOthers(w, d, x, c);
  }

  /** A request that is cancelled gets nothing, then or ever, until its consumer asks
      again. */
  lemma CancelledRequestIsOver(w: World, c: nat, es: seq<Event>, r: Request)
    requires Inv(w) && !w.spinning && forall i :: 0 <= i < |es| ==> !StartsRequest(es[i], c)
    ensures Step(w, CancelWaiter(c)).q == w.q && Step(w, CancelWaiter(c)).served == w.served
    ensures c !in Run(Step(w, CancelWaiter(c)), es).waiters
    ensures !WasServed(Run(Step(w, CancelWaiter(c)), es).served, |w.served|, c, r)
  {
    StepKeeps(w, CancelWaiter(c));
    AbsentRun(Step(w, CancelWaiter(c)), c, es, r);
  }

  lemma NeverServed(served: seq<Served>, more: seq<Served>, before: nat, c: nat, r: Request)
    requires served <= more && !WasServed(served, before, c, r) && !WasServed(more, |served|, c, r)
    ensures !WasServed(more, before, c, r)
  {
    forall k | before <= k < |more| ensures !(more[k].c == c && more[k].request == r) {
      if k < |served| { assert served[k] == more[k]; }
    }
  }

  lemma {:induction false} AbsentRun(w: World, c: nat, es: seq<Event>, r: Request)
    requires Inv(w) && c !in w.waiters && forall i :: 0 <= i < |es| ==> !StartsRequest(es[i], c)
    ensures c !in Run(w, es).waiters && !WasServed(Run(w, es).served, |w.served|, c, r)
    decreases |es|
  {
    if es != [] {
      var w1 := Step(w, es[0]);
      StepKeeps(w, es[0]);
      AbsentStays(w, es[0], c);
      StepShape(w, es[0]);
      RunShape(w1, es[1..]);
      AbsentRun(w1, c, es[1..], r);
      NeverServed(w1.served, Run(w1, es[1..]).served, |w.served|, c, r);
    }
  }

  /** A batch for something on a queue that stays empty is answered empty when its
      delay is over, and not before. */
  lemma EmptyAnswerOnTime(c: nat, size: nat, delay: nat, d: nat)
    requires 0 < size && 0 < delay
    ensures var w := Run(Init(Some(5), 1), [StartBatch(c, size, Some(delay)), Tick(d), TimeOut(c)]);
            if d < delay then w.served == [] && c in w.waiters
            else w.served == [Served(c, Request(size, 0, Some(delay)), d, [])] && c !in w.waiters
  {
    var w0 := Init(Some(5), 1);
    var r := Request(size, 0, Some(delay));
    var w1 := Step(w0, StartBatch(c, size, Some(delay)));
    assert w1 == w0.(waiters := map[c := Waiter(r, Arming)]);
    var w2 := Step(w1, Tick(d));
    assert w2 == w1.(now := d);
    var w3 := Step(w2, TimeOut(c));
    assert [TimeOut(c)][1..] == [] && Run(w2, [TimeOut(c)]) == w3;
    assert [Tick(d), TimeOut(c)][1..] == [TimeOut(c)];
    assert [StartBatch(c, size, Some(delay)), Tick(d), TimeOut(c)][1..] == [Tick(d), TimeOut(c)];
  }

  // ------------------------------------------------------------ the wait loop

  /** What the batch loop sees at one evaluation, and whether the wait before it
      ended by its timeout (which only a wait with a deadline can). */
  datatype Moment = Moment(now: int, count: int, timedOut: bool)

  /** The loop is left here: enough entries, the deadline passed, or timed out. */
  predicate Leaves(r: Request, m: Moment) {
    r.size <= m.count || (Until(r).Some? && (Until(r).value <= m.now || m.timedOut))
  }

  /** The moments at which a run evaluates the loop of waiter `c`. */
  function MomentsOf(w: World, es: seq<Event>, c: nat): seq<Moment>
    decreases |es|
  {
    if es == [] then []
    else
      var here := if w.spinning || c !in w.waiters then []
                  else if es[0] == RunWaiter(c) && w.waiters[c].phase.Awake? then [Moment(w.now, w.q.count, false)]
                  else if es[0] == TimeOut(c) && Passed(w.waiters[c].request, w.now) then
                    [Moment(w.now, w.q.count, true)]
                  else [];
      here + MomentsOf(Step(w, es[0]), es[1..], c)
  }

  ghost predicate ClockAdvances(moments: seq<Moment>) {
    forall i, j :: 0 <= i < j < |moments| ==> moments[i].now + (j - i) <= moments[j].now
  }

  /** The wait loop of a batch request over the moments it lives through: it is
      left at the first moment that allows it. With a deadline and an advancing
      clock it is left within the time remaining; without a deadline it is never
      left while too few entries are queued. */
  method WaitLoop(r: Request, moments: seq<Moment>) returns (left: bool, passed: nat)
    ensures passed <= |moments|
    ensures forall i :: 0 <= i < passed ==> !Leaves(r, moments[i])
    ensures left <==> passed < |moments|
    ensures left ==> Leaves(r, moments[passed])
    ensures moments != [] && ClockAdvances(moments) && Until(r).Some? ==>
              (Until(r).value - moments[0].now < |moments| ==> left)
    ensures Until(r).None? && (forall m :: m in moments ==> m.count < r.size) ==> !left
  {
    var until := Until(r);
    passed := 0;
    while passed < |moments|
      invariant passed <= |moments|
      invariant forall i :: 0 <= i < passed ==> !Leaves(r, moments[i])
    {
      var m := moments[passed];
      if r.size <= m.count {
        return true, passed;
      }
      if until.Some? {
        if until.value - m.now <= 0 || m.timedOut {
          return true, passed;
        }
      }
      passed := passed + 1;
    }
    left := false;
    TimeRunsOut(r, moments);
  }

  lemma TimeRunsOut(r: Request, moments: seq<Moment>)
    ensures moments != [] && ClockAdvances(moments) && Until(r).Some? ==>
              (Until(r).value - moments[0].now < |moments| ==> Leaves(r, moments[|moments| - 1]))
  {
  }

  ghost predicate NoneLeaves(r: Request, moments: seq<Moment>) {
    forall m :: m in moments ==> !Leaves(r, m)
  }

  /** One event: the request still waits afterwards exactly if the loop was not
      evaluated, or evaluated at a moment that does not let it go. */
  lemma StepFollowsLoop(w: World, e: Event, c: nat, r: Request)
    requires Inv(w) && Waits(w, c, r) && !Step(w, e).spinning && e != CancelWaiter(c)
    ensures MomentsOf(w, [e], c) == [] ==> Waits(Step(w, e), c, r)
    ensures forall m :: m in MomentsOf(w, [e], c) ==> (Leaves(r, m) <==> c !in Step(w, e).waiters)
    ensures c in Step(w, e).waiters ==> Waits(Step(w, e), c, r)
  {
    if e == RunWaiter(c) || e == TimeOut(c) {
      OwnStep(w, e, c, r);
    } else {
      OthersStep(w, e, c, r);
    }
  }

  lemma OwnStep(w: World, e: Event, c: nat, r: Request)
    requires Inv(w) && Waits(w, c, r) && !Step(w, e).spinning && (e == RunWaiter(c) || e == TimeOut(c))
    ensures MomentsOf(w, [e], c) == [] ==> Step(w, e) == w
    ensures forall m :: m in MomentsOf(w, [e], c) ==> (Leaves(r, m) <==> c !in Step(w, e).waiters)
    ensures c in Step(w, e).waiters ==> Waits(Step(w, e), c, r)
  {
    assert [e][1..] == [];
  }

  lemma PutWaits(w: World, p: nat, job: PutJob, c: nat, r: Request)
    requires Waits(w, c, r) && p < |w.putters|
    ensures Waits(FinishPut(w, p, job), c, r)
  {
  }

  lemma NoMoment(w: World, e: Event, c: nat)
    requires e != RunWaiter(c) && e != TimeOut(c)
    ensures MomentsOf(w, [e], c) == []
  {
    assert [e][1..] == [];
  }

  /** No other event touches the request. */
  lemma OthersStep(w: World, e: Event, c: nat, r: Request)
    requires Inv(w) && Waits(w, c, r) && e != RunWaiter(c) && e != TimeOut(c) && e != CancelWaiter(c)
    ensures MomentsOf(w, [e], c) == [] && Waits(Step(w, e), c, r)
  {
    NoMoment(w, e, c);
    if !w.spinning {
      match e
      case StartPut(p, job) => if p < |w.putters| { PutWaits(w, p, job, c, r); }
      case RunPut(p) => if p < |w.putters| && w.putters[p].Woken? { PutWaits(w, p, w.putters[p].job, c, r); }
      case RunWaiter(d) => if d in w.waiters { StartOther(w, d, w.waiters[d].request, c, r); }
      case TimeOut(d) => if d in w.waiters { OtherServed(w, d, w.waiters[d].request, c, r); }
      case StartBatch(d, size, delay) => if d != c { StartOther(w, d, Request(size, w.now, delay), c, r); }
      case StartNoop(d, delay) => if d != c { StartOther(w, d, Request(1, w.now, delay), c, r); }
      case _ =>
    }
  }

  lemma OtherServed(w: World, d: nat, x: Request, c: nat, r: Request)
    requires Inv(w) && Waits(w, c, r) && d != c
    ensures Waits(FinishBatch(w, d, x), c, r)
  {
  }

  lemma MomentsCons(w: World, es: seq<Event>, c: nat)
    requires es != []
    ensures MomentsOf(w, es, c) == MomentsOf(w, [es[0]], c) + MomentsOf(Step(w, es[0]), es[1..], c)
  {
    assert [es[0]][1..] == [];
  }

  /** The loop and the system agree: over any run that does not stop suspending,
      the request is in its wait at every point if and only if none of the moments
      its loop was evaluated at lets it go. */
  lemma {:induction false} LoopFollowsRun(w: World, es: seq<Event>, c: nat, r: Request)
    requires Inv(w) && Waits(w, c, r) && CancelWaiter(c) !in es && !Run(w, es).spinning
    ensures (forall n :: 0 <= n <= |es| ==> c in Run(w, es[..n]).waiters) <==> NoneLeaves(r, MomentsOf(w, es, c))
    decreases |es|
  {
    if es != [] {
      var w1 := Step(w, es[0]);
      var rest := es[1..];
      if w1.spinning { SpinForever(w1, rest); }
      StepKeeps(w, es[0]);
      StepFollowsLoop(w, es[0], c, r);
      MomentsCons(w, es, c);
      PrefixRuns(w, es);
      if c in w1.waiters {
        LoopFollowsRun(w1, rest, c, r);
        assert forall n :: 0 <= n <= |rest| ==> Run(w1, rest[..n]) == Run(w, es[..n + 1]);
        assert forall n :: 1 <= n <= |es| ==> Run(w, es[..n]) == Run(w1, rest[..n - 1]);
        assert Run(w, es[..0]) == w;
      } else {
        assert Run(w, es[..1]) == w1 by { assert rest[..0] == []; }
        var m := MomentsOf(w, [es[0]], c)[0];
        assert m in MomentsOf(w, es, c) && Leaves(r, m);
      }
    } else {
      assert forall n :: 0 <= n <= |es| ==> es[..n] == [];
    }
  }

  lemma PrefixRuns(w: World, es: seq<Event>)
    requires es != []
    ensures forall n :: 0 <= n <= |es[1..]| ==> Run(w, es[..n + 1]) == Run(Step(w, es[0]), es[1..][..n])
  {
    forall n | 0 <= n <= |es[1..]| ensures Run(w, es[..n + 1]) == Run(Step(w, es[0]), es[1..][..n]) {
      assert es[..n + 1][1..] == es[1..][..n];
    }
  }

  // ---------------------------------------------------------------- spinning

  /** The request would find some entries but too few, and has no deadline. */
  predicate Starves(q: Queue, size: nat, until: Option<int>) {
    0 < q.count < size && until.None?
  }

  lemma EvaluateSpins(w: World, c: nat, r: Request)
    requires Inv(w) && !w.spinning
    ensures Evaluate(w, c, r).spinning <==> Starves(w.q, r.size, Until(r))
  {
  }

  /** Exactly these steps make a task loop without ever suspending again: the first
      evaluation of a batch, or the evaluation after a wake-up, that finds some but
      too few entries and no (or a negative) delay. */
  lemma SpinsIff(w: World, e: Event)
    requires Inv(w) && !w.spinning
    ensures Step(w, e).spinning <==>
            match e
            case StartBatch(c, size, delay) => c !in w.waiters && Starves(w.q, size, Deadline(delay, w.now))
            case RunWaiter(c) =>
              && c in w.waiters && w.waiters[c].phase.Awake?
              && Starves(w.q, w.waiters[c].request.size, Until(w.waiters[c].request))
            case _ => false
  {
    match e
    case StartPut(_, _) =>
    case RunPut(_) =>
    case StartBatch(c, size, delay) => EvaluateSpins(w, c, Request(size, w.now, delay));
    case StartNoop(c, delay) => EvaluateSpins(w, c, Request(1, w.now, delay));
    case RunWaiter(c) => if c in w.waiters { EvaluateSpins(w, c, w.waiters[c].request); }
    case _ =>
  }

  /** Once that happens, nothing at all happens any more. */
  lemma {:induction false} SpinForever(w: World, es: seq<Event>)
    requires w.spinning
    ensures Run(w, es) == w
    decreases |es|
  {
    if es != [] {
      SpinForever(w, es[1..]);
    }
  }

  /** Woken with too few entries: a batch for three sleeps on an empty queue, one
      entry arrives, and the loop never suspends again. */
  lemma WokenBatchSpins()
    ensures Run(Init(Some(5), 1), [StartBatch(0, 3, None), StartPut(0, SAME), RunWaiter(0)]).spinning
  {
    var w0 := Init(Some(5), 1);
    var r := Request(3, 0, None);
    var w1 := Step(w0, StartBatch(0, 3, None));
    assert w1 == w0.(waiters := map[0 := Waiter(r, Sleeping)]);
    var w2 := Step(w1, StartPut(0, SAME));
    assert w2.waiters == map[0 := Waiter(r, Awake)] && w2.q.count == 1;
    var w3 := Step(w2, RunWaiter(0));
    assert [RunWaiter(0)][1..] == [] && Run(w2, [RunWaiter(0)]) == w3;
    assert [StartPut(0, SAME), RunWaiter(0)][1..] == [RunWaiter(0)];
    assert [StartBatch(0, 3, None), StartPut(0, SAME), RunWaiter(0)][1..] == [StartPut(0, SAME), RunWaiter(0)];
  }

  /** Requests that can never starve: with a delay, or for at most one entry. */
  predicate Harmless(e: Event) {
    e.StartBatch? ==> e.size <= 1 || (e.delay.Some? && e.delay.value >= 0)
  }

  ghost predicate WaitersHarmless(w: World) {
    forall c :: c in w.waiters ==> w.waiters[c].request.size <= 1 || Until(w.waiters[c].request).Some?
  }

  lemma EvaluateHarmless(w: World, c: nat, r: Request)
    requires Inv(w) && WaitersHarmless(w) && (r.size <= 1 || Until(r).Some?)
    ensures WaitersHarmless(Evaluate(w, c, r))
  {
  }

  lemma PutHarmless(w: World, p: nat, job: PutJob)
    requires WaitersHarmless(w) && p < |w.putters|
    ensures WaitersHarmless(FinishPut(w, p, job))
  {
  }

  lemma HarmlessStep(w: World, e: Event)
    requires Inv(w) && !w.spinning && WaitersHarmless(w) && Harmless(e)
    ensures !Step(w, e).spinning && WaitersHarmless(Step(w, e))
  {
    SpinsIff(w, e);
    match e
    case StartPut(p, job) => if p < |w.putters| { PutHarmless(w, p, job); }
    case RunPut(p) => if p < |w.putters| && w.putters[p].Woken? { PutHarmless(w, p, w.putters[p].job); }
    case StartBatch(c, size, delay) => EvaluateHarmless(w, c, Request(size, w.now, delay));
    case StartNoop(c, delay) => EvaluateHarmless(w, c, Request(1, w.now, delay));
    case RunWaiter(c) => if c in w.waiters { EvaluateHarmless(w, c, w.waiters[c].request); }
    case _ =>
  }

  /** No run stops suspending if every batch for more than one entry has a delay. */
  lemma {:induction false} NeverSpins(w: World, es: seq<Event>)
    requires Inv(w) && !w.spinning && WaitersHarmless(w)
    requires forall i :: 0 <= i < |es| ==> Harmless(es[i])
    ensures !Run(w, es).spinning
    decreases |es|
  {
    if es != [] {
      HarmlessStep(w, es[0]);
      StepKeeps(w, es[0]);
      NeverSpins(Step(w, es[0]), es[1..]);
    }
  }
}
