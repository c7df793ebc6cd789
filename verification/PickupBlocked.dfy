/** A session that waits in `put` inside its own loop. It reads no more requests
    while it waits, so only pickup requests that wait already can take something
    out of the queue and let it go on. */
module PickupBlocked {
  import opened Base
  import opened PickupQueue
  import opened PickupSystem
  import opened PickupTheorems
  import opened PickupBatches

  /** What can still happen while putter `p`'s own loop is the one that would read
      pickup requests. Other putters go on, and so do requests that wait. */
  predicate Blocked(e: Event, p: nat) {
    !e.StartBatch? && !e.StartNoop? && !e.Reply? && e != CancelPut(p)
  }

  ghost predicate AllBlocked(es: seq<Event>, p: nat) {
    forall i :: 0 <= i < |es| ==> Blocked(es[i], p)
  }

  /** Putter `p` sleeps, and every putter that was woken has run. */
  ghost predicate Stuck(w: World, p: nat) {
    && Inv(w) && !w.spinning && w.q.capacity.Some?
    && p < |w.putters| && w.putters[p].Asleep?
    && (forall i :: 0 <= i < |w.putters| ==> !w.putters[i].Woken?)
  }

  ghost predicate Free(w: World, p: nat) {
    p < |w.putters| && !w.putters[p].Asleep?
  }

  /** The sizes asked for, added up. */
  function Sum(ws: map<nat, Waiter>, cs: seq<nat>): (n: nat)
    requires forall c :: c in cs ==> c in ws
  {
    if cs == [] then 0 else ws[cs[0]].request.size + Sum(ws, cs[1..])
  }

  /** Different waiting requests, all with a deadline or all without one. */
  ghost predicate Waiting(ws: map<nat, Waiter>, cs: seq<nat>, deadline: bool) {
    && (forall c :: c in cs ==> c in ws && (Until(ws[c].request).Some? <==> deadline))
    && (forall i, j :: 0 <= i < j < |cs| ==> cs[i] != cs[j])
  }

  /** The requests `us` can be served from what is counted, and together with the
      requests `ds`, which take what they get once their deadline is over, they
      take enough. */
  ghost predicate Take(ws: map<nat, Waiter>, count: int, max: nat, us: seq<nat>, ds: seq<nat>) {
    && Waiting(ws, us, false) && Waiting(ws, ds, true)
    && Sum(ws, us) <= count && count - Sum(ws, us) - Sum(ws, ds) < max
  }

  /** The requests that wait can make room. */
  ghost predicate CanMakeRoom(w: World)
    requires w.q.capacity.Some?
  {
    && w.reused < w.q.capacity.value
    && exists us, ds :: Take(w.waiters, w.q.count, w.q.capacity.value, us, ds)
  }

  /** `ws` holds some of the requests of `before`. */
  ghost predicate Fewer(ws: map<nat, Waiter>, before: map<nat, Waiter>) {
    forall c :: c in ws ==> c in before && ws[c].request == before[c].request
  }

  /** Nothing was answered. */
  ghost predicate Same(w: World, w1: World, p: nat) {
    Stuck(w1, p) && w1.q == w.q && w1.reused == w.reused && w1.served == w.served && Fewer(w1.waiters, w.waiters)
  }

  /** Request `c` was answered: it has a deadline or is covered by the counter. */
  ghost predicate Answered(w: World, w1: World, c: nat)
    requires c in w.waiters && 0 <= w.q.count
  {
    && (Until(w.waiters[c].request).Some? || w.waiters[c].request.size <= w.q.count)
    && w1 == FinishBatch(w, c, w.waiters[c].request)
  }

  lemma EvaluateStuck(w: World, p: nat, c: nat)
    requires Stuck(w, p) && c in w.waiters
    ensures var w1 := Evaluate(w, c, w.waiters[c].request);
            w1.spinning || Same(w, w1, p) || Answered(w, w1, c)
  {
    EvaluateKeeps(w, c, w.waiters[c].request);
  }

  /** The events that do not answer a request. */
  lemma PutterStep(w: World, e: Event, p: nat)
    requires Stuck(w, p) && Blocked(e, p) && !e.RunWaiter? && !e.TimeOut?
    ensures Same(w, Step(w, e), p)
  {
    StepKeeps(w, e);
  }

  /** One event while the session waits. */
  lemma BlockedStep(w: World, e: Event, p: nat)
    requires Stuck(w, p) && Blocked(e, p)
    ensures Step(w, e).spinning || Same(w, Step(w, e), p) ||
            (exists c :: c in w.waiters && Answered(w, Step(w, e), c))
  {
    match e
    case RunWaiter(c) => if c in w.waiters { EvaluateStuck(w, p, c); }
    case TimeOut(c) =>
      if c in w.waiters && Passed(w.waiters[c].request, w.now) { assert Answered(w, Step(w, e), c); }
    case _ => PutterStep(w, e, p);
  }

  /** Request `c` took what it could, and the putter is free if that made room. */
  ghost predicate Made(w: World, w1: World, p: nat, c: nat)
    requires c in w.waiters && w.q.capacity.Some? && w.reused <= w.q.count
  {
    && w1.q.count == w.q.count - Min(w.waiters[c].request.size, w.q.count - w.reused)
    && w1.reused == w.reused && w1.q.capacity == w.q.capacity
    && (Free(w1, p) <==> w1.q.count < w.q.capacity.value)
    && (Free(w1, p) || Stuck(w1, p))
    && Fewer(w1.waiters, w.waiters) && w1.waiters.Keys == w.waiters.Keys - {c}
  }

  lemma AnswerFrees(w: World, p: nat, c: nat)
    requires Stuck(w, p) && c in w.waiters
    ensures Made(w, FinishBatch(w, c, w.waiters[c].request), p, c)
  {
    BatchKeeps(w, c, w.waiters[c].request);
  }

  lemma {:induction false} SumFewer(ws: map<nat, Waiter>, before: map<nat, Waiter>, cs: seq<nat>)
    requires Fewer(ws, before) && forall c :: c in cs ==> c in ws
    ensures Sum(ws, cs) == Sum(before, cs)
  {
    if cs != [] {
      SumFewer(ws, before, cs[1..]);
    }
  }

  lemma TakeFewer(ws: map<nat, Waiter>, before: map<nat, Waiter>, count: int, max: nat, us: seq<nat>, ds: seq<nat>)
    requires Fewer(ws, before) && Take(ws, count, max, us, ds)
    ensures Take(before, count, max, us, ds)
  {
    SumFewer(ws, before, us);
    SumFewer(ws, before, ds);
  }

  /** One more request in front. */
  lemma TakeMore(ws: map<nat, Waiter>, count: int, max: nat, c: nat, us: seq<nat>, ds: seq<nat>)
    requires c in ws && c !in us && c !in ds
    requires Take(ws, count - ws[c].request.size, max, us, ds)
    requires Until(ws[c].request).Some? || 0 <= count - ws[c].request.size
    ensures exists us, ds :: Take(ws, count, max, us, ds)
  {
    if Until(ws[c].request).Some? {
      assert ([c] + ds)[1..] == ds;
      assert Take(ws, count, max, us, [c] + ds);
    } else {
      assert ([c] + us)[1..] == us;
      assert Take(ws, count, max, [c] + us, ds);
    }
  }

  lemma AnswerTakes(w: World, p: nat, c: nat)
    requires Stuck(w, p) && c in w.waiters && Answered(w, FinishBatch(w, c, w.waiters[c].request), c)
    requires Free(FinishBatch(w, c, w.waiters[c].request), p)
             || CanMakeRoom(FinishBatch(w, c, w.waiters[c].request))
    ensures CanMakeRoom(w)
  {
    var r := w.waiters[c].request;
    var w1 := FinishBatch(w, c, r);
    AnswerFrees(w, p, c);
    if Free(w1, p) {
      assert [c][1..] == [];
      if Until(r).Some? {
        assert Take(w.waiters, w.q.count, w.q.capacity.value, [], [c]);
      } else {
        assert Take(w.waiters, w.q.count, w.q.capacity.value, [c], []);
      }
    } else {
      var us, ds :| Take(w1.waiters, w1.q.count, w1.q.capacity.value, us, ds);
      TakeFewer(w1.waiters, w.waiters, w1.q.count, w1.q.capacity.value, us, ds);
      TakeMore(w.waiters, w.q.count, w.q.capacity.value, c, us, ds);
    }
  }

  /** Whatever happens, only requests that wait already make room. */
  lemma {:induction false} FreedByWaiting(w: World, es: seq<Event>, p: nat)
    requires Stuck(w, p) && AllBlocked(es, p) && Free(Run(w, es), p)
    ensures CanMakeRoom(w)
    decreases |es|
  {
    var w1 := Step(w, es[0]);
    BlockedStep(w, es[0], p);
    if w1.spinning {
      SpinForever(w1, es[1..]);
      SpinningSleeps(w, es[0], p);
    } else if Same(w, w1, p) {
      FreedByWaiting(w1, es[1..], p);
      var us, ds :| Take(w1.waiters, w1.q.count, w1.q.capacity.value, us, ds);
      TakeFewer(w1.waiters, w.waiters, w1.q.count, w1.q.capacity.value, us, ds);
    } else {
      var c :| c in w.waiters && Answered(w, w1, c);
      AnswerFrees(w, p, c);
      if !Free(w1, p) {
        FreedByWaiting(w1, es[1..], p);
      }
      AnswerTakes(w, p, c);
    }
  }

  lemma SpinningSleeps(w: World, e: Event, p: nat)
    requires Stuck(w, p) && Blocked(e, p) && Step(w, e).spinning
    ensures !Free(Step(w, e), p)
  {
    SpinsIff(w, e);
  }

  /** Lets request `c` be answered: by its timeout or by running it. */
  function Serving(w: World, c: nat): seq<Event>
    requires c in w.waiters
  {
    var until := Until(w.waiters[c].request);
    if until.None? then [LookAtEvent(c), RunWaiter(c)]
    else [Tick(if until.value > w.now then until.value - w.now else 0), TimeOut(c)]
  }

  lemma RunTwo(w: World, e: Event, f: Event)
    ensures Run(w, [e, f]) == Step(Step(w, e), f)
  {
    assert [e, f][1..] == [f] && [f][1..] == [];
    assert Run(Step(w, e), [f]) == Step(Step(w, e), f);
  }

  /** The request is ready to be answered after the first of the two events. */
  lemma ServingStarts(w: World, p: nat, c: nat)
    requires Stuck(w, p) && c in w.waiters
    requires Until(w.waiters[c].request).Some? || w.waiters[c].request.size <= w.q.count
    ensures var w1 := Step(w, Serving(w, c)[0]);
            && Same(w, w1, p) && w1.q.capacity == w.q.capacity && w1.waiters.Keys == w.waiters.Keys
            && Step(w1, Serving(w, c)[1]) == FinishBatch(w1, c, w1.waiters[c].request)
  {
    PutterStep(w, Serving(w, c)[0], p);
  }

  lemma ServingFrees(w: World, p: nat, c: nat)
    requires Stuck(w, p) && c in w.waiters
    requires Until(w.waiters[c].request).Some? || w.waiters[c].request.size <= w.q.count
    ensures Made(w, Run(w, Serving(w, c)), p, c)
  {
    var es := Serving(w, c);
    var w1 := Step(w, es[0]);
    RunTwo(w, es[0], es[1]);
    ServingStarts(w, p, c);
    AnswerFrees(w1, p, c);
  }

  /** The others that were to be served still make room. */
  lemma TakeRest(w: World, w1: World, p: nat, c: nat, us: seq<nat>, ds: seq<nat>, us1: seq<nat>, ds1: seq<nat>)
    requires w.q.capacity.Some? && w.reused <= w.q.count && w.reused < w.q.capacity.value && c in w.waiters
    requires Made(w, w1, p, c) && Stuck(w1, p)
    requires Take(w.waiters, w.q.count, w.q.capacity.value, us, ds)
    requires (us == [c] + us1 && ds == ds1) || (us == us1 == [] && ds == [c] + ds1)
    ensures Take(w1.waiters, w1.q.count, w1.q.capacity.value, us1, ds1)
  {
    assert ([c] + us1)[1..] == us1 && ([c] + ds1)[1..] == ds1;
    assert forall i :: 0 <= i < |us1| ==> us1[i] == ([c] + us1)[i + 1];
    assert forall i :: 0 <= i < |ds1| ==> ds1[i] == ([c] + ds1)[i + 1];
    SumFewer(w1.waiters, w.waiters, us1);
    SumFewer(w1.waiters, w.waiters, ds1);
  }

  /** And they do make room when they are let to. */
  lemma {:induction false} WaitingFrees(w: World, us: seq<nat>, ds: seq<nat>, p: nat) returns (es: seq<Event>)
    requires Stuck(w, p) && w.reused < w.q.capacity.value
    requires Take(w.waiters, w.q.count, w.q.capacity.value, us, ds)
    ensures AllBlocked(es, p) && Free(Run(w, es), p)
    decreases |us| + |ds|
  {
    var c := if us == [] then ds[0] else us[0];
    var us1, ds1 := if us == [] then us else us[1..], if us == [] then ds[1..] else ds;
    es := Serving(w, c);
    ServingFrees(w, p, c);
    var w1 := Run(w, es);
    if !Free(w1, p) {
      TakeRest(w, w1, p, c, us, ds, us1, ds1);
      var rest := WaitingFrees(w1, us1, ds1, p);
      RunConcat(w, es, rest);
      es := es + rest;
    }
  }

  /** A session that waits in `put` can get free again if and only if the requests
      that wait already can make room; otherwise it waits for ever. */
  lemma BlockedPutFreesIff(w: World, p: nat)
    requires Stuck(w, p)
    ensures (exists es :: AllBlocked(es, p) && Free(Run(w, es), p)) <==> CanMakeRoom(w)
  {
    if CanMakeRoom(w) {
      var us, ds :| Take(w.waiters, w.q.count, w.q.capacity.value, us, ds);
      var es := WaitingFrees(w, us, ds, p);
    }
    if es :| AllBlocked(es, p) && Free(Run(w, es), p) {
      FreedByWaiting(w, es, p);
    }
  }

  /** On a queue that is exactly full: one request that asks for something, and
      has a deadline or fits, is needed and enough. */
  lemma FullQueueFreesIff(w: World, p: nat)
    requires Stuck(w, p) && w.q.count == w.q.capacity.value
    ensures (exists es :: AllBlocked(es, p) && Free(Run(w, es), p)) <==>
            && w.reused < w.q.capacity.value
            && exists c :: c in w.waiters && 0 < w.waiters[c].request.size &&
                           (Until(w.waiters[c].request).Some? || w.waiters[c].request.size <= w.q.capacity.value)
  {
    var ws, max := w.waiters, w.q.capacity.value;
    BlockedPutFreesIff(w, p);
    if us, ds :| Take(ws, w.q.count, max, us, ds) {
      if Sum(ws, us) > 0 {
        var c := SomeCounts(ws, us, max);
      } else {
        var c := SomeCounts(ws, ds, Sum(ws, ds));
      }
    }
    if c :| c in ws && 0 < ws[c].request.size && (Until(ws[c].request).Some? || ws[c].request.size <= max) {
      assert [c][1..] == [];
      if Until(ws[c].request).Some? {
        assert Take(ws, w.q.count, max, [], [c]);
      } else {
        assert Take(ws, w.q.count, max, [c], []);
      }
    }
  }

  lemma {:induction false} SomeCounts(ws: map<nat, Waiter>, cs: seq<nat>, max: nat) returns (c: nat)
    requires (forall c :: c in cs ==> c in ws) && 0 < Sum(ws, cs) <= max
    ensures c in cs && 0 < ws[c].request.size <= max
  {
    if ws[cs[0]].request.size > 0 {
      c := cs[0];
    } else {
      c := SomeCounts(ws, cs[1..], max);
    }
  }

  /** A request for nothing is answered at once, so none of them waits. */
  ghost predicate NoneAsksForNothing(w: World) {
    forall c :: c in w.waiters ==> 0 < w.waiters[c].request.size
  }

  lemma HandOutAsks(w: World, c: nat, r: Request)
    requires 0 <= w.q.count && NoneAsksForNothing(w)
    ensures NoneAsksForNothing(FinishBatch(w, c, r))
  {
    var w1 := HandOut(w, c, r);
    assert NoneAsksForNothing(w1);
    assert NoneAsksForNothing(w1.(waiters := WakeWaiters(w1.waiters)));
  }

  lemma EvaluateAsks(w: World, c: nat, r: Request)
    requires Inv(w) && NoneAsksForNothing(w)
    ensures NoneAsksForNothing(Evaluate(w, c, r))
  {
    if r.size <= w.q.count || Decide(w.q, r.size, Until(r), w.now).Finish? {
      HandOutAsks(w, c, r);
    }
  }

  lemma PutAsks(w: World, p: nat, job: PutJob)
    requires NoneAsksForNothing(w) && p < |w.putters|
    ensures NoneAsksForNothing(FinishPut(w, p, job))
  {
  }

  lemma StepAsks(w: World, e: Event)
    requires Inv(w) && NoneAsksForNothing(w)
    ensures NoneAsksForNothing(Step(w, e))
  {
    match e
    case StartPut(p, job) => if p < |w.putters| { PutAsks(w, p, job); }
    case RunPut(p) => if p < |w.putters| && w.putters[p].Woken? { PutAsks(w, p, w.putters[p].job); }
    case StartBatch(c, size, delay) => EvaluateAsks(w, c, Request(size, w.now, delay));
    case StartNoop(c, delay) => EvaluateAsks(w, c, Request(1, w.now, delay));
    case RunWaiter(c) => if c in w.waiters { EvaluateAsks(w, c, w.waiters[c].request); }
    case _ =>
  }

  lemma {:induction false} RunAsks(w: World, es: seq<Event>)
    requires Inv(w) && NoneAsksForNothing(w)
    ensures NoneAsksForNothing(Run(w, es))
    decreases |es|
  {
    if es != [] {
      StepKeeps(w, es[0]);
      StepAsks(w, es[0]);
      RunAsks(Step(w, es[0]), es[1..]);
    }
  }

  /** Progress: as soon as any request for something is answered on a queue that is
      full and has not drifted up to its capacity, the putter is free. */
  lemma {:induction false} AnswerOnFullFrees(w: World, es: seq<Event>, p: nat)
    requires Stuck(w, p) && w.q.count == w.q.capacity.value && w.reused < w.q.capacity.value
    requires AllBlocked(es, p) && Run(w, es).served != w.served
    requires NoneAsksForNothing(w)
    ensures exists n :: 0 <= n <= |es| && Free(Run(w, es[..n]), p)
    decreases |es|
  {
    var w1 := Step(w, es[0]);
    BlockedStep(w, es[0], p);
    PrefixRuns(w, es);
    if w1.spinning {
      SpinForever(w1, es[1..]);
      SpinningServes(w, es[0]);
    } else if Same(w, w1, p) {
      AnswerOnFullFrees(w1, es[1..], p);
      var n :| 0 <= n <= |es[1..]| && Free(Run(w1, es[1..][..n]), p);
      assert Free(Run(w, es[..n + 1]), p);
    } else {
      var c :| c in w.waiters && Answered(w, w1, c);
      AnswerFrees(w, p, c);
      assert es[1..][..0] == [] && Free(Run(w, es[..0 + 1]), p);
    }
  }

  lemma SpinningServes(w: World, e: Event)
    requires Inv(w) && !w.spinning && Step(w, e).spinning
    ensures Step(w, e).served == w.served
  {
    SpinsIff(w, e);
  }

  /** A request with a deadline: once it is over and its timeout fires, the putter
      is free, unless the loop stopped suspending before. */
  lemma DeadlineFrees(w: World, es: seq<Event>, p: nat, c: nat)
    requires Stuck(w, p) && w.q.count == w.q.capacity.value && w.reused < w.q.capacity.value
    requires NoneAsksForNothing(w)
    requires c in w.waiters && Passed(w.waiters[c].request, w.now)
    requires AllBlocked(es, p) && TimeOut(c) in es && CancelWaiter(c) !in es
    ensures Run(w, es).spinning || exists n :: 0 <= n <= |es| && Free(Run(w, es[..n]), p)
  {
    OverdueLeaves(w, es, c, w.waiters[c].request);
    if !Run(w, es).spinning {
      AnswerOnFullFrees(w, es, p);
    }
  }
}
