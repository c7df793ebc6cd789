/** What every run of the pickup queue satisfies, and where its limits are. */
module PickupTheorems {
  import opened Base
  import opened PickupQueue
  import opened PickupSystem

  // ---------------------------------------------------------------- bounds

  /** Backpressure: with k producers the counter never exceeds M + k - 1, and so
      never M for a single one. */
  lemma BackpressureBound(max: nat, producers: nat, es: seq<Event>)
    requires 1 <= max
    ensures Run(Init(Some(max), producers), es).q.count <= max + producers - 1
  {
    InitInv(Some(max), producers);
    RunKeeps(Init(Some(max), producers), es);
    RunShape(Init(Some(max), producers), es);
  }

  /** `w1` is a later moment of the same run as `w`. */
  ghost predicate Later(w: World, w1: World) {
    && w1.q.capacity == w.q.capacity && |w1.putters| == |w.putters|
    && w.reused <= w1.reused && w.now <= w1.now
    && w.delivered <= w1.delivered && w.accepted <= w1.accepted && w.served <= w1.served
  }

  /** The capacity and the number of producers never change, the past only
      grows, and so does the drift. */
  lemma {:induction false} RunShape(w: World, es: seq<Event>)
    ensures Later(w, Run(w, es))
    decreases |es|
  {
    if es != [] {
      StepShape(w, es[0]);
      RunShape(Step(w, es[0]), es[1..]);
    }
  }

  lemma StepShape(w: World, e: Event)
    ensures Later(w, Step(w, e))
  {
    if !w.spinning && 0 <= w.q.count {
      match e
      case StartPut(p, job) => if p < |w.putters| { PutShape(w, p, job); }
      case RunPut(p) => if p < |w.putters| && w.putters[p].Woken? { PutShape(w, p, w.putters[p].job); }
      case CancelPut(p) =>
      case StartBatch(c, size, delay) => EvaluateShape(w, c, Request(size, w.now, delay));
      case StartNoop(c, delay) => EvaluateShape(w, c, Request(1, w.now, delay));
      case LookAtEvent(c) =>
      case RunWaiter(c) =>
        if c in w.waiters { EvaluateShape(w, c, w.waiters[c].request); }
      case TimeOut(c) => if c in w.waiters { BatchShape(w, c, w.waiters[c].request); }
      case CancelWaiter(c) =>
      case Reply =>
      case Tick(d) =>
    }
  }

  lemma PutShape(w: World, p: nat, job: PutJob)
    requires p < |w.putters|
    ensures Later(w, FinishPut(w, p, job))
  {
  }

  lemma BatchShape(w: World, c: nat, r: Request)
    requires 0 <= w.q.count
    ensures Later(w, FinishBatch(w, c, r))
  {
  }

  lemma EvaluateShape(w: World, c: nat, r: Request)
    requires 0 <= w.q.count
    ensures Later(w, Evaluate(w, c, r))
  {
  }

  lemma {:induction false} RunConcat(w: World, es: seq<Event>, fs: seq<Event>)
    ensures Run(w, es + fs) == Run(Run(w, es), fs)
    decreases |es|
  {
    if es == [] {
      assert es + fs == fs;
    } else {
      assert (es + fs)[1..] == es[1..] + fs;
      RunConcat(Step(w, es[0]), es[1..], fs);
    }
  }

  // ------------------------------------------------- the schedule that fills

  const SAME := PutJob(OtherMessage(0), Some("a"), "f")

  function PutsByFirst(n: nat): seq<Event> {
    seq(n, _ => StartPut(0, SAME))
  }

  function StartAll(k: nat): seq<Event> {
    seq(k, i requires 0 <= i < k => StartPut(i, SAME))
  }

  function RunAll(k: nat): seq<Event> {
    seq(k, i requires 0 <= i < k => RunPut(i))
  }

  /** Fill the queue with one id, let every producer go to sleep on it, take one
      entry, and let all of them run. */
  function Saturate(max: nat, producers: nat): seq<Event> {
    PutsByFirst(max) + StartAll(producers) + [StartBatch(0, 1, None)] + RunAll(producers)
  }

  ghost predicate Filling(w: World, max: nat, k: nat, n: nat) {
    && w.q.capacity == Some(max) && |w.putters| == k && w.waiters == map[] && !w.spinning
    && (forall p :: 0 <= p < k ==> w.putters[p].Idle?)
    && w.q.count == n && w.q.ready == (n < max) && w.q.filled == (n > 0)
    && w.q.messages == (if n == 0 then [] else [Entry("a", SAME.message)])
    && w.reused == (if n == 0 then 0 else n - 1)
  }

  lemma FillStep(w: World, max: nat, k: nat, n: nat)
    requires Filling(w, max, k, n) && n < max && 1 <= k
    ensures Filling(Step(w, StartPut(0, SAME)), max, k, n + 1)
  {
    assert Without(w.q.messages, "a") == [];
    assert n > 0 ==> w.q.messages[0].id == "a";
    assert Step(w, StartPut(0, SAME)) == FinishPut(w, 0, SAME);
    assert FinishPut(w, 0, SAME).waiters == map[];
  }

  lemma {:induction false} Fill(w: World, max: nat, k: nat, n: nat)
    requires Filling(w, max, k, n) && n <= max && 1 <= k
    ensures Filling(Run(w, PutsByFirst(max - n)), max, k, max)
    decreases max - n
  {
    if n < max {
      FillStep(w, max, k, n);
      assert PutsByFirst(max - n)[1..] == PutsByFirst(max - n - 1);
      Fill(Step(w, StartPut(0, SAME)), max, k, n + 1);
    }
  }

  ghost predicate Sleeping(w: World, w0: World, done: nat) {
    && w == w0.(putters := w.putters) && |w.putters| == |w0.putters|
    && (forall p :: 0 <= p < |w.putters| ==> w.putters[p] == if p < done then Asleep(SAME) else Idle)
  }

  lemma {:induction false} AllSleep(w: World, w0: World, done: nat)
    requires Sleeping(w, w0, done) && done <= |w0.putters|
    requires !w0.q.ready && !w0.spinning && 0 <= w0.q.count
    ensures Sleeping(Run(w, StartAll(|w0.putters|)[done..]), w0, |w0.putters|)
    decreases |w0.putters| - done
  {
    var evs := StartAll(|w0.putters|);
    if done < |w0.putters| {
      assert evs[done..][1..] == evs[done + 1..];
      AllSleep(Step(w, evs[done]), w0, done + 1);
    }
  }

  ghost predicate Overrun(w: World, max: nat, done: nat) {
    && w.q.capacity == Some(max) && !w.spinning
    && (forall p :: done <= p < |w.putters| ==> w.putters[p] == Woken(SAME))
    && w.q.count == max - 1 + done
    && w.q.messages == (if done == 0 then [] else [Entry("a", SAME.message)])
    && w.reused == max - 1 + (if done == 0 then 0 else done - 1)
  }

  lemma OverrunStep(w: World, max: nat, done: nat)
    requires Overrun(w, max, done) && 1 <= max && done < |w.putters|
    ensures Overrun(Step(w, RunPut(done)), max, done + 1)
    ensures |Step(w, RunPut(done)).putters| == |w.putters|
  {
    assert Without(w.q.messages, "a") == [];
    assert done > 0 ==> w.q.messages[0].id == "a";
    assert Step(w, RunPut(done)) == FinishPut(w, done, SAME);
  }

  lemma {:induction false} AllRun(w: World, max: nat, done: nat)
    requires Overrun(w, max, done) && 1 <= max && done <= |w.putters|
    ensures Overrun(Run(w, RunAll(|w.putters|)[done..]), max, |w.putters|)
    decreases |w.putters| - done
  {
    var evs := RunAll(|w.putters|);
    if done < |w.putters| {
      OverrunStep(w, max, done);
      assert evs[done..][1..] == evs[done + 1..];
      AllRun(Step(w, evs[done]), max, done + 1);
    }
  }

  /** Taking the one entry out wakes every sleeping producer. */
  lemma TakeOne(w1: World, w2: World, max: nat, k: nat)
    requires Filling(w1, max, k, max) && Sleeping(w2, w1, k) && 1 <= max
    ensures Overrun(Step(w2, StartBatch(0, 1, None)), max, 0)
    ensures |Step(w2, StartBatch(0, 1, None)).putters| == k
  {
    var r := Request(1, w2.now, None);
    assert Step(w2, StartBatch(0, 1, None)) == FinishBatch(w2, 0, r);
    assert HandOut(w2, 0, r).q.messages == [];
  }

  /** The bound is sharp, and the same run builds the largest possible drift. */
  lemma BoundReached(max: nat, producers: nat)
    requires 1 <= max && 1 <= producers
    ensures var w := Run(Init(Some(max), producers), Saturate(max, producers));
            w.q.count == max + producers - 1 && w.reused == max + producers - 2 && |w.q.messages| == 1
  {
    var w0 := Init(Some(max), producers);
    Fill(w0, max, producers, 0);
    var w1 := Run(w0, PutsByFirst(max));
    AllSleep(w1, w1, 0);
    assert StartAll(producers)[0..] == StartAll(producers);
    var w2 := Run(w1, StartAll(producers));
    var w3 := Step(w2, StartBatch(0, 1, None));
    TakeOne(w1, w2, max, producers);
    AllRun(w3, max, 0);
    assert RunAll(producers)[0..] == RunAll(producers);
    RunConcat(w0, PutsByFirst(max), StartAll(producers));
    RunConcat(w0, PutsByFirst(max) + StartAll(producers), [StartBatch(0, 1, None)]);
    RunConcat(w0, PutsByFirst(max) + StartAll(producers) + [StartBatch(0, 1, None)], RunAll(producers));
    assert Run(w2, [StartBatch(0, 1, None)]) == w3;
  }

  // ------------------------------------------------------ drift and jamming

  /** Re-used ids can inflate the counter by at most M + k - 2. */
  lemma {:induction false} DriftBound(max: nat, producers: nat, es: seq<Event>)
    requires 1 <= max
    ensures var w := Run(Init(Some(max), producers), es); w.reused <= max + producers - 2 || w.reused == 0
    decreases |es|
  {
    if es != [] {
      var w0 := Init(Some(max), producers);
      var n := |es| - 1;
      DriftBound(max, producers, es[..n]);
      RunConcat(w0, es[..n], es[n..]);
      assert es == es[..n] + es[n..];
      var w := Run(w0, es[..n]);
      assert Run(w, es[n..]) == Step(w, es[n]);
      InitInv(Some(max), producers);
      RunKeeps(w0, es);
      RunShape(w0, es);
      DriftStep(w, es[n]);
    }
  }

  /** Only a put of a live id adds to the drift, and then something is queued. */
  lemma DriftStep(w: World, e: Event)
    ensures Step(w, e).reused == w.reused || |Step(w, e).q.messages| >= 1
  {
  }

  /** The requests that make a queue ready for puts again: one batch for
      everything it counts. */
  ghost function DrainAll(w: World): seq<Event>
    requires 0 <= w.q.count
  {
    if w.q.ready then [] else [StartBatch(UnusedId(w.waiters.Keys), w.q.count, None)]
  }

  lemma DrainRecovers(w: World, max: nat)
    requires Inv(w) && !w.spinning && w.q.capacity == Some(max) && w.reused < max
    ensures Run(w, DrainAll(w)).q.ready
  {
    if !w.q.ready {
      var c := UnusedId(w.waiters.Keys);
      UnusedIsFresh(w.waiters.Keys, c);
      var r := Request(w.q.count, w.now, None);
      assert Step(w, StartBatch(c, w.q.count, None)) == FinishBatch(w, c, r);
      assert Run(w, DrainAll(w)) == FinishBatch(w, c, r);
    }
  }

  lemma JammedStays(w: World, max: nat, es: seq<Event>)
    requires Inv(w) && w.q.capacity == Some(max) && w.reused >= max
    ensures !Run(w, es).q.ready
  {
    RunKeeps(w, es);
    RunShape(w, es);
  }

  /** Jammed: the counter can never fall below the capacity again. A queue can
      still be made ready for puts exactly as long as its drift is below M. */
  lemma RecoverableIff(w: World, max: nat)
    requires Inv(w) && !w.spinning && w.q.capacity == Some(max)
    ensures (exists es :: Run(w, es).q.ready) <==> w.reused < max
  {
    if w.reused < max {
      DrainRecovers(w, max);
    } else {
      forall es ensures !Run(w, es).q.ready {
        JammedStays(w, max, es);
      }
    }
  }

  /** One more than every id in use. */
  ghost function UnusedId(s: set<nat>): nat {
    if s == {} then 0
    else var x :| x in s; var r := UnusedId(s - {x}); if r <= x then x + 1 else r
  }

  lemma {:induction false} UnusedIsFresh(s: set<nat>, c: nat)
    requires c >= UnusedId(s)
    ensures c !in s
  {
    if s != {} {
      var x :| x in s && UnusedId(s) == var r := UnusedId(s - {x}); if r <= x then x + 1 else r;
      UnusedIsFresh(s - {x}, c);
    }
  }

  /** No schedule can jam the queue if and only if there is at most one
      producer. */
  lemma JamFreeIff(max: nat, producers: nat)
    requires 1 <= max
    ensures (forall es :: Run(Init(Some(max), producers), es).reused < max) <==> producers <= 1
  {
    if producers <= 1 {
      forall es ensures Run(Init(Some(max), producers), es).reused < max {
        DriftBound(max, producers, es);
      }
    } else {
      BoundReached(max, producers);
    }
  }

  // ---------------------------------------------------------- no lost wakeup

  /** At every suspension point the events mirror the counter; a sleeping
      consumer means an empty counter, a sleeping putter a full one, so the two
      are never asleep together. */
  lemma NeverBothAsleep(max: nat, producers: nat, es: seq<Event>)
    requires 1 <= max
    ensures var w := Run(Init(Some(max), producers), es);
            && (w.q.filled <==> w.q.count > 0)
            && (w.q.ready <==> w.q.count < max)
            && (forall c :: c in w.waiters && w.waiters[c].phase.Sleeping? ==> w.q.count == 0)
            && (forall p :: 0 <= p < producers && p < |w.putters| && w.putters[p].Asleep? ==> max <= w.q.count)
            && !(exists c, p :: c in w.waiters && w.waiters[c].phase.Sleeping? &&
                   0 <= p < |w.putters| && w.putters[p].Asleep?)
  {
    InitInv(Some(max), producers);
    RunKeeps(Init(Some(max), producers), es);
    RunShape(Init(Some(max), producers), es);
  }

  // ------------------------------------------------------------ FIFO refinement

  /** The dictionary with its counter refines a plain first-in-first-out queue, in
      every run: what was delivered followed by what is queued keeps the order of
      the accepted puts, and it is all of them if and only if no put re-used an id
      that was live. An id may come again once its entry is gone. */
  lemma FifoRefinement(capacity: Option<nat>, producers: nat, es: seq<Event>)
    requires capacity.Some? ==> 1 <= capacity.value
    ensures var w := Run(Init(capacity, producers), es);
            && Subsequence(w.delivered + w.q.messages, w.accepted)
            && (w.delivered + w.q.messages == w.accepted <==> w.reused == 0)
            && (w.reused == 0 ==> w.q.count == |w.q.messages|)
            && (DistinctIds(w.accepted) ==> w.reused == 0)
  {
    InitInv(capacity, producers);
    RunKeeps(Init(capacity, producers), es);
  }

  /** Conservation in every run: the counter is off by exactly the number of
      accepted puts whose id was live, and nothing accepted is unaccounted for. */
  lemma CounterConservation(capacity: Option<nat>, producers: nat, es: seq<Event>)
    requires capacity.Some? ==> 1 <= capacity.value
    ensures var w := Run(Init(capacity, producers), es);
            && w.q.count == |w.q.messages| + w.reused
            && |w.accepted| == |w.delivered| + |w.q.messages| + w.reused
            && DistinctIds(w.q.messages)
            && (capacity == Some(1) && producers <= 1 ==> w.reused == 0)
  {
    InitInv(capacity, producers);
    RunKeeps(Init(capacity, producers), es);
    if capacity == Some(1) && producers <= 1 {
      DriftBound(1, producers, es);
    }
  }
}
