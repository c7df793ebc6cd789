/** What becomes of a `put`: under which id its message is stored, where, and that
    it is not lost while it waits. */
module PickupPuts {
  import opened Base
  import opened PickupQueue
  import opened PickupSystem
  import opened PickupTheorems

  /** Reading the message's id raises: a JSON text that is no object. */
  predicate Unreadable(job: PutJob) {
    job.message.TextMessage? && job.message.parsed.JsonOther?
  }

  /** The message's own id, if it is of a kind that can have one. */
  predicate HasOwnId(m: Message, id: MsgId) {
    id != "" && ((m.DictMessage? && m.id == Some(id)) || (m.TextMessage? && m.parsed == JsonObject(Some(id))))
  }

  /** The id a message belongs under: its own; else, for anything but a dictionary or
      a text, the one `put` was given; else a fresh one. */
  ghost predicate BelongsUnder(job: PutJob, id: MsgId) {
    || HasOwnId(job.message, id)
    || (job.message.OtherMessage? && job.explicitId == Some(id) && id != "")
    || (id == job.freshId && !Unreadable(job) && (forall own :: !HasOwnId(job.message, own))
        && (job.message.OtherMessage? ==> job.explicitId.GetOr("") == ""))
  }

  /** The entries with `e` at the end, in the place of an entry with its id if there
      was one; all others stay where they were. */
  ghost predicate Appended(before: seq<Entry>, e: Entry, after: seq<Entry>) {
    if HasId(before, e.id) then
      exists i :: 0 <= i < |before| && before[i].id == e.id && after == before[..i] + before[i + 1..] + [e]
    else after == before + [e]
  }

  /** Putter `p` can run with this job now: it starts on a queue that is ready, or it
      was woken. */
  ghost predicate CanRun(w: World, p: nat, job: PutJob) {
    p < |w.putters| && ((w.putters[p].Idle? && w.q.ready) || w.putters[p] == Woken(job))
  }

  function Running(w: World, p: nat, job: PutJob): Event
    requires p < |w.putters|
  {
    if w.putters[p].Idle? then StartPut(p, job) else RunPut(p)
  }

  /** The entry was accepted as the next one and is the newest in the queue. */
  ghost predicate Stored(w: World, w1: World, p: nat, e: Entry) {
    && p < |w1.putters| && w1.putters[p] == Idle
    && w1.accepted == w.accepted + [e] && Appended(w.q.messages, e, w1.q.messages)
    && w1.q.count == w.q.count + 1 && w1.delivered == w.delivered && w1.served == w.served
  }

  lemma BelongsUnderOne(job: PutJob, id: MsgId)
    ensures BelongsUnder(job, id) <==> ChosenId(job) == Some(id)
    ensures ChosenId(job).None? <==> Unreadable(job)
  {
    match job.message
    case DictMessage(Some(own), _) => if own != "" { assert HasOwnId(job.message, own); }
    case TextMessage(JsonObject(Some(own)), _) => if own != "" { assert HasOwnId(job.message, own); }
    case _ =>
  }

  lemma AppendedByPut(q: Queue, e: Entry)
    requires DistinctIds(q.messages)
    ensures Appended(q.messages, e, PutEntry(q, e).messages)
  {
    if i :| 0 <= i < |q.messages| && q.messages[i].id == e.id {
      WithoutAt(q.messages, i);
    } else {
      WithoutFacts(q.messages, e.id);
    }
  }

  /** A put that runs stores its message under the id it belongs under, behind all
      others; or nothing at all if the id cannot be read. */
  lemma PutIsStored(w: World, p: nat, job: PutJob)
    requires Inv(w) && !w.spinning && CanRun(w, p, job)
    ensures var w1 := Step(w, Running(w, p, job));
            if Unreadable(job) then w1 == w.(putters := w.putters[p := Idle])
            else exists id :: BelongsUnder(job, id) && Stored(w, w1, p, Entry(id, job.message))
  {
    if Unreadable(job) {
      BelongsUnderOne(job, "");
    } else {
      BelongsUnderOne(job, "");
      var id := ChosenId(job).value;
      BelongsUnderOne(job, id);
      AppendedByPut(w.q, Entry(id, job.message));
      assert Stored(w, Step(w, Running(w, p, job)), p, Entry(id, job.message));
    }
  }

  ghost predicate Carries(w: World, p: nat, job: PutJob) {
    p < |w.putters| && (w.putters[p] == Asleep(job) || w.putters[p] == Woken(job))
  }

  /** A message of this put was accepted after the first `n` ones. */
  ghost predicate WentThrough(accepted: seq<Entry>, n: nat, job: PutJob) {
    exists k, id :: n <= k < |accepted| && accepted[k] == Entry(id, job.message) && BelongsUnder(job, id)
  }

  lemma PutCarries(w: World, q: nat, other: PutJob, p: nat, job: PutJob)
    requires Carries(w, p, job) && q < |w.putters| && q != p
    ensures Carries(FinishPut(w, q, other), p, job)
  {
  }

  lemma SignalCarries(w: World, p: nat, job: PutJob)
    requires Carries(w, p, job)
    ensures Carries(Signal(w), p, job)
  {
  }

  lemma EvaluateCarries(w: World, c: nat, r: Request, p: nat, job: PutJob)
    requires Carries(w, p, job) && 0 <= w.q.count
    ensures Carries(Evaluate(w, c, r), p, job) && Carries(FinishBatch(w, c, r), p, job)
  {
    SignalCarries(HandOut(w, c, r), p, job);
  }

  lemma ReplyCarries(w: World, p: nat, job: PutJob)
    requires Carries(w, p, job)
    ensures Carries(FinishReply(w), p, job)
  {
    SignalCarries(w.(q := Prepare(w.q)), p, job);
  }

  lemma AnswerCarries(w: World, e: Event, p: nat, job: PutJob)
    requires Carries(w, p, job) && !w.spinning && 0 <= w.q.count
    requires e.StartBatch? || e.StartNoop? || e.RunWaiter? || e.TimeOut? || e.Reply?
    ensures Carries(Step(w, e), p, job)
  {
    match e
    case StartBatch(c, size, delay) => EvaluateCarries(w, c, Request(size, w.now, delay), p, job);
    case StartNoop(c, delay) =>
      EvaluateCarries(w, c, Request(1, w.now, delay), p, job);
      ReplyCarries(w, p, job);
    case RunWaiter(c) => if c in w.waiters { EvaluateCarries(w, c, w.waiters[c].request, p, job); }
    case TimeOut(c) => if c in w.waiters { EvaluateCarries(w, c, w.waiters[c].request, p, job); }
    case Reply => ReplyCarries(w, p, job);
  }

  /** No one else takes the job from a putter that waits. */
  lemma OthersLeaveJob(w: World, e: Event, p: nat, job: PutJob)
    requires Carries(w, p, job) && e != RunPut(p) && e != CancelPut(p)
    ensures Carries(Step(w, e), p, job)
  {
    if !w.spinning && 0 <= w.q.count {
      match e
      case StartPut(q, other) => if q < |w.putters| && q != p { PutCarries(w, q, other, p, job); }
      case RunPut(q) => if q < |w.putters| && w.putters[q].Woken? { PutCarries(w, q, w.putters[q].job, p, job); }
      case CancelPut(_) =>
      case LookAtEvent(_) =>
      case CancelWaiter(_) =>
      case Tick(_) =>
      case _ => AnswerCarries(w, e, p, job);
    }
  }

  /** After the event the put still waits with its message, or it went through. */
  lemma JobStep(w: World, e: Event, p: nat, job: PutJob)
    requires Inv(w) && Carries(w, p, job) && e != CancelPut(p) && !Unreadable(job)
    ensures Carries(Step(w, e), p, job) || WentThrough(Step(w, e).accepted, |w.accepted|, job)
  {
    if e != RunPut(p) {
      OthersLeaveJob(w, e, p, job);
    } else if !w.spinning && w.putters[p].Woken? {
      PutIsStored(w, p, job);
      var id :| BelongsUnder(job, id) && Stored(w, Step(w, e), p, Entry(id, job.message));
      assert Step(w, e).accepted[|w.accepted|] == Entry(id, job.message);
    }
  }

  lemma WentThroughLater(accepted: seq<Entry>, more: seq<Entry>, n: nat, m: nat, job: PutJob)
    requires accepted <= more && n <= m && WentThrough(accepted, m, job)
    ensures WentThrough(more, n, job)
  {
    var k, id :| m <= k < |accepted| && accepted[k] == Entry(id, job.message) && BelongsUnder(job, id);
    assert more[k] == Entry(id, job.message);
  }

  lemma {:induction false} JobRun(w: World, es: seq<Event>, p: nat, job: PutJob)
    requires Inv(w) && Carries(w, p, job) && CancelPut(p) !in es && !Unreadable(job)
    ensures Carries(Run(w, es), p, job) || WentThrough(Run(w, es).accepted, |w.accepted|, job)
    decreases |es|
  {
    if es != [] {
      var w1 := Step(w, es[0]);
      StepKeeps(w, es[0]);
      StepShape(w, es[0]);
      JobStep(w, es[0], p, job);
      RunShape(w1, es[1..]);
      if Carries(w1, p, job) {
        JobRun(w1, es[1..], p, job);
        if WentThrough(Run(w, es).accepted, |w1.accepted|, job) {
          WentThroughLater(Run(w, es).accepted, Run(w, es).accepted, |w.accepted|, |w1.accepted|, job);
        }
      } else {
        WentThroughLater(w1.accepted, Run(w, es).accepted, |w.accepted|, |w.accepted|, job);
      }
    }
  }

  predicate StartsPut(e: Event, p: nat) {
    e.StartPut? && e.p == p
  }

  lemma IdleStays(w: World, e: Event, p: nat)
    requires p < |w.putters| && w.putters[p].Idle? && !StartsPut(e, p)
    ensures p < |Step(w, e).putters| && Step(w, e).putters[p].Idle?
  {
    if !w.spinning && 0 <= w.q.count {
      match e
      case StartPut(q, job) => if q < |w.putters| { IdleAfterPut(w, q, job, p); }
      case RunPut(q) => if q < |w.putters| && w.putters[q].Woken? { IdleAfterPut(w, q, w.putters[q].job, p); }
      case CancelPut(_) =>
      case LookAtEvent(_) =>
      case CancelWaiter(_) =>
      case Tick(_) =>
      case _ => IdleAfterAnswer(w, e, p);
    }
  }

  lemma IdleAfterAnswer(w: World, e: Event, p: nat)
    requires p < |w.putters| && w.putters[p].Idle? && !w.spinning && 0 <= w.q.count
    requires e.StartBatch? || e.StartNoop? || e.RunWaiter? || e.TimeOut? || e.Reply?
    ensures p < |Step(w, e).putters| && Step(w, e).putters[p].Idle?
  {
    match e
    case StartBatch(c, size, delay) => IdleAfterRequest(w, c, Request(size, w.now, delay), p);
    case StartNoop(c, delay) =>
      IdleAfterRequest(w, c, Request(1, w.now, delay), p);
      IdleAfterReply(w, p);
    case RunWaiter(c) => if c in w.waiters { IdleAfterRequest(w, c, w.waiters[c].request, p); }
    case TimeOut(c) => if c in w.waiters { IdleAfterRequest(w, c, w.waiters[c].request, p); }
    case Reply => IdleAfterReply(w, p);
  }

  lemma IdleAfterPut(w: World, q: nat, job: PutJob, p: nat)
    requires p < |w.putters| && w.putters[p].Idle? && q < |w.putters|
    ensures var w1 := FinishPut(w, q, job); p < |w1.putters| && w1.putters[p].Idle?
  {
  }

  lemma IdleAfterRequest(w: World, c: nat, r: Request, p: nat)
    requires p < |w.putters| && w.putters[p].Idle? && 0 <= w.q.count
    ensures var w1 := Evaluate(w, c, r); p < |w1.putters| && w1.putters[p].Idle?
    ensures var w1 := FinishBatch(w, c, r); p < |w1.putters| && w1.putters[p].Idle?
  {
  }

  lemma IdleAfterReply(w: World, p: nat)
    requires p < |w.putters| && w.putters[p].Idle?
    ensures var w1 := FinishReply(w); p < |w1.putters| && w1.putters[p].Idle?
  {
  }

  /** A put that is cancelled while it waits stores nothing, then or ever: its putter
      is idle until it starts another. */
  lemma CancelledPutIsOver(w: World, p: nat, es: seq<Event>)
    requires Inv(w) && !w.spinning && p < |w.putters| && forall i :: 0 <= i < |es| ==> !StartsPut(es[i], p)
    ensures Step(w, CancelPut(p)).accepted == w.accepted && Step(w, CancelPut(p)).q == w.q
    ensures var w2 := Run(Step(w, CancelPut(p)), es); p < |w2.putters| && w2.putters[p].Idle?
  {
    IdleRun(Step(w, CancelPut(p)), p, es);
  }

  lemma {:induction false} IdleRun(w: World, p: nat, es: seq<Event>)
    requires p < |w.putters| && w.putters[p].Idle? && forall i :: 0 <= i < |es| ==> !StartsPut(es[i], p)
    ensures p < |Run(w, es).putters| && Run(w, es).putters[p].Idle?
    decreases |es|
  {
    if es != [] {
      IdleStays(w, es[0], p);
      IdleRun(Step(w, es[0]), p, es[1..]);
    }
  }

  /** No put is lost: from its start on, whatever else happens, it waits with its
      message or the message was accepted, unless the put is cancelled. */
  lemma PutNeverLost(w: World, p: nat, job: PutJob, es: seq<Event>)
    requires Inv(w) && !w.spinning && p < |w.putters| && w.putters[p].Idle? && !Unreadable(job)
    requires CancelPut(p) !in es
    ensures var w2 := Run(Step(w, StartPut(p, job)), es);
            Carries(w2, p, job) || WentThrough(w2.accepted, |w.accepted|, job)
  {
    var w1 := Step(w, StartPut(p, job));
    StepKeeps(w, StartPut(p, job));
    StepShape(w, StartPut(p, job));
    if w.q.ready {
      PutIsStored(w, p, job);
      var id :| BelongsUnder(job, id) && Stored(w, w1, p, Entry(id, job.message));
      assert w1.accepted[|w.accepted|] == Entry(id, job.message);
      RunShape(w1, es);
      WentThroughLater(w1.accepted, Run(w1, es).accepted, |w.accepted|, |w.accepted|, job);
    } else {
      JobRun(w1, es, p, job);
      if WentThrough(Run(w1, es).accepted, |w1.accepted|, job) {
        WentThroughLater(Run(w1, es).accepted, Run(w1, es).accepted, |w.accepted|, |w1.accepted|, job);
      }
    }
  }
}
