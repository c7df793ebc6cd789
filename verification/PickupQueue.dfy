/** The bounded message queue behind the Pickup protocol (Aries RFC 0212).

    `Queue` is the queue as a value: the pending entries in order, the separate
    counter, and the two asyncio events reduced to their flags. The functions on
    it say what one uninterrupted stretch of the program does. The class
    `PickUpStateMachine` is the program's own form, an ordered dictionary next
    to a counter that is updated in place, and each method is proved to do
    exactly what the function on its abstract value says. */
module PickupQueue {
  import opened Base

  type MsgId = string

  /** What `json.loads` makes of a text message. */
  datatype Parsed = NotJson | JsonObject(id: Option<MsgId>) | JsonOther

  datatype Message =
    | DictMessage(id: Option<MsgId>, body: int)
    | TextMessage(parsed: Parsed, body: int)
    | OtherMessage(body: int)

  datatype Entry = Entry(id: MsgId, message: Message)

  /** One call of `put`: the message, the optional explicit id, and the id that
      uuid4 would hand out. */
  datatype PutJob = PutJob(message: Message, explicitId: Option<MsgId>, freshId: MsgId)

  datatype Queue = Queue(messages: seq<Entry>, count: int, filled: bool, ready: bool, capacity: Option<nat>)

  /** The id under which a message is stored; None when reading it raises. A
      dictionary or a JSON object overrides the explicit id even when it has
      none of its own, and an empty id counts as missing. */
  function ChosenId(job: PutJob): (id: Option<MsgId>) {
    var own: Option<Option<MsgId>> := match job.message
      case DictMessage(id, _) => Some(id)
      case TextMessage(NotJson, _) => Some(None)
      case TextMessage(JsonObject(id), _) => Some(id)
      case TextMessage(JsonOther, _) => None
      case OtherMessage(_) => Some(job.explicitId);
    match own
    case None => None
    case Some(None) => Some(job.freshId)
    case Some(Some(s)) => Some(if s == "" then job.freshId else s)
  }

  predicate HasId(es: seq<Entry>, id: MsgId) {
    exists i :: 0 <= i < |es| && es[i].id == id
  }

  predicate DistinctIds(es: seq<Entry>) {
    forall i, j :: 0 <= i < j < |es| ==> es[i].id != es[j].id
  }

  /** The entries with the one stored under `id` removed. */
  function Without(es: seq<Entry>, id: MsgId): seq<Entry> {
    if es == [] then []
    else if es[0].id == id then Without(es[1..], id)
    else [es[0]] + Without(es[1..], id)
  }

  lemma {:induction false} WithoutFacts(es: seq<Entry>, id: MsgId)
    ensures !HasId(Without(es, id), id)
    ensures forall x :: HasId(Without(es, id), x) ==> HasId(es, x)
    ensures !HasId(es, id) ==> Without(es, id) == es
  {
    if es != [] {
      WithoutFacts(es[1..], id);
      TailIds(es);
      if es[0].id != id {
        var r := Without(es, id);
        assert r[1..] == Without(es[1..], id);
        TailIds(r);
      }
    }
  }

  lemma {:induction false} WithoutDistinct(es: seq<Entry>, id: MsgId)
    requires DistinctIds(es)
    ensures DistinctIds(Without(es, id))
    ensures |Without(es, id)| == |es| - (if HasId(es, id) then 1 else 0)
  {
    if es != [] {
      TailIds(es);
      TailDistinct(es);
      WithoutDistinct(es[1..], id);
      WithoutFacts(es[1..], id);
      if es[0].id != id {
        var r := Without(es, id);
        assert r[1..] == Without(es[1..], id);
        TailDistinct(r);
      }
    }
  }

  lemma TailDistinct(es: seq<Entry>)
    requires es != []
    ensures DistinctIds(es) <==> !HasId(es[1..], es[0].id) && DistinctIds(es[1..])
  {
  }

  lemma TailIds(es: seq<Entry>)
    requires es != []
    ensures forall x :: HasId(es, x) <==> x == es[0].id || HasId(es[1..], x)
  {
  }

  /** The readiness rule that both `put` and `__prepare_response` end with. */
  function Readiness(q: Queue): bool {
    match q.capacity
    case None => q.ready
    case Some(max) => q.count < max
  }

  /** The rest of `put` once its wait is over. */
  function PutEntry(q: Queue, e: Entry): Queue {
    var q1 := q.(messages := Without(q.messages, e.id) + [e], count := q.count + 1, filled := true);
    q1.(ready := Readiness(q1))
  }

  /** `__prepare_response`, reached at the end of every request. */
  function Prepare(q: Queue): Queue {
    q.(filled := q.filled && q.count != 0, ready := Readiness(q))
  }

  /** How many entries a batch of the given size takes out. */
  function BatchLength(q: Queue, size: nat): nat
    requires 0 <= q.count
  {
    Min(Min(size, q.count), |q.messages|)
  }

  function TakeBatch(q: Queue, size: nat): Queue
    requires 0 <= q.count
  {
    var n := BatchLength(q, size);
    q.(messages := q.messages[n..], count := q.count - n)
  }

  /** The items a list request returns: one per requested id that is queued. */
  function Listed(es: seq<Entry>, ids: seq<MsgId>): seq<Entry> {
    if ids == [] then []
    else Find(es, ids[0]) + Listed(es, ids[1..])
  }

  function Find(es: seq<Entry>, id: MsgId): seq<Entry> {
    if es == [] then []
    else if es[0].id == id then [es[0]]
    else Find(es[1..], id)
  }

  /** How many of the first `i` requested ids are queued. */
  ghost function QueuedBefore(es: seq<Entry>, ids: seq<MsgId>, i: nat): (n: nat)
    requires i <= |ids|
  {
    if i == 0 then 0 else QueuedBefore(es, ids, i - 1) + if HasId(es, ids[i - 1]) then 1 else 0
  }

  /** The k-th requested id that is queued: its entry is the k-th of the answer. */
  ghost predicate ListedAt(es: seq<Entry>, ids: seq<MsgId>, i: nat, found: seq<Entry>) {
    i < |ids| && HasId(es, ids[i]) ==>
      var k := QueuedBefore(es, ids, i);
      k < |found| && found[k] in es && found[k].id == ids[i]
  }

  /** The answer to a list request: complete, in the order asked, and nothing else. */
  ghost predicate AnswersList(es: seq<Entry>, ids: seq<MsgId>, found: seq<Entry>) {
    && |found| == QueuedBefore(es, ids, |ids|)
    && forall i: nat :: ListedAt(es, ids, i, found)
  }

  lemma {:induction false} QueuedBehind(es: seq<Entry>, ids: seq<MsgId>, i: nat)
    requires i < |ids|
    ensures QueuedBefore(es, ids, i + 1) == QueuedBefore(es, ids[1..], i) + if HasId(es, ids[0]) then 1 else 0
  {
    if i > 0 {
      QueuedBehind(es, ids, i - 1);
      assert ids[1..][i - 1] == ids[i];
    }
  }

  lemma FindIs(es: seq<Entry>, id: MsgId)
    requires DistinctIds(es)
    ensures if HasId(es, id) then |Find(es, id)| == 1 && Find(es, id)[0] in es && Find(es, id)[0].id == id
            else Find(es, id) == []
  {
    if i :| 0 <= i < |es| && es[i].id == id {
      FindAt(es, i);
    } else {
      FindNothing(es, id);
    }
  }

  lemma {:induction false} ListedExact(es: seq<Entry>, ids: seq<MsgId>)
    requires DistinctIds(es)
    ensures AnswersList(es, ids, Listed(es, ids))
  {
    if ids != [] {
      var rest := Listed(es, ids[1..]);
      ListedExact(es, ids[1..]);
      FindIs(es, ids[0]);
      QueuedBehind(es, ids, |ids| - 1);
      forall i: nat ensures ListedAt(es, ids, i, Listed(es, ids)) {
        if 0 < i < |ids| && HasId(es, ids[i]) {
          QueuedBehind(es, ids, i - 1);
          assert ListedAt(es, ids[1..], i - 1, rest) && ids[1..][i - 1] == ids[i];
        }
      }
    }
  }

  /** What one evaluation of the batch wait loop decides to do. */
  datatype Decision = Finish | WaitUntil(deadline: int) | WaitForever

  function Decide(q: Queue, size: nat, until: Option<int>, now: int): Decision {
    if size <= q.count then Finish
    else match until
      case None => WaitForever
      case Some(u) => if now < u then WaitUntil(u) else Finish
  }

  /** `until_stamp`: a negative delay counts as none. */
  function Deadline(delay: Option<int>, now: int): Option<int> {
    match delay
    case None => None
    case Some(d) => if d >= 0 then Some(now + d) else None
  }

  ghost predicate DistinctKeys(keys: seq<MsgId>) {
    forall i, j :: 0 <= i < j < |keys| ==> keys[i] != keys[j]
  }

  /** The ordered dictionary (`keys` in order, `items` by key) holds exactly the
      entries `es`. */
  ghost predicate Holds(keys: seq<MsgId>, items: map<MsgId, Message>, es: seq<Entry>) {
    && (forall k :: k in keys <==> k in items)
    && DistinctKeys(keys)
    && |es| == |keys|
    && (forall i :: 0 <= i < |keys| ==> es[i] == Entry(keys[i], items[keys[i]]))
  }

  /** The queue as the program keeps it. */
  class PickUpStateMachine {
    var order: seq<MsgId>          // the keys of the ordered dictionary, in order
    var items: map<MsgId, Message> // its values
    var messageCount: int
    var filled: bool
    var readyToPut: bool
    const maxQueueSize: Option<nat>
    ghost var entries: seq<Entry>

    ghost predicate Valid()
      reads this
    {
      Holds(order, items, entries) && |order| <= messageCount
    }

    /** The queue as a value. */
    ghost function View(): (q: Queue)
      reads this
    {
      Queue(entries, messageCount, filled, readyToPut, maxQueueSize)
    }

    constructor (max: Option<nat>)
      ensures Valid()
      ensures View() == Queue([], 0, false, true, max)
    {
      order, items, entries := [], map[], [];
      messageCount := 0;
      filled, readyToPut := false, true;
      maxQueueSize := max;
    }

    method UpdateReadiness()
      modifies this`readyToPut
      ensures View() == old(View()).(ready := Readiness(old(View())))
    {
      if maxQueueSize.Some? {
        if messageCount < maxQueueSize.value {
          readyToPut := true;
        } else {
          readyToPut := false;
        }
      }
    }

    /** Everything `put` does after its wait; a message whose id cannot be read
        leaves the queue untouched. */
    method CompletePut(job: PutJob) returns (accepted: bool)
      requires Valid()
      modifies this
      ensures Valid()
      ensures accepted <==> ChosenId(job).Some?
      ensures accepted ==> View() == PutEntry(old(View()), Entry(ChosenId(job).value, job.message))
      ensures !accepted ==> View() == old(View())
    {
      var chosen := ChosenId(job);
      if chosen.None? {
        return false;
      }
      var id := chosen.value;
      order, items := StoreLast(order, items, id, job.message, entries);
      entries := Without(entries, id) + [Entry(id, job.message)];
      messageCount := messageCount + 1;
      filled := true;
      UpdateReadiness();
      accepted := true;
    }

    /** A batch's removal loop: takes the oldest entries out one by one. */
    method TakeFront(size: nat) returns (taken: seq<Entry>)
      requires Valid()
      modifies this`order, this`items, this`messageCount, this`entries
      ensures Valid()
      ensures View() == TakeBatch(old(View()), size)
      ensures taken == old(View()).messages[..BatchLength(old(View()), size)]
    {
      var n := Min(Min(size, messageCount), |order|);
      taken, order, items := RemoveKeys(order, items, n, entries);
      entries := entries[n..];
      messageCount := messageCount - n;
    }

    method PrepareResponse()
      modifies this`filled, this`readyToPut
      ensures View() == Prepare(old(View()))
    {
      if messageCount == 0 {
        filled := false;
      }
      UpdateReadiness();
    }

    /** A batch request once its wait loop is over. */
    method FinishBatch(size: nat) returns (taken: seq<Entry>)
      requires Valid()
      modifies this
      ensures Valid()
      ensures View() == Prepare(TakeBatch(old(View()), size))
      ensures taken == old(View()).messages[..BatchLength(old(View()), size)]
    {
      taken := TakeFront(size);
      PrepareResponse();
    }

    /** A list request: reads entries without removing them. */
    method ListPickup(ids: seq<MsgId>) returns (found: seq<Entry>)
      requires Valid()
      modifies this`filled, this`readyToPut
      ensures Valid()
      ensures found == Listed(old(View()).messages, ids)
      ensures AnswersList(old(View()).messages, ids, found)
      ensures View() == Prepare(old(View()))
    {
      HeldDistinct(order, items, entries);
      ListedExact(entries, ids);
      found := Lookup(order, items, ids, entries);
      PrepareResponse();
    }
  }

  /** The list request's loop over the requested ids. */
  method Lookup(keys: seq<MsgId>, items: map<MsgId, Message>, ids: seq<MsgId>, ghost es: seq<Entry>)
    returns (found: seq<Entry>)
    requires Holds(keys, items, es)
    ensures found == Listed(es, ids)
  {
    found := [];
    for i := 0 to |ids|
      invariant found + Listed(es, ids[i..]) == Listed(es, ids)
    {
      assert ids[i..][1..] == ids[i + 1..];
      LookupIsFind(keys, items, es, ids[i]);
      if ids[i] in items {
        found := found + [Entry(ids[i], items[ids[i]])];
      }
    }
  }

  lemma HeldDistinct(keys: seq<MsgId>, items: map<MsgId, Message>, es: seq<Entry>)
    requires Holds(keys, items, es)
    ensures DistinctIds(es)
  {
  }

  lemma HeldIds(keys: seq<MsgId>, items: map<MsgId, Message>, es: seq<Entry>, id: MsgId)
    requires Holds(keys, items, es)
    ensures HasId(es, id) <==> id in items
    ensures DistinctIds(es)
  {
  }

  /** Looking a key up in the dictionary is finding its entry. */
  lemma LookupIsFind(keys: seq<MsgId>, items: map<MsgId, Message>, es: seq<Entry>, id: MsgId)
    requires Holds(keys, items, es)
    ensures Find(es, id) == if id in items then [Entry(id, items[id])] else []
  {
    HeldIds(keys, items, es, id);
    if id in items {
      var j :| 0 <= j < |keys| && keys[j] == id;
      FindAt(es, j);
    } else {
      FindNothing(es, id);
    }
  }

  /** The key list without `id`, found by a scan. */
  method RemoveKey(keys: seq<MsgId>, items: map<MsgId, Message>, id: MsgId, ghost es: seq<Entry>)
    returns (rest: seq<MsgId>)
    requires Holds(keys, items, es)
    ensures Holds(rest, items - {id}, Without(es, id))
    ensures |rest| <= |keys|
  {
    HeldIds(keys, items, es, id);
    if id !in items {
      WithoutFacts(es, id);
      assert items - {id} == items;
      return keys;
    }
    var i := 0;
    while keys[i] != id
      invariant 0 <= i < |keys|
      invariant id in keys[i..]
      decreases |keys| - i
    {
      i := i + 1;
    }
    rest := keys[..i] + keys[i + 1..];
    WithoutAt(es, i);
    DropAt(keys, items, es, i);
  }

  /** The assignment to the key and the `move_to_end` after it. */
  method StoreLast(keys: seq<MsgId>, items: map<MsgId, Message>, id: MsgId, message: Message, ghost es: seq<Entry>)
    returns (keysNow: seq<MsgId>, itemsNow: map<MsgId, Message>)
    requires Holds(keys, items, es)
    ensures Holds(keysNow, itemsNow, Without(es, id) + [Entry(id, message)])
    ensures |keysNow| <= |keys| + 1
  {
    var rest := RemoveKey(keys, items, id, es);
    AppendKey(rest, items, id, message, Without(es, id));
    keysNow, itemsNow := rest + [id], items[id := message];
  }

  /** The removal loop itself: moves the first `n` entries out. */
  method RemoveKeys(keys: seq<MsgId>, items: map<MsgId, Message>, n: nat, ghost es: seq<Entry>)
    returns (taken: seq<Entry>, keysLeft: seq<MsgId>, itemsLeft: map<MsgId, Message>)
    requires Holds(keys, items, es) && n <= |keys|
    ensures Holds(keysLeft, itemsLeft, es[n..])
    ensures taken == es[..n]
  {
    taken, keysLeft, itemsLeft := [], keys, items;
    for i := 0 to n
      invariant Holds(keysLeft, itemsLeft, es[i..])
      invariant taken == es[..i]
    {
      var id := keysLeft[0];
      DropFirst(keysLeft, itemsLeft, es[i..]);
      assert es[i..][1..] == es[i + 1..] && es[i..][0] == es[i];
      taken := taken + [Entry(id, itemsLeft[id])];
      keysLeft, itemsLeft := keysLeft[1..], itemsLeft - {id};
    }
  }

  lemma DropAt(keys: seq<MsgId>, items: map<MsgId, Message>, es: seq<Entry>, i: nat)
    requires Holds(keys, items, es) && i < |keys|
    ensures Holds(keys[..i] + keys[i + 1..], items - {keys[i]}, es[..i] + es[i + 1..])
  {
  }

  /** Deleting the first key of the dictionary drops the first entry. */
  lemma DropFirst(keys: seq<MsgId>, items: map<MsgId, Message>, es: seq<Entry>)
    requires Holds(keys, items, es) && keys != []
    ensures Holds(keys[1..], items - {keys[0]}, es[1..])
  {
  }

  lemma AppendKey(keys: seq<MsgId>, items: map<MsgId, Message>, id: MsgId, message: Message, es: seq<Entry>)
    requires Holds(keys, items - {id}, es)
    ensures Holds(keys + [id], items[id := message], es + [Entry(id, message)])
  {
    assert id !in keys;
    assert forall k :: k in keys ==> k in items[id := message] && items[id := message][k] == items[k];
  }

  lemma {:induction false} WithoutAt(es: seq<Entry>, i: nat)
    requires i < |es| && DistinctIds(es)
    ensures Without(es, es[i].id) == es[..i] + es[i + 1..]
  {
    TailDistinct(es);
    if i == 0 {
      WithoutFacts(es[1..], es[0].id);
    } else {
      WithoutAt(es[1..], i - 1);
      assert es[..i] + es[i + 1..] == [es[0]] + (es[1..][..i - 1] + es[1..][i..]);
    }
  }

  lemma {:induction false} FindAt(es: seq<Entry>, j: nat)
    requires j < |es| && DistinctIds(es)
    ensures Find(es, es[j].id) == [es[j]]
  {
    if j > 0 {
      FindAt(es[1..], j - 1);
    }
  }

  lemma {:induction false} FindNothing(es: seq<Entry>, id: MsgId)
    requires !HasId(es, id)
    ensures Find(es, id) == []
  {
    if es != [] {
      TailIds(es);
      FindNothing(es[1..], id);
    }
  }
}
