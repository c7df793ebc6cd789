/** The loop that serves one endpoint's stream: `endpoint_processor` and long
    polling over `RedisPull.Listener`. */
module EndpointListener {
  import opened Base
  import opened Packets

  /** How one read of the group reader ends for the listener. */
  datatype Read = Got(payload: Payload) | NotOk | Failed

  datatype Action = HandedOn(id: nat, message: int) | Acked(id: nat, reverse: Address)

  /** The listener's actions for a sequence of results: foreign payloads are
      skipped, and the first read that is not ok or fails ends the loop. */
  function Served(results: seq<Read>): seq<Action> {
    if results == [] then []
    else match results[0]
      case Got(Push(id, reverse, message)) => [HandedOn(id, message), Acked(id, reverse)] + Served(results[1..])
      case Got(OtherPayload(_)) => Served(results[1..])
      case NotOk => []
      case Failed => []
  }

  predicate IsPush(read: Read) {
    read.Got? && read.payload.Push?
  }

  /** The listener reads `n` results: all of them, or those before the first that is
      not ok or fails. */
  ghost predicate ReadsUpTo(results: seq<Read>, n: nat) {
    n <= |results| && (forall i :: 0 <= i < n ==> results[i].Got?) && (n < |results| ==> !results[n].Got?)
  }

  /** How many of the first `i` results are push messages. */
  function PushesBefore(results: seq<Read>, i: nat): (n: nat)
    requires i <= |results|
  {
    if i == 0 then 0 else PushesBefore(results, i - 1) + if IsPush(results[i - 1]) then 1 else 0
  }

  /** The k-th push message, at position `i`: it is handed on as the action 2k, and
      then an ack of its id goes to its own reverse address. */
  ghost predicate ServedAt(results: seq<Read>, i: nat, actions: seq<Action>) {
    i < |results| && IsPush(results[i]) ==>
      var (k, request) := (PushesBefore(results, i), results[i].payload);
      && 2 * k + 1 < |actions|
      && actions[2 * k] == HandedOn(request.id, request.message)
      && actions[2 * k + 1] == Acked(request.id, request.reverse)
  }

  /** Every push message among the first `n` results is served, once and in stream
      order, and nothing else is done. */
  ghost predicate ServesAll(results: seq<Read>, n: nat, actions: seq<Action>) {
    && ReadsUpTo(results, n)
    && |actions| == 2 * PushesBefore(results, n)
    && forall i: nat :: i < n ==> ServedAt(results, i, actions)
  }

  lemma {:induction false} PushesBehind(results: seq<Read>, i: nat)
    requires results != [] && i < |results|
    ensures PushesBefore(results, i + 1)
         == PushesBefore(results[1..], i) + if IsPush(results[0]) then 1 else 0
  {
    if i > 0 {
      PushesBehind(results, i - 1);
      assert results[1..][i - 1] == results[i];
    }
  }

  /** Two more actions in front for a push message, none for another payload. */
  lemma ServedBehind(results: seq<Read>, i: nat, done: seq<Action>, rest: seq<Action>)
    requires results != [] && i + 1 < |results| && ServedAt(results[1..], i, rest)
    requires |done| == if IsPush(results[0]) then 2 else 0
    ensures ServedAt(results, i + 1, done + rest)
  {
    PushesBehind(results, i);
    assert results[1..][i] == results[i + 1];
    if IsPush(results[i + 1]) {
      var (k, m) := (PushesBefore(results[1..], i), PushesBefore(results, i + 1));
      assert 2 * m == 2 * k + |done|;
      assert (done + rest)[2 * m] == rest[2 * k] && (done + rest)[2 * m + 1] == rest[2 * k + 1];
    }
  }

  /** Nothing that is read before the loop ends is left out. */
  lemma {:induction false} ServedAll(results: seq<Read>) returns (n: nat)
    ensures ServesAll(results, n, Served(results))
  {
    if results == [] || !results[0].Got? {
      return 0;
    }
    var m := ServedAll(results[1..]);
    n := m + 1;
    PushesBehind(results, m);
    assert forall i :: 1 <= i < |results| ==> results[i] == results[1..][i - 1];
    var rest := Served(results[1..]);
    var done := Served(results)[..|Served(results)| - |rest|];
    assert Served(results) == done + rest;
    forall i: nat | i < n ensures ServedAt(results, i, Served(results)) {
      if i > 0 {
        assert ServedAt(results[1..], i - 1, rest);
        ServedBehind(results, i - 1, done, rest);
      }
    }
  }

  /** `async for not_closed, request in listener: ... await req.ack()` with the
      inner loop of `get_one`. */
  method Serve(results: seq<Read>) returns (actions: seq<Action>)
    ensures actions == Served(results)
    ensures exists n :: ServesAll(results, n, actions)
  {
    ghost var n := ServedAll(results);
    actions := [];
    var i := 0;
    while i < |results|
      invariant i <= |results|
      invariant actions + Served(results[i..]) == Served(results)
      decreases |results| - i, 1
    {
      // get_one: read until a push message arrives or the channel is done
      while i < |results| && results[i].Got? && results[i].payload.OtherPayload?
        invariant i <= |results|
        invariant actions + Served(results[i..]) == Served(results)
        decreases |results| - i
      {
        assert results[i..][1..] == results[i + 1..];
        i := i + 1;
      }
      if i == |results| || !results[i].Got? {
        assert Served(results[i..]) == [];
        return;
      }
      var request := results[i].payload;
      assert results[i..][1..] == results[i + 1..];
      var done := [HandedOn(request.id, request.message), Acked(request.id, request.reverse)];
      ConcatAssoc(actions, done, Served(results[i + 1..]));
      actions := actions + done;
      i := i + 1;
    }
    assert results[i..] == [];
  }

  ghost predicate WasRead(results: seq<Read>, id: nat, message: int) {
    exists i, reverse :: 0 <= i < |results| && results[i] == Got(Push(id, reverse, message))
  }

  lemma WasReadLater(results: seq<Read>, id: nat, message: int)
    requires results != [] && WasRead(results[1..], id, message)
    ensures WasRead(results, id, message)
  {
    var i, reverse :| 0 <= i < |results[1..]| && results[1..][i] == Got(Push(id, reverse, message));
    assert results[i + 1] == Got(Push(id, reverse, message));
  }

  /** Every ack follows, at once, on handing that request's message on; and every
      message handed on belongs to a push message that was read. */
  lemma {:induction false} AckFollowsHandOn(results: seq<Read>, k: nat)
    requires k < |Served(results)|
    ensures var action := Served(results)[k];
            match action
            case Acked(id, _) => k > 0 && Served(results)[k - 1].HandedOn? && Served(results)[k - 1].id == id
            case HandedOn(id, message) => WasRead(results, id, message)
  {
    var action := Served(results)[k];
    match results[0]
    case Got(Push(id, reverse, message)) =>
      if k >= 2 {
        AckFollowsHandOn(results[1..], k - 2);
        if action.HandedOn? { WasReadLater(results, action.id, action.message); }
      } else {
        assert results[0] == Got(Push(id, reverse, message));
      }
    case Got(OtherPayload(_)) =>
      AckFollowsHandOn(results[1..], k);
      if action.HandedOn? { WasReadLater(results, action.id, action.message); }
    case NotOk =>
    case Failed =>
  }
}
