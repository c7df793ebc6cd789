/** The websocket session of `onboard`: its protocol listeners, its one inbound
    listener, and the clean-up at the end.

    The functions say what each stretch between two awaits does to the session;
    `Onboard` performs them step by step. */
module Session {
  import opened Base

  /** A task is live until it is asked to stop or ends by itself; asked to stop, it
      learns of it at its next step. */
  datatype Status = Live | Cancelling | Done

  /** Where the inbound listener waits: for its first step, for the endpoint's row,
      for the peer's pairwise row, or for messages. */
  datatype Phase = Starting | Loading | LookingUp | Listening

  /** `met` records that the last cancellation met the listener in its lookup, under
      a bare `except` that takes the cancellation for a failed lookup. */
  datatype Task =
    | Protocol(thid: string, parent: Option<string>, status: Status)
    | Inbound(group: string, phase: Phase, status: Status, met: bool)

  /** `tasks` are all tasks ever created; `table` is the dict of protocol listeners
      and `order` its insertion order. */
  datatype State = State(tasks: seq<Task>, table: map<string, nat>, order: seq<string>, inbound: Option<nat>,
                         group: Option<string>, queue: bool)

  const OPENED := State([], map[], [], None, None, false)
  const OFF := "off"
  const DEFAULT_GROUP := "default_group_id_for_inbound_queue"

  function TaskOf(s: State, thid: string): Option<nat> {
    if thid in s.table && s.table[thid] < |s.tasks| then Some(s.table[thid]) else None
  }

  /** `if not tsk.done(): tsk.cancel()`. */
  function Stopped(t: Task): Task {
    if t.status != Live then t
    else match t
      case Protocol(thid, parent, _) => Protocol(thid, parent, Cancelling)
      case Inbound(group, phase, _, _) => Inbound(group, phase, Cancelling, phase == LookingUp)
  }

  function Cancel(tasks: seq<Task>, i: nat): (r: seq<Task>)
    ensures |r| == |tasks|
  {
    if i < |tasks| then tasks[i := Stopped(tasks[i])] else tasks
  }

  /** The next step of a task; an inbound listener `goesOn` if nothing else ends it.
      A cancellation ends it unless it arrives in the lookup. */
  function Stepped(t: Task, goesOn: bool): Task {
    match t
    case Protocol(thid, parent, status) => if status == Cancelling then Protocol(thid, parent, Done) else t
    case Inbound(group, phase, status, met) =>
      if status == Done || (status == Cancelling && phase != LookingUp) || !goesOn then Inbound(group, phase, Done, met)
      else Inbound(group, After(phase), Live, met)
  }

  function After(phase: Phase): Phase {
    match phase
    case Starting => Loading
    case Loading => LookingUp
    case _ => Listening
  }

  /** The task's next step ends it, or it has ended. */
  predicate Over(t: Task) {
    Stepped(t, true).status == Done
  }

  /** What other tasks do while the session waits: end by themselves, or step. */
  datatype Turn = Ends(i: nat) | Steps(i: nat, goesOn: bool)

  function Finished(t: Task): Task {
    match t
    case Protocol(thid, parent, _) => Protocol(thid, parent, Done)
    case Inbound(group, phase, _, met) => Inbound(group, phase, Done, met)
  }

  function TakeTurn(tasks: seq<Task>, turn: Turn): (r: seq<Task>)
    ensures |r| == |tasks|
  {
    if turn.i >= |tasks| then tasks
    else match turn
      case Ends(i) => tasks[i := Finished(tasks[i])]
      case Steps(i, goesOn) => tasks[i := Stepped(tasks[i], goesOn)]
  }

  function TakeTurns(tasks: seq<Task>, turns: seq<Turn>): (r: seq<Task>)
    ensures |r| == |tasks|
    decreases |turns|
  {
    if turns == [] then tasks else TakeTurns(TakeTurn(tasks, turns[0]), turns[1..])
  }

  function CancelInbound(s: State): State {
    if s.inbound.Some? then s.(tasks := Cancel(s.tasks, s.inbound.value)) else s
  }

  // ------------------------------------------------------------- connections

  /** A connection request names a group, or leaves the last one in force. */
  function Requested(s: State, group: Option<string>): State {
    if group.Some? then s.(group := group) else s
  }

  /** The connection is established, with a peer that wants its messages on this
      socket or elsewhere. */
  function Connected(s: State, overQueue: bool): State {
    var s1 := CancelInbound(s);
    if !overQueue then s1
    else if s.group == Some(OFF) then s1.(queue := true)
    else
      var task := Inbound(s.group.GetOr(DEFAULT_GROUP), Starting, Live, false);
      s1.(queue := true, inbound := Some(|s1.tasks|), tasks := s1.tasks + [task])
  }

  // ------------------------------------------------------------ subscriptions

  function SubscribeOne(s: State, thid: string, parent: Option<string>): State {
    var known := TaskOf(s, thid);
    if known.Some? && s.tasks[known.value].status != Done then s
    else State(s.tasks + [Protocol(thid, parent, Live)], s.table[thid := |s.tasks|],
               if thid in s.table then s.order else s.order + [thid], s.inbound, s.group, s.queue)
  }

  /** A subscribe request: one listener for every id, each awaited; then, without a
      group, the inbound listener has to go. */
  function Subscribe(s: State, thids: seq<string>, parent: Option<string>, pauses: seq<seq<Turn>>): State
    requires |pauses| == |thids|
    decreases |thids|
  {
    if thids == [] then if s.order != [] && s.group.None? then CancelInbound(s) else s
    else
      var s1 := SubscribeOne(s, thids[0], parent);
      Subscribe(s1.(tasks := TakeTurns(s1.tasks, pauses[0])), thids[1..], parent, pauses[1..])
  }

  // ---------------------------------------------------------- unsubscriptions

  function OrderWithout(order: seq<string>, thid: string): seq<string> {
    if order == [] then []
    else (if order[0] == thid then [] else [order[0]]) + OrderWithout(order[1..], thid)
  }

  function Remove(s: State, thid: string): State
    requires thid in s.table
  {
    s.(tasks := Cancel(s.tasks, s.table[thid]), table := s.table - {thid}, order := OrderWithout(s.order, thid))
  }

  /** The listed ids in turn; those that are in the table are removed and reported. */
  function RemoveListed(s: State, thids: seq<string>): (State, seq<string>)
    decreases |thids|
  {
    if thids == [] then (s, [])
    else if thids[0] in s.table then
      var (s1, rest) := RemoveListed(Remove(s, thids[0]), thids[1..]);
      (s1, [thids[0]] + rest)
    else RemoveListed(s, thids[1..])
  }

  function CancelListed(tasks: seq<Task>, table: map<string, nat>, thids: seq<string>): (r: seq<Task>)
    ensures |r| == |tasks|
    decreases |thids|
  {
    if thids == [] then tasks
    else CancelListed(if thids[0] in table then Cancel(tasks, table[thids[0]]) else tasks, table, thids[1..])
  }

  function RemoveAll(s: State): (State, seq<string>) {
    (s.(tasks := CancelListed(s.tasks, s.table, s.order), table := map[], order := []), s.order)
  }

  /** The table's ids whose listener was subscribed under this parent thread. */
  function ChildrenOf(s: State, thids: seq<string>, parent: string): seq<string> {
    if thids == [] then []
    else
      var task := TaskOf(s, thids[0]);
      var child := task.Some? && s.tasks[task.value].Protocol? && s.tasks[task.value].parent == Some(parent);
      (if child then [thids[0]] else []) + ChildrenOf(s, thids[1..], parent)
  }

  function Listed(s: State, thids: seq<string>, parent: Option<string>): seq<string> {
    thids + if parent.Some? && parent.value != "" then ChildrenOf(s, s.order, parent.value) else []
  }

  function Unsubscribe(s: State, thids: seq<string>, parent: Option<string>): (State, seq<string>) {
    var listed := Listed(s, thids, parent);
    if listed != [] then RemoveListed(s, listed) else RemoveAll(s)
  }

  /** The `finally` block. */
  function Close(s: State): State {
    var s1 := CancelInbound(s);
    s1.(tasks := CancelListed(s1.tasks, s1.table, s1.order))
  }

  // ------------------------------------------------------------ the invariant

  ghost predicate NoRepeats(ids: seq<string>) {
    forall i, j :: 0 <= i < j < |ids| ==> ids[i] != ids[j]
  }

  ghost predicate TableOk(s: State) {
    && (forall t :: t in s.table <==> t in s.order)
    && NoRepeats(s.order)
    && (forall t :: t in s.table ==> s.table[t] < |s.tasks|)
    && (forall t :: t in s.table ==> s.tasks[s.table[t]].Protocol? && s.tasks[s.table[t]].thid == t)
  }

  /** Every live protocol listener is the table's one for its id. */
  ghost predicate Accounted(s: State, i: nat) {
    i < |s.tasks| && s.tasks[i].Protocol? && s.tasks[i].status == Live ==>
      s.tasks[i].thid in s.table && s.table[s.tasks[i].thid] == i
  }

  /** An inbound listener that is live but not the current one had its cancellation
      in the lookup, and has gone on to listen. */
  ghost predicate InboundOk(s: State, i: nat) {
    i < |s.tasks| && s.tasks[i].Inbound? ==>
      var t := s.tasks[i];
      && (t.status == Cancelling ==> (t.met <==> t.phase == LookingUp))
      && (t.status == Live && s.inbound != Some(i) ==> t.met)
      && (t.status == Live && t.met ==> t.phase == Listening)
  }

  ghost predicate Inv(s: State) {
    && TableOk(s)
    && (forall i: nat :: Accounted(s, i))
    && (forall i: nat :: InboundOk(s, i))
    && (s.inbound.Some? ==> s.inbound.value < |s.tasks| && s.tasks[s.inbound.value].Inbound?)
  }

  /** At most the task was asked to stop. */
  predicate CalmerTask(a: Task, b: Task) {
    b == a || b == Stopped(a)
  }

  ghost predicate Calmer(a: seq<Task>, b: seq<Task>) {
    |a| == |b| && forall i :: 0 <= i < |a| ==> CalmerTask(a[i], b[i])
  }

  lemma CalmerKeeps(s: State, tasks: seq<Task>)
    requires Inv(s) && Calmer(s.tasks, tasks)
    ensures Inv(s.(tasks := tasks))
  {
    var s1 := s.(tasks := tasks);
    forall i: nat ensures Accounted(s1, i) && InboundOk(s1, i) {
      assert Accounted(s, i) && InboundOk(s, i);
    }
  }

  lemma CancelCalms(tasks: seq<Task>, i: nat)
    ensures Calmer(tasks, Cancel(tasks, i))
  {
  }

  lemma CalmerTwice(a: seq<Task>, b: seq<Task>, c: seq<Task>)
    requires Calmer(a, b) && Calmer(b, c)
    ensures Calmer(a, c)
  {
  }

  lemma TurnKeeps(s: State, turn: Turn)
    requires Inv(s)
    ensures Inv(s.(tasks := TakeTurn(s.tasks, turn)))
  {
    var s1 := s.(tasks := TakeTurn(s.tasks, turn));
    forall i: nat ensures Accounted(s1, i) && InboundOk(s1, i) {
      assert Accounted(s, i) && InboundOk(s, i);
    }
  }

  lemma {:induction false} TurnsKeep(s: State, turns: seq<Turn>)
    requires Inv(s)
    ensures Inv(s.(tasks := TakeTurns(s.tasks, turns)))
    decreases |turns|
  {
    if turns == [] {
      assert s.(tasks := s.tasks) == s;
    } else {
      TurnKeeps(s, turns[0]);
      TurnsKeep(s.(tasks := TakeTurn(s.tasks, turns[0])), turns[1..]);
    }
  }

  lemma {:induction false} CancelListedCalms(tasks: seq<Task>, table: map<string, nat>, thids: seq<string>)
    ensures Calmer(tasks, CancelListed(tasks, table, thids))
    ensures forall t :: t in thids && t in table && table[t] < |tasks| ==>
              CancelListed(tasks, table, thids)[table[t]].status != Live
    decreases |thids|
  {
    if thids != [] {
      var next := if thids[0] in table then Cancel(tasks, table[thids[0]]) else tasks;
      CancelListedCalms(next, table, thids[1..]);
      CalmerTwice(tasks, next, CancelListed(next, table, thids[1..]));
    }
  }

  lemma ConnectedKeeps(s: State, overQueue: bool)
    requires Inv(s)
    ensures Inv(Connected(s, overQueue))
  {
    var s1 := CancelInbound(s);
    if s.inbound.Some? {
      CancelCalms(s.tasks, s.inbound.value);
      CalmerKeeps(s, s1.tasks);
    }
    var s2 := Connected(s, overQueue);
    forall i: nat ensures Accounted(s2, i) && InboundOk(s2, i) {
      assert Accounted(s1, i) && InboundOk(s1, i);
    }
  }

  lemma SubscribeOneKeeps(s: State, thid: string, parent: Option<string>)
    requires Inv(s)
    ensures Inv(SubscribeOne(s, thid, parent))
  {
    var s1 := SubscribeOne(s, thid, parent);
    forall i: nat ensures Accounted(s1, i) && InboundOk(s1, i) {
      assert Accounted(s, i) && InboundOk(s, i);
    }
  }

  lemma {:induction false} SubscribeKeeps(s: State, thids: seq<string>, parent: Option<string>, pauses: seq<seq<Turn>>)
    requires Inv(s) && |pauses| == |thids|
    ensures Inv(Subscribe(s, thids, parent, pauses))
    decreases |thids|
  {
    if thids == [] {
      if s.inbound.Some? {
        CancelCalms(s.tasks, s.inbound.value);
        CalmerKeeps(s, CancelInbound(s).tasks);
      }
    } else {
      var s1 := SubscribeOne(s, thids[0], parent);
      SubscribeOneKeeps(s, thids[0], parent);
      TurnsKeep(s1, pauses[0]);
      SubscribeKeeps(s1.(tasks := TakeTurns(s1.tasks, pauses[0])), thids[1..], parent, pauses[1..]);
    }
  }

  lemma {:induction false} OrderWithoutIs(order: seq<string>, thid: string)
    ensures forall t :: t in OrderWithout(order, thid) <==> t in order && t != thid
  {
    if order != [] {
      OrderWithoutIs(order[1..], thid);
      assert forall t :: t in order <==> t == order[0] || t in order[1..];
    }
  }

  lemma ConsNoRepeats(head: string, rest: seq<string>)
    requires NoRepeats(rest) && head !in rest
    ensures NoRepeats([head] + rest)
  {
  }

  lemma TailNoRepeats(ids: seq<string>)
    requires NoRepeats(ids) && ids != []
    ensures NoRepeats(ids[1..]) && ids[0] !in ids[1..]
  {
  }

  lemma {:induction false} OrderWithoutNoRepeats(order: seq<string>, thid: string)
    requires NoRepeats(order)
    ensures NoRepeats(OrderWithout(order, thid))
  {
    if order != [] {
      TailNoRepeats(order);
      OrderWithoutNoRepeats(order[1..], thid);
      OrderWithoutIs(order[1..], thid);
      var rest := OrderWithout(order[1..], thid);
      if order[0] == thid {
        assert [] + rest == rest;
      } else {
        ConsNoRepeats(order[0], rest);
      }
    }
  }

  lemma RemoveKeeps(s: State, thid: string)
    requires Inv(s) && thid in s.table
    ensures Inv(Remove(s, thid))
  {
    var s1 := Remove(s, thid);
    OrderWithoutIs(s.order, thid);
    OrderWithoutNoRepeats(s.order, thid);
    forall i: nat ensures Accounted(s1, i) && InboundOk(s1, i) {
      assert Accounted(s, i) && InboundOk(s, i);
    }
  }

  /** What became of the ids in `gone`: the report names exactly those that were in
      the table, without repeats, and the table keeps the others as they were. */
  ghost predicate ReportedExactly(s: State, s1: State, gone: seq<string>, report: seq<string>) {
    && NoRepeats(report)
    && (forall t :: t in report <==> t in s.table && t in gone)
    && (forall t :: t in s1.table <==> t in s.table && t !in gone)
    && (forall t :: t in s1.table ==> s1.table[t] == s.table[t])
  }

  /** Their listeners are told to stop, and no other task is touched. */
  ghost predicate StoppedExactly(s: State, s1: State, gone: seq<string>) {
    && Calmer(s.tasks, s1.tasks)
    && (forall t :: t in s.table && t in gone && s.table[t] < |s1.tasks| ==> s1.tasks[s.table[t]].status != Live)
    && (forall i :: 0 <= i < |s.tasks| && !(s.tasks[i].Protocol? && s.tasks[i].thid in gone) ==>
          s1.tasks[i] == s.tasks[i])
  }

  lemma {:induction false} RemoveListedReport(s: State, thids: seq<string>)
    requires Inv(s)
    ensures Inv(RemoveListed(s, thids).0)
    ensures ReportedExactly(s, RemoveListed(s, thids).0, thids, RemoveListed(s, thids).1)
    decreases |thids|
  {
    if thids != [] {
      var head := thids[0];
      assert forall t :: t in thids <==> t == head || t in thids[1..];
      if head in s.table {
        var mid := Remove(s, head);
        RemoveKeeps(s, head);
        RemoveListedReport(mid, thids[1..]);
        ConsNoRepeats(head, RemoveListed(mid, thids[1..]).1);
      } else {
        RemoveListedReport(s, thids[1..]);
      }
    }
  }

  lemma RemoveStops(s: State, thid: string)
    requires Inv(s) && thid in s.table
    ensures StoppedExactly(s, Remove(s, thid), [thid])
  {
  }

  lemma StoppedTwice(s: State, mid: State, s1: State, head: string, rest: seq<string>)
    requires StoppedExactly(s, mid, [head]) && StoppedExactly(mid, s1, rest)
    requires mid.table == s.table - {head}
    ensures StoppedExactly(s, s1, [head] + rest)
  {
  }

  lemma {:induction false} RemoveListedStops(s: State, thids: seq<string>)
    requires Inv(s)
    ensures StoppedExactly(s, RemoveListed(s, thids).0, thids)
    decreases |thids|
  {
    if thids != [] {
      var head := thids[0];
      assert thids == [head] + thids[1..];
      if head in s.table {
        var mid := Remove(s, head);
        RemoveKeeps(s, head);
        RemoveStops(s, head);
        RemoveListedStops(mid, thids[1..]);
        StoppedTwice(s, mid, RemoveListed(mid, thids[1..]).0, head, thids[1..]);
      } else {
        RemoveListedStops(s, thids[1..]);
      }
    }
  }

  /** Only the table's listeners are touched. */
  lemma {:induction false} CancelListedSpares(tasks: seq<Task>, table: map<string, nat>, thids: seq<string>, i: nat)
    requires i < |tasks| && forall t :: t in table && t in thids ==> table[t] != i
    ensures CancelListed(tasks, table, thids)[i] == tasks[i]
    decreases |thids|
  {
    if thids != [] {
      CancelListedSpares(if thids[0] in table then Cancel(tasks, table[thids[0]]) else tasks, table, thids[1..], i);
    }
  }

  lemma RemoveAllStops(s: State)
    requires Inv(s)
    ensures StoppedExactly(s, RemoveAll(s).0, s.order)
  {
    CancelListedCalms(s.tasks, s.table, s.order);
    forall i: nat | i < |s.tasks| && !(s.tasks[i].Protocol? && s.tasks[i].thid in s.order)
      ensures RemoveAll(s).0.tasks[i] == s.tasks[i] {
      CancelListedSpares(s.tasks, s.table, s.order, i);
    }
  }

  lemma RemoveAllKeeps(s: State)
    requires Inv(s)
    ensures Inv(RemoveAll(s).0)
    ensures ReportedExactly(s, RemoveAll(s).0, s.order, RemoveAll(s).1)
  {
    var s1 := RemoveAll(s).0;
    RemoveAllStops(s);
    forall i: nat ensures Accounted(s1, i) && InboundOk(s1, i) {
      assert Accounted(s, i) && InboundOk(s, i);
      if i < |s.tasks| { assert CalmerTask(s.tasks[i], s1.tasks[i]); }
    }
  }

  lemma {:induction false} ChildrenAre(s: State, thids: seq<string>, parent: string, t: string)
    requires TableOk(s)
    ensures t in ChildrenOf(s, thids, parent)
            <==> t in thids && t in s.table && s.tasks[s.table[t]].parent == Some(parent)
  {
    if thids != [] {
      ChildrenAre(s, thids[1..], parent, t);
      assert t in thids <==> t == thids[0] || t in thids[1..];
    }
  }

  /** Whether an unsubscribe request is about this entry: it names the id, or the
      entry's parent thread. */
  ghost predicate Asked(s: State, thids: seq<string>, parent: Option<string>, t: string)
    requires TableOk(s)
  {
    t in thids || (t in s.table && parent.Some? && parent.value != "" && s.tasks[s.table[t]].parent == parent)
  }

  /** What an unsubscribe request removes and reports, without repeats: the entries
      it asks for; but all entries if it names no id and no entry has its parent. */
  lemma UnsubscribeExact(s: State, thids: seq<string>, parent: Option<string>, t: string)
    requires Inv(s)
    ensures var (s1, report) := Unsubscribe(s, thids, parent);
            && Inv(s1) && NoRepeats(report) && |s1.tasks| == |s.tasks|
            && (t in report <==>
                  && t in s.table
                  && (Asked(s, thids, parent, t)
                      || (thids == [] && forall u :: u in s.table ==> !Asked(s, thids, parent, u))))
            && (t in s1.table <==> t in s.table && t !in report)
            && (t in report ==> s1.tasks[s.table[t]].status != Live)
            && (t in s1.table ==> s1.table[t] == s.table[t] && s1.tasks[s1.table[t]] == s.tasks[s.table[t]])
  {
    var listed := Listed(s, thids, parent);
    forall u ensures u in listed <==> Asked(s, thids, parent, u) {
      if parent.Some? { ChildrenAre(s, s.order, parent.value, u); }
    }
    if listed != [] {
      RemoveListedReport(s, listed);
      RemoveListedStops(s, listed);
      assert Asked(s, thids, parent, listed[0]);
    } else {
      RemoveAllKeeps(s);
      RemoveAllStops(s);
    }
  }

  /** It leaves the inbound listener alone, and the group. */
  lemma UnsubscribeSpares(s: State, thids: seq<string>, parent: Option<string>, i: nat)
    requires Inv(s) && i < |s.tasks| && s.tasks[i].Inbound?
    ensures var s1 := Unsubscribe(s, thids, parent).0;
            && s1.group == s.group && s1.queue == s.queue && s1.inbound == s.inbound
            && i < |s1.tasks| && s1.tasks[i] == s.tasks[i]
  {
    var listed := Listed(s, thids, parent);
    RemoveListedGroup(s, listed);
    if listed != [] {
      RemoveListedStops(s, listed);
    } else {
      RemoveAllStops(s);
    }
  }

  // ------------------------------------------------------------------- events

  /** One stretch of the session between two awaits, or turns of its tasks. */
  datatype Event =
    | GroupRequested(group: Option<string>)
    | ConnectionMade(overQueue: bool)
    | Subscribing(thids: seq<string>, parent: Option<string>, pauses: seq<seq<Turn>>)
    | Unsubscribing(thids: seq<string>, parent: Option<string>)
    | Others(turns: seq<Turn>)

  /** A subscription's pauses, cut or filled up to one for each id. */
  function Pauses(n: nat, pauses: seq<seq<Turn>>): (r: seq<seq<Turn>>)
    ensures |r| == n
  {
    seq(n, i requires 0 <= i < n => if i < |pauses| then pauses[i] else [])
  }

  function Happen(s: State, e: Event): State {
    match e
    case GroupRequested(group) => Requested(s, group)
    case ConnectionMade(overQueue) => Connected(s, overQueue)
    case Subscribing(thids, parent, pauses) => Subscribe(s, thids, parent, Pauses(|thids|, pauses))
    case Unsubscribing(thids, parent) => Unsubscribe(s, thids, parent).0
    case Others(turns) => s.(tasks := TakeTurns(s.tasks, turns))
  }

  function Course(s: State, es: seq<Event>): State
    decreases |es|
  {
    if es == [] then s else Course(Happen(s, es[0]), es[1..])
  }

  lemma RequestedKeeps(s: State, group: Option<string>)
    requires Inv(s)
    ensures Inv(Requested(s, group))
  {
    forall i: nat ensures Accounted(Requested(s, group), i) && InboundOk(Requested(s, group), i) {
      assert Accounted(s, i) && InboundOk(s, i);
    }
  }

  lemma HappenKeeps(s: State, e: Event)
    requires Inv(s)
    ensures Inv(Happen(s, e))
  {
    match e
    case GroupRequested(group) => RequestedKeeps(s, group);
    case ConnectionMade(overQueue) => ConnectedKeeps(s, overQueue);
    case Subscribing(thids, parent, pauses) => SubscribeKeeps(s, thids, parent, Pauses(|thids|, pauses));
    case Unsubscribing(thids, parent) => UnsubscribeExact(s, thids, parent, "");
    case Others(turns) => TurnsKeep(s, turns);
  }

  lemma {:induction false} CourseKeeps(s: State, es: seq<Event>)
    requires Inv(s)
    ensures Inv(Course(s, es))
    decreases |es|
  {
    if es != [] {
      HappenKeeps(s, es[0]);
      CourseKeeps(Happen(s, es[0]), es[1..]);
    }
  }

  lemma OpenedInv()
    ensures Inv(OPENED)
  {
  }

  lemma CloseKeeps(s: State)
    requires Inv(s)
    ensures Inv(Close(s)) && |Close(s).tasks| == |s.tasks|
  {
    var s1 := CancelInbound(s);
    if s.inbound.Some? {
      CancelCalms(s.tasks, s.inbound.value);
      CalmerKeeps(s, s1.tasks);
    }
    CancelListedCalms(s1.tasks, s1.table, s1.order);
    CalmerKeeps(s1, Close(s).tasks);
  }

  /** After the clean-up a task is over unless its last cancellation met it in its
      lookup. Protocol listeners always are. */
  lemma CloseStops(s: State, i: nat)
    requires Inv(s) && i < |s.tasks|
    ensures |Close(s).tasks| == |s.tasks|
    ensures var t := Close(s).tasks[i]; Over(t) <==> t.status == Done || t.Protocol? || !t.met
  {
    var s1 := CancelInbound(s);
    CloseKeeps(s);
    if s.inbound.Some? {
      CancelCalms(s.tasks, s.inbound.value);
      CalmerKeeps(s, s1.tasks);
    }
    CancelListedCalms(s1.tasks, s1.table, s1.order);
    assert Accounted(s1, i) && InboundOk(s1, i) && InboundOk(Close(s), i);
    assert CalmerTask(s1.tasks[i], Close(s).tasks[i]);
  }

  /** Over every sequence of events: no thread id ever has two live listeners, and
      each live listener is in the table. */
  lemma SessionSafe(es: seq<Event>, i: nat, j: nat)
    requires i < |Course(OPENED, es).tasks| && Course(OPENED, es).tasks[i].status == Live
    requires j < |Course(OPENED, es).tasks| && Course(OPENED, es).tasks[j].status == Live
    ensures var s := Course(OPENED, es);
            && (s.tasks[i].Protocol? ==> s.tasks[i].thid in s.table && s.table[s.tasks[i].thid] == i)
            && (s.tasks[i].Protocol? && s.tasks[j].Protocol? && s.tasks[i].thid == s.tasks[j].thid ==> i == j)
  {
    var s := Course(OPENED, es);
    OpenedInv();
    CourseKeeps(OPENED, es);
    assert Accounted(s, i) && Accounted(s, j);
  }

  /** The listener's last cancellation met it in its lookup, and it has not ended. */
  predicate Escaped(t: Task) {
    t.Inbound? && t.met && t.status != Done
  }

  /** Over every sequence of events: the inbound listeners other than the current one
      are over if and only if none of them had its last cancellation in its lookup. */
  lemma OneInboundIff(es: seq<Event>)
    ensures var s := Course(OPENED, es);
            (forall i :: 0 <= i < |s.tasks| && s.tasks[i].Inbound? && s.inbound != Some(i) ==> Over(s.tasks[i]))
            <==> (forall i :: 0 <= i < |s.tasks| && s.inbound != Some(i) ==> !Escaped(s.tasks[i]))
  {
    var s := Course(OPENED, es);
    OpenedInv();
    CourseKeeps(OPENED, es);
    forall i: nat | i < |s.tasks| && s.tasks[i].Inbound? && s.inbound != Some(i)
      ensures Over(s.tasks[i]) <==> !Escaped(s.tasks[i]) {
      assert InboundOk(s, i);
    }
    if forall i :: 0 <= i < |s.tasks| && s.tasks[i].Inbound? && s.inbound != Some(i) ==> Over(s.tasks[i]) {
      forall i: nat | i < |s.tasks| && s.inbound != Some(i) ensures !Escaped(s.tasks[i]) {
        if s.tasks[i].Inbound? { assert Over(s.tasks[i]); }
      }
    }
  }

  /** When the session ends, after any events and also when it is cancelled in the
      middle of a subscribe request: all its protocol listeners end, and all its
      tasks do if and only if no inbound listener had its last cancellation, that
      of the clean-up included, in its lookup. */
  lemma SessionEndsIff(es: seq<Event>, thids: seq<string>, parent: Option<string>, pauses: seq<seq<Turn>>)
    requires |pauses| == |thids|
    ensures var s := Close(Interrupted(Course(OPENED, es), thids, parent, pauses));
            && (forall i :: 0 <= i < |s.tasks| && s.tasks[i].Protocol? ==> Over(s.tasks[i]))
            && ((forall i :: 0 <= i < |s.tasks| ==> Over(s.tasks[i]))
                <==> (forall i :: 0 <= i < |s.tasks| ==> !Escaped(s.tasks[i])))
  {
    var s0 := Interrupted(Course(OPENED, es), thids, parent, pauses);
    OpenedInv();
    CourseKeeps(OPENED, es);
    InterruptedKeeps(Course(OPENED, es), thids, parent, pauses);
    var s := Close(s0);
    CloseKeeps(s0);
    forall i: nat | i < |s.tasks|
      ensures Over(s.tasks[i]) <==> !Escaped(s.tasks[i])
      ensures s.tasks[i].Protocol? ==> Over(s.tasks[i]) {
      CloseStops(s0, i);
    }
  }

  // ------------------------------------------- cancellations that are swallowed

  ghost predicate NoneMet(s: State) {
    forall i :: 0 <= i < |s.tasks| && s.tasks[i].Inbound? ==> !s.tasks[i].met
  }

  /** None of the events cancels an inbound listener in its lookup. */
  ghost predicate NeverMeets(s: State, es: seq<Event>)
    decreases |es|
  {
    NoneMet(s) && (es == [] || NeverMeets(Happen(s, es[0]), es[1..]))
  }

  lemma {:induction false} NeverMeetsEnds(s: State, es: seq<Event>)
    requires NeverMeets(s, es)
    ensures NoneMet(Course(s, es))
    decreases |es|
  {
    if es != [] {
      NeverMeetsEnds(Happen(s, es[0]), es[1..]);
    }
  }

  predicate CurrentLooksUp(s: State) {
    s.inbound.Some? && s.inbound.value < |s.tasks| &&
    var t := s.tasks[s.inbound.value];
    t.Inbound? && t.status != Done && t.phase == LookingUp
  }

  /** So it is enough that no cancellation meets the inbound listener in its lookup:
      then at most one runs at any time, and all tasks end with the session unless
      the clean-up finds the current one there. */
  lemma NoMeetingAllEnd(es: seq<Event>)
    requires NeverMeets(OPENED, es)
    ensures var s := Course(OPENED, es);
            && (forall i :: 0 <= i < |s.tasks| && s.tasks[i].Inbound? && s.inbound != Some(i) ==> Over(s.tasks[i]))
            && ((forall i :: 0 <= i < |Close(s).tasks| ==> Over(Close(s).tasks[i]))
                <==> !CurrentLooksUp(s))
  {
    var s := Course(OPENED, es);
    NeverMeetsEnds(OPENED, es);
    OneInboundIff(es);
    OpenedInv();
    CourseKeeps(OPENED, es);
    SessionEndsIff(es, [], None, []);
    CloseMeets(s);
  }

  lemma CloseMeets(s: State)
    requires Inv(s) && NoneMet(s)
    ensures (exists i :: 0 <= i < |Close(s).tasks| && Escaped(Close(s).tasks[i]))
            <==> CurrentLooksUp(s)
  {
    var s1 := CancelInbound(s);
    CancelListedCalms(s1.tasks, s1.table, s1.order);
    CloseKeeps(s);
    forall i: nat | i < |s.tasks| && s.tasks[i].Inbound? ensures Close(s).tasks[i] == s1.tasks[i] {
      CancelListedSpares(s1.tasks, s1.table, s1.order, i);
    }
    assert forall i :: 0 <= i < |s.tasks| ==> CalmerTask(s1.tasks[i], Close(s).tasks[i]);
    if s.inbound.Some? {
      var i := s.inbound.value;
      assert InboundOk(s, i);
      assert Close(s).tasks[i] == Stopped(s.tasks[i]);
    }
  }

  /** The inbound listener of a connection, two steps on: it looks the peer up. */
  const CONNECTED_AND_LOOKING: seq<Event> := [ConnectionMade(true), Others([Steps(0, true), Steps(0, true)])]

  lemma LookingUpRun()
    ensures Course(OPENED, CONNECTED_AND_LOOKING)
         == State([Inbound(DEFAULT_GROUP, LookingUp, Live, false)], map[], [], Some(0), None, true)
  {
    var es := CONNECTED_AND_LOOKING;
    var s1 := Happen(OPENED, es[0]);
    assert [] + [Inbound(DEFAULT_GROUP, Starting, Live, false)] == [Inbound(DEFAULT_GROUP, Starting, Live, false)];
    assert s1.tasks == [Inbound(DEFAULT_GROUP, Starting, Live, false)];
    assert es[1..] == [es[1]] && es[1..][1..] == [];
    assert [Steps(0, true), Steps(0, true)][1..] == [Steps(0, true)] && [Steps(0, true)][1..] == [];
    assert TakeTurn(s1.tasks, Steps(0, true)) == [Inbound(DEFAULT_GROUP, Loading, Live, false)];
    assert Course(s1, [es[1]]) == Happen(s1, es[1]);
  }

  /** A client disconnects right after the handshake: the clean-up cancels the
      listener in its lookup, and the listener goes on to read the group. */
  lemma ListenerOutlivesSession(n: nat)
    ensures var s := Close(Course(OPENED, CONNECTED_AND_LOOKING));
            TakeTurns(s.tasks, seq(n + 1, _ => Steps(0, true))) == [Inbound(DEFAULT_GROUP, Listening, Live, true)]
  {
    LookingUpRun();
    var s := Close(Course(OPENED, CONNECTED_AND_LOOKING));
    assert s.tasks == [Inbound(DEFAULT_GROUP, LookingUp, Cancelling, true)];
    var turns := seq(n + 1, _ => Steps(0, true));
    assert turns[1..] == seq(n, _ => Steps(0, true));
    assert TakeTurn(s.tasks, turns[0]) == [Inbound(DEFAULT_GROUP, Listening, Live, true)];
    GoesOnListening([Inbound(DEFAULT_GROUP, Listening, Live, true)], n);
  }

  lemma {:induction false} GoesOnListening(tasks: seq<Task>, n: nat)
    requires tasks == [Inbound(DEFAULT_GROUP, Listening, Live, true)]
    ensures TakeTurns(tasks, seq(n, _ => Steps(0, true))) == tasks
  {
    if n > 0 {
      var turns := seq(n, _ => Steps(0, true));
      assert turns[1..] == seq(n - 1, _ => Steps(0, true)) && TakeTurn(tasks, turns[0]) == tasks;
      GoesOnListening(tasks, n - 1);
    }
  }

  /** A client connects again right after the handshake: two listeners read on. */
  lemma TwoListenersRun()
    ensures var s := Connected(Course(OPENED, CONNECTED_AND_LOOKING), true);
            TakeTurns(s.tasks, [Steps(0, true), Steps(1, true), Steps(1, true), Steps(1, true)])
              == [Inbound(DEFAULT_GROUP, Listening, Live, true), Inbound(DEFAULT_GROUP, Listening, Live, false)]
  {
    LookingUpRun();
    var s := Connected(Course(OPENED, CONNECTED_AND_LOOKING), true);
    var first := Inbound(DEFAULT_GROUP, LookingUp, Cancelling, true);
    var second := Inbound(DEFAULT_GROUP, Starting, Live, false);
    assert s.tasks == [first, second];
    var on := Inbound(DEFAULT_GROUP, Listening, Live, true);
    var (a, b) := (Steps(0, true), Steps(1, true));
    assert [a, b, b, b][1..] == [b, b, b] && [b, b, b][1..] == [b, b] && [b, b][1..] == [b] && [b][1..] == [];
    assert TakeTurn(s.tasks, a) == [on, second];
    var t2 := TakeTurn([on, second], b);
    assert t2 == [on, second.(phase := Loading)];
    assert TakeTurn(t2, b) == [on, second.(phase := LookingUp)];
    assert TakeTurns(TakeTurn(t2, b), [b]) == [on, second.(phase := Listening)];
  }

  /** A subscribe request as far as the given ids; with none it has not begun. */
  function Interrupted(s: State, thids: seq<string>, parent: Option<string>, pauses: seq<seq<Turn>>): State
    requires |pauses| == |thids|
    decreases |thids|
  {
    if thids == [] then s
    else
      var s1 := SubscribeOne(s, thids[0], parent);
      Interrupted(s1.(tasks := TakeTurns(s1.tasks, pauses[0])), thids[1..], parent, pauses[1..])
  }

  lemma {:induction false} InterruptedKeeps(s: State, thids: seq<string>, parent: Option<string>,
                                            pauses: seq<seq<Turn>>)
    requires Inv(s) && |pauses| == |thids|
    ensures Inv(Interrupted(s, thids, parent, pauses))
    decreases |thids|
  {
    if thids != [] {
      var s1 := SubscribeOne(s, thids[0], parent);
      SubscribeOneKeeps(s, thids[0], parent);
      TurnsKeep(s1, pauses[0]);
      InterruptedKeeps(s1.(tasks := TakeTurns(s1.tasks, pauses[0])), thids[1..], parent, pauses[1..]);
    }
  }

  /** The group named by the latest connection request that named one. */
  function LastGroup(es: seq<Event>): Option<string> {
    if es == [] then None
    else
      var later := LastGroup(es[1..]);
      if later.Some? then later else if es[0].GroupRequested? then es[0].group else None
  }

  lemma StepGroup(s: State, e: Event)
    ensures Happen(s, e).group == if e.GroupRequested? && e.group.Some? then e.group else s.group
  {
    match e
    case Subscribing(thids, parent, pauses) => SubscribeGroup(s, thids, parent, Pauses(|thids|, pauses));
    case Unsubscribing(thids, parent) => RemoveListedGroup(s, Listed(s, thids, parent));
    case _ =>
  }

  lemma {:induction false} SubscribeGroup(s: State, thids: seq<string>, parent: Option<string>, pauses: seq<seq<Turn>>)
    requires |pauses| == |thids|
    ensures var s1 := Subscribe(s, thids, parent, pauses); s1.group == s.group && s1.queue == s.queue
    decreases |thids|
  {
    if thids != [] {
      var s1 := SubscribeOne(s, thids[0], parent);
      SubscribeGroup(s1.(tasks := TakeTurns(s1.tasks, pauses[0])), thids[1..], parent, pauses[1..]);
    }
  }

  lemma {:induction false} RemoveListedGroup(s: State, thids: seq<string>)
    ensures var s1 := RemoveListed(s, thids).0;
            s1.group == s.group && s1.queue == s.queue && s1.inbound == s.inbound
    decreases |thids|
  {
    if thids != [] {
      RemoveListedGroup(if thids[0] in s.table then Remove(s, thids[0]) else s, thids[1..]);
    }
  }

  /** Over every sequence of events the group in force is the one named last; what
      else happens, and requests that name none, do not change it. */
  lemma {:induction false} GroupInForce(s: State, es: seq<Event>)
    ensures Course(s, es).group == if LastGroup(es).Some? then LastGroup(es) else s.group
    decreases |es|
  {
    if es != [] {
      StepGroup(s, es[0]);
      GroupInForce(Happen(s, es[0]), es[1..]);
    }
  }

  /** What a connection does, after any course of events. Over the queue, unless the
      group named last is `off`, it starts exactly one inbound listener, and that one
      reads the group named last, or the default one if none was. Otherwise it starts
      none. Either way the former listener is told to stop, and no other task is
      touched. */
  lemma ConnectionStarts(es: seq<Event>, overQueue: bool)
    ensures var (s, s1) := (Course(OPENED, es), Course(OPENED, es + [ConnectionMade(overQueue)]));
            var named := LastGroup(es);
            && (overQueue && named != Some("off") ==>
                  && |s1.tasks| == |s.tasks| + 1 && s1.inbound == Some(|s.tasks|)
                  && s1.tasks[|s.tasks|].Inbound? && s1.tasks[|s.tasks|].status == Live
                  && s1.tasks[|s.tasks|].phase == Starting
                  && s1.tasks[|s.tasks|].group
                     == if named.Some? then named.value else "default_group_id_for_inbound_queue")
            && (!overQueue || named == Some("off") ==> |s1.tasks| == |s.tasks| && s1.inbound == s.inbound)
            && (s.inbound.Some? ==> s.inbound.value < |s.tasks| && s1.tasks[s.inbound.value].status != Live)
            && (forall i :: 0 <= i < |s.tasks| && s.inbound != Some(i) ==> s1.tasks[i] == s.tasks[i])
            && s1.table == s.table && s1.order == s.order
  {
    OpenedInv();
    CourseKeeps(OPENED, es);
    GroupInForce(OPENED, es);
    CourseOneMore(OPENED, es, ConnectionMade(overQueue));
  }

  lemma {:induction false} CourseOneMore(s: State, es: seq<Event>, e: Event)
    ensures Course(s, es + [e]) == Happen(Course(s, es), e)
    decreases |es|
  {
    if es == [] {
      assert [] + [e] == [e] && [e][1..] == [];
    } else {
      assert (es + [e])[1..] == es[1..] + [e];
      CourseOneMore(Happen(s, es[0]), es[1..], e);
    }
  }

  // ------------------------------------------------------- what stays of a task

  /** The same task, wherever it has got to: a protocol listener keeps its thread id
      and its parent, an inbound listener its group. */
  predicate SameTask(a: Task, b: Task) {
    match a
    case Protocol(thid, parent, _) => b.Protocol? && b.thid == thid && b.parent == parent
    case Inbound(group, _, _, _) => b.Inbound? && b.group == group
  }

  /** Tasks are added, never replaced. */
  ghost predicate SameTasks(a: seq<Task>, b: seq<Task>) {
    |a| <= |b| && forall i :: 0 <= i < |a| ==> SameTask(a[i], b[i])
  }

  lemma SameTwice(a: seq<Task>, b: seq<Task>, c: seq<Task>)
    requires SameTasks(a, b) && SameTasks(b, c)
    ensures SameTasks(a, c)
  {
    forall i | 0 <= i < |a| ensures SameTask(a[i], c[i]) {
      assert SameTask(a[i], b[i]) && SameTask(b[i], c[i]);
    }
  }

  lemma CalmerSame(a: seq<Task>, b: seq<Task>)
    requires Calmer(a, b)
    ensures SameTasks(a, b)
  {
    forall i | 0 <= i < |a| ensures SameTask(a[i], b[i]) {
      assert CalmerTask(a[i], b[i]);
    }
  }

  lemma {:induction false} TurnsSame(tasks: seq<Task>, turns: seq<Turn>)
    ensures SameTasks(tasks, TakeTurns(tasks, turns))
    decreases |turns|
  {
    if turns != [] {
      var next := TakeTurn(tasks, turns[0]);
      assert SameTasks(tasks, next);
      TurnsSame(next, turns[1..]);
      SameTwice(tasks, next, TakeTurns(tasks, turns));
    }
  }

  lemma {:induction false} SubscribeSame(s: State, thids: seq<string>, parent: Option<string>, pauses: seq<seq<Turn>>)
    requires |pauses| == |thids|
    ensures SameTasks(s.tasks, Subscribe(s, thids, parent, pauses).tasks)
    decreases |thids|
  {
    if thids != [] {
      var s1 := SubscribeOne(s, thids[0], parent);
      assert SameTasks(s.tasks, s1.tasks);
      TurnsSame(s1.tasks, pauses[0]);
      var s2 := s1.(tasks := TakeTurns(s1.tasks, pauses[0]));
      SubscribeSame(s2, thids[1..], parent, pauses[1..]);
      SameTwice(s.tasks, s1.tasks, s2.tasks);
      SameTwice(s.tasks, s2.tasks, Subscribe(s, thids, parent, pauses).tasks);
    }
  }

  lemma {:induction false} RemoveListedSame(s: State, thids: seq<string>)
    ensures SameTasks(s.tasks, RemoveListed(s, thids).0.tasks)
    decreases |thids|
  {
    if thids != [] {
      var s1 := if thids[0] in s.table then Remove(s, thids[0]) else s;
      assert SameTasks(s.tasks, s1.tasks);
      RemoveListedSame(s1, thids[1..]);
      SameTwice(s.tasks, s1.tasks, RemoveListed(s1, thids[1..]).0.tasks);
    }
  }

  lemma HappenSame(s: State, e: Event)
    ensures SameTasks(s.tasks, Happen(s, e).tasks)
  {
    match e
    case Subscribing(thids, parent, pauses) => SubscribeSame(s, thids, parent, Pauses(|thids|, pauses));
    case Unsubscribing(thids, parent) =>
      RemoveListedSame(s, Listed(s, thids, parent));
      CancelListedCalms(s.tasks, s.table, s.order);
      CalmerSame(s.tasks, CancelListed(s.tasks, s.table, s.order));
    case Others(turns) => TurnsSame(s.tasks, turns);
    case _ =>
  }

  /** Over every sequence of events a listener goes on reading the group or serving
      the thread it was started for, under the same parent. */
  lemma {:induction false} CourseSame(s: State, es: seq<Event>)
    ensures SameTasks(s.tasks, Course(s, es).tasks)
    decreases |es|
  {
    if es != [] {
      HappenSame(s, es[0]);
      CourseSame(Happen(s, es[0]), es[1..]);
      SameTwice(s.tasks, Happen(s, es[0]).tasks, Course(s, es).tasks);
    }
  }

  predicate Served(s: State, t: string) {
    t in s.table && s.table[t] < |s.tasks| && s.tasks[s.table[t]].status != Done
  }

  /** A subscription for one id starts a listener under the parent it names, unless
      one is running. From then on, for as long as the id stays with that listener,
      an unsubscribe request that names a parent reports and removes the id if that
      is the parent, and leaves it alone if it is another one that some entry has. */
  lemma ParentFinds(s: State, t: string, parent: string, pauses: seq<seq<Turn>>, es: seq<Event>, asked: string)
    requires Inv(s) && !Served(s, t) && asked != ""
    requires var s2 := Course(Happen(s, Subscribing([t], Some(parent), pauses)), es);
             t in s2.table && s2.table[t] == |s.tasks|
    ensures var s2 := Course(Happen(s, Subscribing([t], Some(parent), pauses)), es);
            var (s3, report) := Unsubscribe(s2, [], Some(asked));
            && Inv(s2)
            && (asked == parent ==> t in report && t !in s3.table)
            && (asked != parent && (exists u :: u in s2.table && s2.tasks[s2.table[u]].Protocol?
                                               && s2.tasks[s2.table[u]].parent == Some(asked)) ==>
                  t !in report && t in s3.table)
  {
    var s1 := Happen(s, Subscribing([t], Some(parent), pauses));
    var s2 := Course(s1, es);
    HappenKeeps(s, Subscribing([t], Some(parent), pauses));
    CourseKeeps(s1, es);
    StartsUnderParent(s, t, Some(parent), Pauses(1, pauses));
    CourseSame(s1, es);
    assert SameTask(s1.tasks[|s.tasks|], s2.tasks[|s.tasks|]);
    UnsubscribeExact(s2, [], Some(asked), t);
    assert Asked(s2, [], Some(asked), t) <==> asked == parent;
    if u :| u in s2.table && s2.tasks[s2.table[u]].Protocol? && s2.tasks[s2.table[u]].parent == Some(asked) {
      assert Asked(s2, [], Some(asked), u);
    }
  }

  lemma StartsUnderParent(s: State, t: string, parent: Option<string>, pauses: seq<seq<Turn>>)
    requires Inv(s) && !Served(s, t) && |pauses| == 1
    ensures var s1 := Subscribe(s, [t], parent, pauses);
            && |s1.tasks| == |s.tasks| + 1 && t in s1.table && s1.table[t] == |s.tasks|
            && s1.tasks[|s.tasks|].Protocol? && s1.tasks[|s.tasks|].thid == t && s1.tasks[|s.tasks|].parent == parent
  {
    var s1 := SubscribeOne(s, t, parent);
    assert s1.tasks[|s.tasks|] == Protocol(t, parent, Live);
    TurnsSame(s1.tasks, pauses[0]);
    var s2 := s1.(tasks := TakeTurns(s1.tasks, pauses[0]));
    assert SameTask(s1.tasks[|s.tasks|], s2.tasks[|s.tasks|]);
    assert [t][1..] == [] && Subscribe(s, [t], parent, pauses) == Subscribe(s2, [], parent, pauses[1..]);
    if s2.inbound.Some? {
      CancelCalms(s2.tasks, s2.inbound.value);
      CalmerSame(s2.tasks, CancelInbound(s2).tasks);
      assert SameTask(s2.tasks[|s.tasks|], CancelInbound(s2).tasks[|s.tasks|]);
    }
  }

  /** Over every sequence of events: answers may go over the queue if and only if a
      connection over the queue was made. */
  lemma {:induction false} QueueInUse(s: State, es: seq<Event>)
    ensures Course(s, es).queue <==> s.queue || ConnectionMade(true) in es
    decreases |es|
  {
    if es != [] {
      StepQueue(s, es[0]);
      QueueInUse(Happen(s, es[0]), es[1..]);
    }
  }

  lemma StepQueue(s: State, e: Event)
    ensures Happen(s, e).queue <==> s.queue || e == ConnectionMade(true)
  {
    match e
    case Subscribing(thids, parent, pauses) => SubscribeGroup(s, thids, parent, Pauses(|thids|, pauses));
    case Unsubscribing(thids, parent) => RemoveListedGroup(s, Listed(s, thids, parent));
    case _ =>
  }

  /** The current inbound listener was told to stop, and does unless it was looking
      the peer up. */
  predicate InboundTold(s: State) {
    s.inbound.Some? && s.inbound.value < |s.tasks| ==>
      var t := s.tasks[s.inbound.value];
      t.status != Live && t.Inbound? && (Over(t) <==> t.status == Done || t.phase != LookingUp)
  }

  /** All the tasks there were go on as they did. */
  ghost predicate InboundLeft(s: State, s1: State) {
    && s1.inbound == s.inbound && |s.tasks| <= |s1.tasks|
    && forall i :: 0 <= i < |s.tasks| ==> s1.tasks[i] == s.tasks[i]
  }

  lemma SubscribeOneServes(s: State, thid: string, parent: Option<string>, t: string)
    requires Inv(s)
    ensures var s1 := SubscribeOne(s, thid, parent);
            && Inv(s1) && s1.order != [] && s1.group == s.group
            && (t == thid || Served(s, t) ==> Served(s1, t)) && InboundLeft(s, s1)
  {
    SubscribeOneKeeps(s, thid, parent);
    assert thid in SubscribeOne(s, thid, parent).table;
  }

  lemma SubscribeEnd(s: State, t: string)
    requires Inv(s)
    ensures var s1 := if s.order != [] && s.group.None? then CancelInbound(s) else s;
            && (Served(s, t) ==> Served(s1, t))
            && (s.order != [] && s.group.None? ==> InboundTold(s1))
  {
  }

  /** A subscription during which nothing ends serves every id it names, and leaves
      no one unserved that was served; without a group it tells the inbound listener
      to stop, with one it leaves all tasks as they are. */
  lemma {:induction false} SubscribeServes(s: State, thids: seq<string>, parent: Option<string>,
                                           pauses: seq<seq<Turn>>, t: string)
    requires Inv(s) && |pauses| == |thids| && forall k :: 0 <= k < |pauses| ==> pauses[k] == []
    ensures t in thids || Served(s, t) ==> Served(Subscribe(s, thids, parent, pauses), t)
    ensures (thids != [] || s.order != []) && s.group.None? ==> InboundTold(Subscribe(s, thids, parent, pauses))
    ensures s.group.Some? ==> InboundLeft(s, Subscribe(s, thids, parent, pauses))
    decreases |thids|
  {
    if thids == [] {
      SubscribeEnd(s, t);
    } else {
      var s1 := SubscribeOne(s, thids[0], parent);
      SubscribeOneServes(s, thids[0], parent, t);
      assert s1.(tasks := TakeTurns(s1.tasks, pauses[0])) == s1;
      SubscribeServes(s1, thids[1..], parent, pauses[1..], t);
      assert t in thids <==> t == thids[0] || t in thids[1..];
    }
  }

  // ------------------------------------------------------------------ answers

  datatype Route = ViaPickup | ViaSocket

  /** Where the answer to an unsubscribe request goes. */
  function Answers(needAnswer: bool, aborted: bool, returnAll: bool, queue: bool): seq<Route> {
    if aborted then
      if returnAll || !queue then [ViaSocket] else if needAnswer then [ViaPickup, ViaSocket] else [ViaPickup]
    else if needAnswer then [ViaSocket] else []
  }

  // ------------------------------------------------------- the program's form

  class Onboard {
    var tasks: seq<Task>
    var table: map<string, nat>
    var order: seq<string>
    var inbound: Option<nat>
    var group: Option<string>
    var queue: bool

    function View(): State
      reads this
    {
      State(tasks, table, order, inbound, group, queue)
    }

    constructor ()
      ensures View() == OPENED
    {
      tasks, table, order, inbound, group, queue := [], map[], [], None, None, false;
    }

    method CancelTask(i: nat)
      modifies this`tasks
      ensures tasks == Cancel(old(tasks), i)
    {
      if i < |tasks| && tasks[i].status == Live {
        var task := tasks[i];
        task := if task.Inbound? then Inbound(task.group, task.phase, Cancelling, task.phase == LookingUp)
                else Protocol(task.thid, task.parent, Cancelling);
        tasks := tasks[i := task];
      }
      assert tasks == Cancel(old(tasks), i);
    }

    method Request(requested: Option<string>)
      modifies this`group
      ensures View() == Requested(old(View()), requested)
    {
      if requested.Some? {
        group := requested;
      }
    }

    method Connect(overQueue: bool)
      modifies this
      ensures View() == Connected(old(View()), overQueue)
    {
      if overQueue {
        queue := true;
        if inbound.Some? {
          CancelTask(inbound.value);
        }
        if group != Some(OFF) {
          var id := |tasks|;
          tasks := tasks + [Inbound(group.GetOr(DEFAULT_GROUP), Starting, Live, false)];
          inbound := Some(id);
        }
      } else if inbound.Some? {
        CancelTask(inbound.value);
      }
    }

    /** `pauses[i]` are the turns other tasks take while the i-th listener starts. */
    method SubscribeTo(thids: seq<string>, parent: Option<string>, pauses: seq<seq<Turn>>)
      requires |pauses| == |thids|
      modifies this
      ensures View() == Subscribe(old(View()), thids, parent, pauses)
    {
      for i := 0 to |thids|
        invariant Subscribe(View(), thids[i..], parent, pauses[i..]) == Subscribe(old(View()), thids, parent, pauses)
      {
        assert thids[i..][0] == thids[i] && thids[i..][1..] == thids[i + 1..] && pauses[i..][1..] == pauses[i + 1..];
        var thid := thids[i];
        if !(thid in table && table[thid] < |tasks| && tasks[table[thid]].status != Done) {
          var id := |tasks|;
          tasks := tasks + [Protocol(thid, parent, Live)];
          if thid !in table {
            order := order + [thid];
          }
          table := table[thid := id];
        }
        tasks := TakeTurns(tasks, pauses[i]);
      }
      assert thids[|thids|..] == [];
      if order != [] && group.None? && inbound.Some? {
        CancelTask(inbound.value);
      }
    }

    method UnsubscribeFrom(thids: seq<string>, parent: Option<string>, needAnswer: bool, aborted: bool, returnAll: bool)
      returns (processed: seq<string>, answers: seq<Route>)
      modifies this
      ensures (View(), processed) == Unsubscribe(old(View()), thids, parent)
      ensures answers == Answers(needAnswer, aborted, returnAll, queue)
    {
      var listed := Listed(View(), thids, parent);
      if listed != [] {
        processed := RemoveEach(listed);
      } else {
        CancelAll();
        processed := order;
        table, order := map[], [];
      }
      answers := Answer(needAnswer, aborted, returnAll, queue);
    }

    method RemoveEach(listed: seq<string>) returns (processed: seq<string>)
      modifies this`tasks, this`table, this`order
      ensures (View(), processed) == RemoveListed(old(View()), listed)
    {
      processed := [];
      assert listed[0..] == listed;
      for i := 0 to |listed|
        invariant RemoveListed(old(View()), listed).0 == RemoveListed(View(), listed[i..]).0
        invariant RemoveListed(old(View()), listed).1 == processed + RemoveListed(View(), listed[i..]).1
      {
        assert listed[i..][0] == listed[i] && listed[i..][1..] == listed[i + 1..];
        var thid := listed[i];
        if thid in table {
          ghost var rest := RemoveListed(Remove(View(), thid), listed[i + 1..]).1;
          CancelTask(table[thid]);
          table := table - {thid};
          order := OrderWithout(order, thid);
          ConcatAssoc(processed, [thid], rest);
          processed := processed + [thid];
        }
      }
      assert listed[|listed|..] == [] && processed + [] == processed;
    }

    static method Answer(needAnswer: bool, aborted: bool, returnAll: bool, queue: bool) returns (answers: seq<Route>)
      ensures answers == Answers(needAnswer, aborted, returnAll, queue)
      ensures answers in [[], [ViaSocket], [ViaPickup], [ViaPickup, ViaSocket]]
      ensures ViaPickup in answers <==> aborted && !returnAll && queue
      ensures ViaSocket in answers <==> needAnswer || (aborted && (returnAll || !queue))
    {
      answers := [];
      if needAnswer || aborted {
        var wasSentWithWebsocket := false;
        if aborted {
          if !returnAll && queue {
            answers := answers + [ViaPickup];
          } else {
            answers := answers + [ViaSocket];
            wasSentWithWebsocket := true;
          }
        }
        if needAnswer && !wasSentWithWebsocket {
          answers := answers + [ViaSocket];
        }
      }
    }

    method CancelAll()
      modifies this`tasks
      ensures tasks == CancelListed(old(tasks), table, order)
    {
      for i := 0 to |order|
        invariant CancelListed(tasks, table, order[i..]) == CancelListed(old(tasks), table, order)
      {
        assert order[i..][0] == order[i] && order[i..][1..] == order[i + 1..];
        if order[i] in table {
          CancelTask(table[order[i]]);
        }
      }
      assert order[|order|..] == [];
    }

    method Finish()
      modifies this`tasks
      ensures View() == Close(old(View()))
    {
      if inbound.Some? {
        CancelTask(inbound.value);
      }
      CancelAll();
    }
  }
}
