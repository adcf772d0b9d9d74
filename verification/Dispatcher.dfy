/** Draining the session-continue queue (internal/api/session_continue_queue.go), with
    the task creation behind it (CreateContinueTaskForConversation and startTask in
    internal/taskops/service.go). */
module Dispatcher {
  import opened Wrappers
  import opened Score
  import TaskStore
  import Q = ContinueQueue

  /** A row of the task table; rows are kept in order of creation. */
  datatype Row = Row(
    id: string, conversation: string, workdir: string, baseWorkdir: string,
    status: Status, sessionDeleted: bool)

  type Tasks = seq<Row>

  const BUDGET := 1

  function FirstNonEmpty(a: string, b: string): string {
    if a != "" then a else b
  }

  /** COALESCE(base_workdir, workdir, conversation_id, id), empty values skipped. */
  function ScopeKey(t: Row): string {
    FirstNonEmpty(t.baseWorkdir, FirstNonEmpty(t.workdir, FirstNonEmpty(t.conversation, t.id)))
  }

  function Latest(tasks: Tasks, conversation: string): Option<Row> {
    if tasks == [] then None
    else if tasks[|tasks| - 1].conversation == conversation then Some(tasks[|tasks| - 1])
    else Latest(tasks[..|tasks| - 1], conversation)
  }

  /** ProjectScopeForConversation */
  function ScopeOf(tasks: Tasks, conversation: string): string {
    match Latest(tasks, conversation)
    case None => conversation
    case Some(t) => FirstNonEmpty(t.baseWorkdir, FirstNonEmpty(t.workdir, conversation))
  }

  /** CountInFlightTasksByProjectScope */
  function InFlightIn(tasks: Tasks, scope: string): nat {
    if tasks == [] then 0 else
    var t := tasks[|tasks| - 1];
    InFlightIn(tasks[..|tasks| - 1], scope) + (if TaskStore.InFlight(t.status) && ScopeKey(t) == scope then 1 else 0)
  }

  predicate ConversationInFlight(tasks: Tasks, conversation: string) {
    exists i | 0 <= i < |tasks| :: tasks[i].conversation == conversation && TaskStore.InFlight(tasks[i].status)
  }

  predicate WorkdirInFlight(tasks: Tasks, workdir: string) {
    exists i | 0 <= i < |tasks| :: tasks[i].workdir == workdir && TaskStore.InFlight(tasks[i].status)
  }

  /** What this call finds outside the store: whether the item's options parse, whether
      the follow-up can be prepared, and whether the runner starts it. */
  datatype Env = Env(optionsValid: bool, prepares: bool, starts: bool)

  datatype Outcome =
    | Created | NotFound | SessionDeleted | LatestBlocked | TaskInFlight
    | Unprepared | WorkdirBusy | RunnerUnavailable

  predicate KeepsPending(o: Outcome) {
    o in {LatestBlocked, TaskInFlight, WorkdirBusy, RunnerUnavailable}
  }

  /** The follow-up task works in the latest task's workdir; only worktree tasks
      record a base_workdir, and a follow-up is never one. */
  function FollowUp(latest: Row, id: string, status: Status): Row {
    Row(id, latest.conversation, latest.workdir, "", status, false)
  }

  function CreateContinue(tasks: Tasks, conversation: string, env: Env, id: string): (Tasks, Outcome) {
    match Latest(tasks, conversation)
    case None => (tasks, NotFound)
    case Some(latest) =>
      if latest.sessionDeleted then (tasks, SessionDeleted)
      else if latest.status == Blocked then (tasks, LatestBlocked)
      else if ConversationInFlight(tasks, conversation) then (tasks, TaskInFlight)
      else if !env.prepares then (tasks, Unprepared)
      else if WorkdirInFlight(tasks, latest.workdir) then (tasks, WorkdirBusy)
      else if !env.starts then (tasks + [FollowUp(latest, id, Failed)], RunnerUnavailable)
      else (tasks + [FollowUp(latest, id, Queued)], Created)
  }

  /** The state a claimed item ends in. */
  function EndState(env: Env, o: Outcome): Q.State {
    if !env.optionsValid then Q.State.Failed
    else if o == Created then Q.State.Done
    else if KeepsPending(o) then Q.State.Pending
    else Q.State.Failed
  }

  /** The claimed item has been dispatched or settled otherwise. */
  predicate Settled(items: Q.Items, tasks: Tasks, conversation: string, item: string, env: Env, id: string, now: int,
                    items': Q.Items, tasks': Tasks, dispatched: bool) {
    var (created, o) := CreateContinue(tasks, conversation, env, id);
    && items' == Q.AfterMark(Q.AfterMark(items, item, Q.Dispatching, now), item, EndState(env, o), now)
    && tasks' == (if env.optionsValid then created else tasks)
    && (dispatched <==> env.optionsValid && o == Created)
  }

  /** A task the round has created: for which item, and on which scope. */
  datatype DispatchRecord = DispatchRecord(item: string, conversation: string, scope: string, taskId: string)

  class Api {
    const queue: Q.Queue
    var tasks: Tasks

    constructor (queue: Q.Queue, tasks: Tasks)
      ensures this.queue == queue && this.tasks == tasks
    {
      this.queue, this.tasks := queue, tasks;
    }

    /** Claims one item of the conversation and settles it. */
    method DrainConversation(conversation: string, env: Env, id: string, now: int)
      returns (dispatched: bool, claimed: Option<string>)
      modifies this`tasks, queue
      ensures claimed.None? <==> conversation == "" || Q.PendingOf(old(queue.items), conversation) == {}
      ensures claimed.None? ==> !dispatched && tasks == old(tasks) && queue.items == old(queue.items)
      ensures claimed.Some? ==>
        && Q.First(old(queue.items), conversation, claimed.value)
        && Settled(old(queue.items), old(tasks), conversation, claimed.value, env, id, now,
                   queue.items, tasks, dispatched)
    {
      if conversation == "" { return false, None; }
      claimed := queue.ClaimNext(conversation, now);
      if claimed.None? { return false, None; }
      var item := claimed.value;
      if !env.optionsValid {
        queue.Mark(item, Q.State.Failed, now);
        return false, claimed;
      }
      var (tasks', o) := CreateContinue(tasks, conversation, env, id);
      tasks := tasks';
      if o != Created {
        if KeepsPending(o) {
          queue.Mark(item, Q.State.Pending, now);
        } else {
          queue.Mark(item, Q.State.Failed, now);
        }
        return false, claimed;
      }
      queue.Mark(item, Q.State.Done, now);
      return true, claimed;
    }

    /** One round over the listed conversations. `env` and `ids` supply, for each
        conversation, what its dispatch meets and the id of the task it may create. */
    method DrainOnce(conversations: seq<string>, env: string -> Env, ids: string -> string, now: int)
      returns (ghost log: seq<DispatchRecord>)
      modifies this`tasks, queue
      ensures exists counts ::
        Sweep(queue.items, tasks, counts, log)
        == Swept(Sweep(old(queue.items), old(tasks), map[], []), conversations, env, ids, now)
    {
      var scopeInFlight: map<string, nat> := map[];
      log := [];
      ghost var start := Sweep(queue.items, tasks, map[], []);
      for i := 0 to |conversations|
        invariant Sweep(queue.items, tasks, scopeInFlight, log) == Swept(start, conversations[..i], env, ids, now)
      {
        assert conversations[..i + 1][..i] == conversations[..i];
        var cid := conversations[i];
        scopeInFlight, log := Visit(cid, env(cid), ids(cid), now, scopeInFlight, log);
      }
      assert conversations[..|conversations|] == conversations;
    }

    /** The loop body: looks up the scope, and drains the conversation if the local map
        leaves its scope within the budget. */
    method Visit(cid: string, env: Env, id: string, now: int, counts: map<string, nat>, ghost log: seq<DispatchRecord>)
      returns (counts': map<string, nat>, ghost log': seq<DispatchRecord>)
      modifies this`tasks, queue
      ensures Sweep(queue.items, tasks, counts', log')
           == Visited(Sweep(old(queue.items), old(tasks), counts, log), cid, env, id, now)
    {
      counts', log' := counts, log;
      var scope := ScopeOf(tasks, cid);
      var inFlight;
      if scope in counts {
        inFlight := counts[scope];
      } else {
        inFlight := InFlightIn(tasks, scope);
        counts' := counts[scope := inFlight];
      }
      if inFlight >= BUDGET { return; }
      ghost var before := queue.items;
      var dispatched, claimed := DrainConversation(cid, env, id, now);
      if claimed.Some? { Q.FirstIsUnique(before, cid, claimed.value, Q.FirstOf(before, cid)); }
      if dispatched {
        counts' := counts'[scope := inFlight + 1];
        log' := log + [DispatchRecord(claimed.value, cid, scope, id)];
      }
    }
  }

  /** Where a round stands: queue, tasks, the local map, and the dispatches so far. */
  datatype Sweep = Sweep(items: Q.Items, tasks: Tasks, counts: map<string, nat>, log: seq<DispatchRecord>)

  ghost function Visited(s: Sweep, cid: string, env: Env, id: string, now: int): Sweep {
    var scope := ScopeOf(s.tasks, cid);
    var looked := if scope in s.counts then s else s.(counts := s.counts[scope := InFlightIn(s.tasks, scope)]);
    if looked.counts[scope] >= BUDGET || cid == "" || Q.PendingOf(s.items, cid) == {} then looked
    else Drained(looked, cid, scope, env, id, now)
  }

  ghost function Drained(s: Sweep, cid: string, scope: string, env: Env, id: string, now: int): Sweep
    requires scope in s.counts && Q.PendingOf(s.items, cid) != {}
  {
    var item := Q.FirstOf(s.items, cid);
    var (created, o) := CreateContinue(s.tasks, cid, env, id);
    var items := Q.AfterMark(Q.AfterMark(s.items, item, Q.Dispatching, now), item, EndState(env, o), now);
    if env.optionsValid && o == Created
    then Sweep(items, created, s.counts[scope := s.counts[scope] + 1], s.log + [DispatchRecord(item, cid, scope, id)])
    else Sweep(items, if env.optionsValid then created else s.tasks, s.counts, s.log)
  }

  ghost function Swept(s: Sweep, conversations: seq<string>, env: string -> Env, ids: string -> string,
                       now: int): Sweep {
    if conversations == [] then s else
    var n := |conversations| - 1;
    var cid := conversations[n];
    Visited(Swept(s, conversations[..n], env, ids, now), cid, env(cid), ids(cid), now)
  }

  function Max(a: nat, b: nat): nat {
    if a < b then b else a
  }

  /** Continuing this conversation stays within its scope. */
  predicate NoBase(tasks: Tasks, conversation: string) {
    Latest(tasks, conversation).Some? ==> Latest(tasks, conversation).value.baseWorkdir == ""
  }

  /** What a round has done to the queue: items are only moved from pending to done or
      failed, and the dispatched ones are exactly those that became done. */
  ghost predicate ItemsOk(items: Q.Items, items': Q.Items, log: seq<DispatchRecord>) {
    && items'.Keys == items.Keys
    && (forall k :: k in items && items'[k].state != items[k].state ==>
         items[k].state == Q.State.Pending && items'[k].state in {Q.State.Done, Q.State.Failed})
    && (forall k :: k in items ==>
         (DispatchedItem(log, k) <==> items[k].state != Q.State.Done && items'[k].state == Q.State.Done))
    && (forall i, j :: 0 <= i < j < |log| ==> log[i].item != log[j].item)
  }

  ghost predicate DispatchedItem(log: seq<DispatchRecord>, k: string) {
    exists i :: 0 <= i < |log| && log[i].item == k
  }

  /** The tasks queued since there were `n`: id and conversation of each. */
  function QueuedSince(tasks: Tasks, n: nat): seq<(string, string)> {
    if |tasks| <= n then [] else
    var last := |tasks| - 1;
    var early := QueuedSince(tasks[..last], n);
    if tasks[last].status == Queued then early + [(tasks[last].id, tasks[last].conversation)] else early
  }

  function Dispatched(log: seq<DispatchRecord>): seq<(string, string)> {
    if log == [] then [] else
    var last := |log| - 1;
    Dispatched(log[..last]) + [(log[last].taskId, log[last].conversation)]
  }

  /** What it has done to the tasks: it only added rows; the queued ones are those of
      its dispatches, one each and in order, the others have failed; at most one
      dispatch per scope, none where one was in flight. */
  ghost predicate LogOk(tasks: Tasks, tasks': Tasks, log: seq<DispatchRecord>) {
    && (forall i, j :: 0 <= i < j < |log| ==> log[i].scope != log[j].scope)
    && (forall i :: 0 <= i < |log| ==> InFlightIn(tasks, log[i].scope) < BUDGET)
    && tasks <= tasks' && QueuedSince(tasks', |tasks|) == Dispatched(log)
    && (forall n :: |tasks| <= n < |tasks'| ==> tasks'[n].status in {Queued, Failed})
    && (forall scope :: InFlightIn(tasks, scope) <= InFlightIn(tasks', scope))
  }

  /** The local map never forgets a dispatch, and never counts too low. */
  ghost predicate MapOk(start: Tasks, counts: map<string, nat>, log: seq<DispatchRecord>) {
    && (forall i :: 0 <= i < |log| ==> log[i].scope in counts && counts[log[i].scope] >= BUDGET)
    && (forall s :: s in counts ==> InFlightIn(start, s) <= counts[s])
  }

  /** The local map agrees with the stored tasks, and the budget is kept. */
  ghost predicate MapExact(start: Tasks, tasks: Tasks, counts: map<string, nat>) {
    && (forall s :: s in counts ==> counts[s] == InFlightIn(tasks, s))
    && (forall s :: InFlightIn(tasks, s) <= Max(BUDGET, InFlightIn(start, s)))
  }

  ghost predicate NoBases(tasks: Tasks, conversations: seq<string>) {
    forall c :: c in conversations ==> NoBase(tasks, c)
  }

  /** What the round promises at any point. */
  ghost predicate Round(items: Q.Items, start: Tasks, s: Sweep, conversations: seq<string>) {
    && ItemsOk(items, s.items, s.log) && LogOk(start, s.tasks, s.log) && MapOk(start, s.counts, s.log)
    && (NoBases(start, conversations) ==> NoBases(s.tasks, conversations) && MapExact(start, s.tasks, s.counts))
  }

  lemma Look(items: Q.Items, start: Tasks, s: Sweep, conversations: seq<string>, scope: string, s': Sweep)
    requires Round(items, start, s, conversations) && scope !in s.counts
    requires s' == s.(counts := s.counts[scope := InFlightIn(s.tasks, scope)])
    ensures Round(items, start, s', conversations)
  {
  }

  /** One item claimed and settled keeps everything the round promises. */
  lemma DrainedKeepsRound(items: Q.Items, start: Tasks, s: Sweep, conversations: seq<string>,
                          d: DispatchRecord, env: Env, now: int, s': Sweep)
    requires Round(items, start, s, conversations)
    requires d.conversation in conversations && d.conversation != "" && d.scope == ScopeOf(s.tasks, d.conversation)
    requires d.scope in s.counts && s.counts[d.scope] < BUDGET && Q.PendingOf(s.items, d.conversation) != {}
    requires d.item == Q.FirstOf(s.items, d.conversation)
    requires s' == Drained(s, d.conversation, d.scope, env, d.taskId, now)
    ensures Round(items, start, s', conversations)
  {
    DrainedKeepsItems(items, s, d, env, now, s');
    DrainedKeepsLog(start, s, d, env, now, s');
    DrainedKeepsMap(start, s, conversations, d, env, now, s');
  }

  lemma DrainedKeepsItems(items: Q.Items, s: Sweep, d: DispatchRecord, env: Env, now: int, s': Sweep)
    requires ItemsOk(items, s.items, s.log) && Q.PendingOf(s.items, d.conversation) != {}
    requires d.item == Q.FirstOf(s.items, d.conversation) && d.scope in s.counts
    requires s' == Drained(s, d.conversation, d.scope, env, d.taskId, now)
    ensures ItemsOk(items, s'.items, s'.log)
  {
    var o := CreateContinue(s.tasks, d.conversation, env, d.taskId).1;
    DrainKeepsItems(items, s.items, s'.items, s.log, d, env, o, now);
  }

  lemma DrainedKeepsLog(start: Tasks, s: Sweep, d: DispatchRecord, env: Env, now: int, s': Sweep)
    requires LogOk(start, s.tasks, s.log) && MapOk(start, s.counts, s.log) && Q.PendingOf(s.items, d.conversation) != {}
    requires d.item == Q.FirstOf(s.items, d.conversation) && d.scope in s.counts && s.counts[d.scope] < BUDGET
    requires s' == Drained(s, d.conversation, d.scope, env, d.taskId, now)
    ensures LogOk(start, s'.tasks, s'.log)
  {
    DrainKeepsLog(start, s.tasks, s.log, d, env);
  }

  lemma DrainedKeepsMap(start: Tasks, s: Sweep, conversations: seq<string>, d: DispatchRecord, env: Env, now: int,
                        s': Sweep)
    requires MapOk(start, s.counts, s.log) && Q.PendingOf(s.items, d.conversation) != {}
    requires NoBases(start, conversations) ==> NoBases(s.tasks, conversations) && MapExact(start, s.tasks, s.counts)
    requires d.conversation in conversations && d.conversation != "" && d.scope == ScopeOf(s.tasks, d.conversation)
    requires d.item == Q.FirstOf(s.items, d.conversation) && d.scope in s.counts && s.counts[d.scope] < BUDGET
    requires s' == Drained(s, d.conversation, d.scope, env, d.taskId, now)
    ensures MapOk(start, s'.counts, s'.log)
    ensures NoBases(start, conversations) ==> NoBases(s'.tasks, conversations) && MapExact(start, s'.tasks, s'.counts)
  {
    DrainKeepsMap(start, s.tasks, s.counts, s.log, conversations, d, env);
  }

  lemma VisitKeepsRound(items: Q.Items, start: Tasks, s: Sweep, conversations: seq<string>,
                        cid: string, env: Env, id: string, now: int)
    requires Round(items, start, s, conversations) && cid in conversations
    ensures Round(items, start, Visited(s, cid, env, id, now), conversations)
  {
    var scope := ScopeOf(s.tasks, cid);
    var looked := if scope in s.counts then s else s.(counts := s.counts[scope := InFlightIn(s.tasks, scope)]);
    if scope !in s.counts {
      Look(items, start, s, conversations, scope, looked);
    }
    if looked.counts[scope] < BUDGET && cid != "" && Q.PendingOf(s.items, cid) != {} {
      var d := DispatchRecord(Q.FirstOf(s.items, cid), cid, scope, id);
      DrainedKeepsRound(items, start, looked, conversations, d, env, now, Visited(s, cid, env, id, now));
    }
  }

  lemma {:induction false} SweepIsRound(s: Sweep, conversations: seq<string>, k: nat,
                                        env: string -> Env, ids: string -> string, now: int)
    requires s.counts == map[] && s.log == [] && k <= |conversations|
    ensures Round(s.items, s.tasks, Swept(s, conversations[..k], env, ids, now), conversations)
  {
    if k == 0 {
      NothingSwept(s, conversations);
    } else {
      SweepIsRound(s, conversations, k - 1, env, ids, now);
      assert conversations[..k][..k - 1] == conversations[..k - 1];
      var cid := conversations[k - 1];
      VisitKeepsRound(s.items, s.tasks, Swept(s, conversations[..k - 1], env, ids, now), conversations,
                      cid, env(cid), ids(cid), now);
    }
  }

  lemma NothingSwept(s: Sweep, conversations: seq<string>)
    requires s.counts == map[] && s.log == []
    ensures Round(s.items, s.tasks, s, conversations)
  {
  }

  /** One round: every item it claims ends done, failed or pending again, done exactly
      when a task was created for it; at most one dispatch per project scope, none on a
      scope that had a task in flight; and if no listed conversation's latest task has
      a base_workdir, no scope ends with more stored tasks in flight than the budget,
      unless it started with them. */
  lemma OneDispatchPerScope(items: Q.Items, tasks: Tasks, conversations: seq<string>,
                            env: string -> Env, ids: string -> string, now: int)
    ensures var s := Swept(Sweep(items, tasks, map[], []), conversations, env, ids, now);
      && ItemsOk(items, s.items, s.log)
      && LogOk(tasks, s.tasks, s.log)
      && (NoBases(tasks, conversations) ==>
           forall scope :: InFlightIn(s.tasks, scope) <= Max(BUDGET, InFlightIn(tasks, scope)))
  {
    assert conversations[..|conversations|] == conversations;
    SweepIsRound(Sweep(items, tasks, map[], []), conversations, |conversations|, env, ids, now);
  }

  lemma DrainKeepsMap(start: Tasks, tasks: Tasks, counts: map<string, nat>, log: seq<DispatchRecord>,
                      conversations: seq<string>, d: DispatchRecord, env: Env)
    requires MapOk(start, counts, log) && d.scope in counts && counts[d.scope] < BUDGET
    requires d.conversation in conversations && d.conversation != "" && d.scope == ScopeOf(tasks, d.conversation)
    ensures MapOk(start, counts[d.scope := counts[d.scope] + 1], log + [d])
    ensures NoBases(tasks, conversations) && MapExact(start, tasks, counts) ==>
      var (tasks', o) := CreateContinue(tasks, d.conversation, env, d.taskId);
      && NoBases(tasks', conversations)
      && MapExact(start, tasks', if o == Created then counts[d.scope := counts[d.scope] + 1] else counts)
  {
    if NoBases(tasks, conversations) && MapExact(start, tasks, counts) {
      ContinueCounts(tasks, d.conversation, env, d.taskId);
      forall c | c in conversations { ContinueKeepsNoBase(tasks, d.conversation, env, d.taskId, c); }
    }
  }

  lemma DrainKeepsItems(items: Q.Items, before: Q.Items, after: Q.Items, log: seq<DispatchRecord>,
                        d: DispatchRecord, env: Env, o: Outcome, now: int)
    requires ItemsOk(items, before, log) && Q.First(before, d.conversation, d.item)
    requires after == Q.AfterMark(Q.AfterMark(before, d.item, Q.Dispatching, now), d.item, EndState(env, o), now)
    ensures ItemsOk(items, after, if env.optionsValid && o == Created then log + [d] else log)
  {
    var log' := if env.optionsValid && o == Created then log + [d] else log;
    assert before[d.item].state == Q.State.Pending && !DispatchedItem(log, d.item);
    forall k | k in items
      ensures DispatchedItem(log', k) <==> items[k].state != Q.State.Done && after[k].state == Q.State.Done
    {
      assert DispatchedItem(log, k) <==> items[k].state != Q.State.Done && before[k].state == Q.State.Done;
      if log' != log {
        assert log'[|log|] == d;
        if DispatchedItem(log, k) {
          var i :| 0 <= i < |log| && log[i].item == k;
          assert log'[i].item == k;
        }
      }
    }
  }

  lemma {:induction false} LatestIs(tasks: Tasks, conversation: string)
    ensures var t := Latest(tasks, conversation); t.Some? ==> t.value.conversation == conversation && t.value in tasks
  {
    if tasks != [] {
      LatestIs(tasks[..|tasks| - 1], conversation);
    }
  }

  lemma AppendCounts(tasks: Tasks, t: Row, scope: string)
    ensures InFlightIn(tasks + [t], scope)
         == InFlightIn(tasks, scope) + (if TaskStore.InFlight(t.status) && ScopeKey(t) == scope then 1 else 0)
  {
    assert (tasks + [t])[..|tasks|] == tasks;
  }

  /** Creating a follow-up changes nothing or appends one row. */
  lemma CreateContinueAppends(tasks: Tasks, conversation: string, env: Env, id: string)
    ensures var (tasks', o) := CreateContinue(tasks, conversation, env, id);
      && (tasks' == tasks || (|tasks'| > |tasks| && tasks' == tasks + [tasks'[|tasks|]]))
      && (o == Created ==> tasks' != tasks)
      && (tasks' != tasks ==> Answers(tasks'[|tasks|], conversation, id, if o == Created then Queued else Failed))
  {
    LatestIs(tasks, conversation);
  }

  predicate Answers(t: Row, conversation: string, id: string, status: Status) {
    t.id == id && t.conversation == conversation && t.status == status
  }

  lemma AppendKeepsLog(start: Tasks, tasks: Tasks, t: Row, log: seq<DispatchRecord>)
    requires LogOk(start, tasks, log) && t.status == Failed
    ensures LogOk(start, tasks + [t], log)
  {
    assert (tasks + [t])[..|tasks|] == tasks;
    forall s ensures InFlightIn(start, s) <= InFlightIn(tasks + [t], s) { AppendCounts(tasks, t, s); }
  }

  lemma AppendDispatch(start: Tasks, tasks: Tasks, t: Row, log: seq<DispatchRecord>, d: DispatchRecord)
    requires LogOk(start, tasks, log) && Answers(t, d.conversation, d.taskId, Queued)
    requires InFlightIn(start, d.scope) < BUDGET
    requires forall i :: 0 <= i < |log| ==> log[i].scope != d.scope
    ensures LogOk(start, tasks + [t], log + [d])
  {
    assert (tasks + [t])[..|tasks|] == tasks && (log + [d])[..|log|] == log;
    forall s ensures InFlightIn(start, s) <= InFlightIn(tasks + [t], s) { AppendCounts(tasks, t, s); }
  }

  lemma DrainKeepsLog(start: Tasks, tasks: Tasks, log: seq<DispatchRecord>, d: DispatchRecord, env: Env)
    requires LogOk(start, tasks, log) && InFlightIn(start, d.scope) < BUDGET
    requires forall i :: 0 <= i < |log| ==> log[i].scope != d.scope
    ensures var (tasks', o) := CreateContinue(tasks, d.conversation, env, d.taskId);
      LogOk(start, tasks', if o == Created then log + [d] else log)
  {
    var (tasks', o) := CreateContinue(tasks, d.conversation, env, d.taskId);
    CreateContinueAppends(tasks, d.conversation, env, d.taskId);
    if o == Created {
      AppendDispatch(start, tasks, tasks'[|tasks|], log, d);
    } else if tasks' != tasks {
      AppendKeepsLog(start, tasks, tasks'[|tasks|], log);
    }
  }

  /** Following up a conversation never gives a conversation's latest task a base. */
  lemma ContinueKeepsNoBase(tasks: Tasks, conversation: string, env: Env, id: string, c: string)
    requires NoBase(tasks, c)
    ensures NoBase(CreateContinue(tasks, conversation, env, id).0, c)
  {
    var (tasks', o) := CreateContinue(tasks, conversation, env, id);
    if tasks' != tasks {
      assert tasks'[..|tasks|] == tasks;
    }
  }

  lemma ContinueCounts(tasks: Tasks, conversation: string, env: Env, id: string)
    requires NoBase(tasks, conversation) && conversation != ""
    ensures var (tasks', o) := CreateContinue(tasks, conversation, env, id);
      forall s :: InFlightIn(tasks', s)
               == InFlightIn(tasks, s) + (if o == Created && s == ScopeOf(tasks, conversation) then 1 else 0)
  {
    var (tasks', o) := CreateContinue(tasks, conversation, env, id);
    LatestIs(tasks, conversation);
    if tasks' != tasks {
      assert tasks' == tasks + [tasks'[|tasks|]];
      forall s { AppendCounts(tasks, tasks'[|tasks|], s); }
    }
  }

  /** A dispatch is visible to the next round's budget for its scope exactly when the
      latest task recorded no base_workdir (or one equal to the workdir). */
  lemma DispatchCountsOnItsScopeIff(tasks: Tasks, conversation: string, env: Env, id: string)
    requires conversation != "" && CreateContinue(tasks, conversation, env, id).1 == Created
    ensures var latest := Latest(tasks, conversation).value;
      var scope := ScopeOf(tasks, conversation);
      InFlightIn(CreateContinue(tasks, conversation, env, id).0, scope) == InFlightIn(tasks, scope) + 1
      <==> latest.baseWorkdir == "" || latest.baseWorkdir == FirstNonEmpty(latest.workdir, conversation)
  {
    var tasks' := CreateContinue(tasks, conversation, env, id).0;
    LatestIs(tasks, conversation);
    assert tasks' == tasks + [tasks'[|tasks|]];
    AppendCounts(tasks, tasks'[|tasks|], ScopeOf(tasks, conversation));
  }

  // ------------------------------------------- what each part of a round does

  predicate IsInFlight(t: Row) {
    t.status in {Queued, Waiting, Running, AwaitingApproval}
  }

  /** Where a task counts: on its base directory, or else its directory, its conversation,
      itself, the first of these that is given. */
  predicate CountsOn(t: Row, scope: string) {
    if t.baseWorkdir != "" then scope == t.baseWorkdir
    else if t.workdir != "" then scope == t.workdir
    else if t.conversation != "" then scope == t.conversation
    else scope == t.id
  }

  function Counted(tasks: Tasks, scope: string): set<nat> {
    set i: nat | i < |tasks| && IsInFlight(tasks[i]) && CountsOn(tasks[i], scope)
  }

  /** The count of a scope is the number of its tasks in flight. */
  lemma {:induction false} InFlightInIs(tasks: Tasks, scope: string)
    ensures InFlightIn(tasks, scope) == |Counted(tasks, scope)|
  {
    if tasks == [] {
      assert Counted(tasks, scope) == {};
    } else {
      var n := |tasks| - 1;
      InFlightInIs(tasks[..n], scope);
      CountsIff(tasks[n], scope);
      CountedGrows(tasks, n, scope, Counted(tasks[..n], scope));
    }
  }

  lemma CountsIff(t: Row, scope: string)
    ensures IsInFlight(t) && CountsOn(t, scope) <==> TaskStore.InFlight(t.status) && ScopeKey(t) == scope
  {
  }

  lemma CountedGrows(tasks: Tasks, n: nat, scope: string, early: set<nat>)
    requires |tasks| == n + 1 && early == Counted(tasks[..n], scope)
    ensures |Counted(tasks, scope)| == |early| + (if IsInFlight(tasks[n]) && CountsOn(tasks[n], scope) then 1 else 0)
  {
    if IsInFlight(tasks[n]) && CountsOn(tasks[n], scope) {
      assert Counted(tasks, scope) == early + {n};
    } else {
      assert Counted(tasks, scope) == early;
    }
  }

  /** The i-th task is the latest of the conversation. */
  predicate IsLatest(tasks: Tasks, conversation: string, i: nat) {
    && i < |tasks| && tasks[i].conversation == conversation
    && forall j | i < j < |tasks| :: tasks[j].conversation != conversation
  }

  /** A conversation's scope is where its latest task counts; its own name without one. */
  lemma {:induction false} ScopeIsOfLatest(tasks: Tasks, conversation: string, i: nat)
    requires IsLatest(tasks, conversation, i)
    ensures Latest(tasks, conversation) == Some(tasks[i])
    ensures conversation != "" ==> CountsOn(tasks[i], ScopeOf(tasks, conversation))
  {
    if i < |tasks| - 1 { ScopeIsOfLatest(tasks[..|tasks| - 1], conversation, i); }
  }

  lemma {:induction false} ScopeWithoutTask(tasks: Tasks, conversation: string)
    requires forall i :: 0 <= i < |tasks| ==> tasks[i].conversation != conversation
    ensures Latest(tasks, conversation) == None && ScopeOf(tasks, conversation) == conversation
  {
    if tasks != [] { ScopeWithoutTask(tasks[..|tasks| - 1], conversation); }
  }

  /** Some task in flight is of the conversation, or works in the directory. */
  predicate Talks(tasks: Tasks, conversation: string) {
    exists i | 0 <= i < |tasks| :: IsInFlight(tasks[i]) && tasks[i].conversation == conversation
  }

  predicate Works(tasks: Tasks, workdir: string) {
    exists i | 0 <= i < |tasks| :: IsInFlight(tasks[i]) && tasks[i].workdir == workdir
  }

  lemma TalksAndWorks(tasks: Tasks, conversation: string, workdir: string)
    ensures Talks(tasks, conversation) <==> ConversationInFlight(tasks, conversation)
    ensures Works(tasks, workdir) <==> WorkdirInFlight(tasks, workdir)
  {
    forall i | 0 <= i < |tasks| ensures IsInFlight(tasks[i]) <==> TaskStore.InFlight(tasks[i].status) { }
    if Talks(tasks, conversation) {
      var i :| 0 <= i < |tasks| && IsInFlight(tasks[i]) && tasks[i].conversation == conversation;
      assert TaskStore.InFlight(tasks[i].status);
    }
    if Works(tasks, workdir) {
      var i :| 0 <= i < |tasks| && IsInFlight(tasks[i]) && tasks[i].workdir == workdir;
      assert TaskStore.InFlight(tasks[i].status);
    }
  }

  /** A follow-up is created exactly if nothing stands against it, and then works where the
      latest task did, without a base; what stands against it is told, first things first. */
  lemma FollowUpIff(tasks: Tasks, conversation: string, env: Env, id: string, i: nat, latest: Row, tasks': Tasks,
                    o: Outcome)
    requires IsLatest(tasks, conversation, i) && latest == tasks[i]
    requires (tasks', o) == CreateContinue(tasks, conversation, env, id)
    ensures o == SessionDeleted <==> latest.sessionDeleted
    ensures o == LatestBlocked <==> !latest.sessionDeleted && latest.status == Blocked
    ensures o == TaskInFlight <==> !latest.sessionDeleted && latest.status != Blocked && Talks(tasks, conversation)
    ensures o == Unprepared <==>
      !latest.sessionDeleted && latest.status != Blocked && !Talks(tasks, conversation) && !env.prepares
    ensures o in {WorkdirBusy, RunnerUnavailable, Created} <==>
      !latest.sessionDeleted && latest.status != Blocked && !Talks(tasks, conversation) && env.prepares
    ensures o == WorkdirBusy ==> Works(tasks, latest.workdir)
    ensures o == RunnerUnavailable ==> !Works(tasks, latest.workdir) && !env.starts
    ensures o == Created ==> !Works(tasks, latest.workdir) && env.starts
    ensures tasks' == tasks
      + if o == Created then [Row(id, conversation, latest.workdir, "", Queued, false)]
        else if o == RunnerUnavailable then [Row(id, conversation, latest.workdir, "", Failed, false)]
        else []
  {
    ScopeIsOfLatest(tasks, conversation, i);
    TalksAndWorks(tasks, conversation, latest.workdir);
  }

  /** Done when the task is created; pending again when it may be later; failed otherwise. */
  predicate EndsIn(env: Env, o: Outcome, state: Q.State) {
    if env.optionsValid && o == Created then state == Q.State.Done
    else if env.optionsValid && o in {LatestBlocked, TaskInFlight, WorkdirBusy, RunnerUnavailable} then
      state == Q.State.Pending
    else state == Q.State.Failed
  }

  /** What a round knows of a scope: what it has counted, or else the stored count. */
  function KnownCount(s: Sweep, scope: string): nat {
    if scope in s.counts then s.counts[scope] else InFlightIn(s.tasks, scope)
  }

  /** A visit claims the first item of the conversation if nothing is in flight on its
      scope, settles it, and remembers on the scope whether it has dispatched. */
  lemma VisitClaims(s: Sweep, cid: string, env: Env, id: string, now: int, item: string, scope: string, t: Sweep)
    requires scope == ScopeOf(s.tasks, cid) && KnownCount(s, scope) == 0 && cid != "" && Q.First(s.items, cid, item)
    requires t == Visited(s, cid, env, id, now)
    ensures Claimed(s, cid, env, id, now, item, scope, CreateContinue(s.tasks, cid, env, id).1, t)
    ensures t.tasks == if env.optionsValid then CreateContinue(s.tasks, cid, env, id).0 else s.tasks
  {
    Q.FirstIsUnique(s.items, cid, item, Q.FirstOf(s.items, cid));
    var looked := if scope in s.counts then s else s.(counts := s.counts[scope := InFlightIn(s.tasks, scope)]);
    assert t == Drained(looked, cid, scope, env, id, now);
    DrainClaims(looked, cid, env, id, now, item, scope, t);
    assert looked.counts[scope := 0] == s.counts[scope := 0] && looked.counts[scope := 1] == s.counts[scope := 1];
  }

  /** The item is settled, and a dispatch logged and remembered. */
  ghost predicate Claimed(s: Sweep, cid: string, env: Env, id: string, now: int, item: string, scope: string,
                          o: Outcome, t: Sweep) {
    && (exists state :: EndsIn(env, o, state) && Q.OnlyMarks(s.items, t.items, item, state, now))
    && (if env.optionsValid && o == Created then
          t.log == s.log + [DispatchRecord(item, cid, scope, id)] && t.counts == s.counts[scope := 1]
        else t.log == s.log && t.counts == s.counts[scope := 0])
  }

  lemma DrainClaims(s: Sweep, cid: string, env: Env, id: string, now: int, item: string, scope: string, t: Sweep)
    requires scope in s.counts && s.counts[scope] == 0 && Q.First(s.items, cid, item) && item == Q.FirstOf(s.items, cid)
    requires t == Drained(s, cid, scope, env, id, now)
    ensures Claimed(s, cid, env, id, now, item, scope, CreateContinue(s.tasks, cid, env, id).1, t)
    ensures t.tasks == if env.optionsValid then CreateContinue(s.tasks, cid, env, id).0 else s.tasks
  {
    var o := CreateContinue(s.tasks, cid, env, id).1;
    assert EndsIn(env, o, EndState(env, o));
    MarkedTwice(s.items, item, EndState(env, o), now);
    assert s.counts[scope := 0] == s.counts;
  }

  lemma MarkedTwice(items: Q.Items, item: string, state: Q.State, now: int)
    requires item in items
    ensures Q.OnlyMarks(items, Q.AfterMark(Q.AfterMark(items, item, Q.Dispatching, now), item, state, now), item,
                        state, now)
  {
  }

  /** A visit does nothing but look when something is in flight, or nothing waits. */
  lemma VisitSkips(s: Sweep, cid: string, env: Env, id: string, now: int, scope: string)
    requires scope == ScopeOf(s.tasks, cid)
    requires KnownCount(s, scope) >= 1 || cid == "" || Q.PendingOf(s.items, cid) == {}
    ensures Visited(s, cid, env, id, now) == s.(counts := s.counts[scope := KnownCount(s, scope)])
  {
  }

  /** A round visits every listed conversation once, in order. */
  lemma EveryoneIsVisited(s: Sweep, conversations: seq<string>, env: string -> Env, ids: string -> string, now: int,
                          k: nat)
    requires k < |conversations|
    ensures Swept(s, conversations[..0], env, ids, now) == s
    ensures Swept(s, conversations[..k + 1], env, ids, now)
         == Visited(Swept(s, conversations[..k], env, ids, now), conversations[k], env(conversations[k]),
                    ids(conversations[k]), now)
  {
    assert conversations[..k + 1][..k] == conversations[..k];
  }

  /** The first conversation listed gets its task in any round, if nothing is in flight on
      its scope and the task can be created. */
  lemma {:induction false} FirstIsServed(items: Q.Items, tasks: Tasks, conversations: seq<string>,
                                         env: string -> Env, ids: string -> string, now: int, c: string, n: nat)
    requires 0 < n <= |conversations| && c == conversations[0] && c != "" && Q.PendingOf(items, c) != {}
    requires InFlightIn(tasks, ScopeOf(tasks, c)) == 0 && env(c).optionsValid
    requires CreateContinue(tasks, c, env(c), ids(c)).1 == Created
    ensures var log := Swept(Sweep(items, tasks, map[], []), conversations[..n], env, ids, now).log;
      log != [] && log[0] == DispatchRecord(Q.FirstOf(items, c), c, ScopeOf(tasks, c), ids(c))
  {
    var s := Sweep(items, tasks, map[], []);
    if n == 1 {
      EveryoneIsVisited(s, conversations, env, ids, now, 0);
      VisitClaims(s, c, env(c), ids(c), now, Q.FirstOf(items, c), ScopeOf(tasks, c),
                  Visited(s, c, env(c), ids(c), now));
    } else {
      FirstIsServed(items, tasks, conversations, env, ids, now, c, n - 1);
      EveryoneIsVisited(s, conversations, env, ids, now, n - 1);
      VisitGrowsLog(Swept(s, conversations[..n - 1], env, ids, now), conversations[n - 1], env(conversations[n - 1]),
                    ids(conversations[n - 1]), now);
    }
  }

  lemma VisitGrowsLog(s: Sweep, cid: string, env: Env, id: string, now: int)
    ensures s.log <= Visited(s, cid, env, id, now).log
  {
  }

  /** Two conversations of one worktree project: after the first is continued, the
      stored tasks show nothing in flight on the scope of the second. */
  lemma BudgetMissesWorktreeFollowUps()
    ensures exists tasks: Tasks, id: string :: var after := CreateContinue(tasks, "a", Env(true, true, true), id);
      && ScopeOf(tasks, "a") == ScopeOf(tasks, "b") == ScopeOf(after.0, "b")
      && after.1 == Created && InFlightIn(after.0, ScopeOf(after.0, "b")) == 0
  {
    var t := Row("1", "a", "repo/wt1", "repo", Succeeded, false);
    var u := Row("2", "b", "repo/wt2", "repo", Succeeded, false);
    var tasks := [u, t];
    assert tasks[..1] == [u] && [u][..0] == [];
    assert Latest(tasks, "a") == Some(t) && Latest([u], "b") == Some(u) && Latest(tasks, "b") == Some(u);
    var after := CreateContinue(tasks, "a", Env(true, true, true), "3");
    assert after.0 == tasks + [FollowUp(t, "3", Queued)] && after.0[..2] == tasks;
    assert Latest(after.0, "b") == Latest(tasks, "b");
    AppendCounts(tasks, FollowUp(t, "3", Queued), "repo");
    AppendCounts([], u, "repo");
    AppendCounts([u], t, "repo");
    assert [] + [u] == [u] && [u] + [t] == tasks;
    assert InFlightIn([], "repo") == 0 && !TaskStore.InFlight(Succeeded);
  }
}
