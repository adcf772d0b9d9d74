/** The task table with its per-workdir lock, wait queue and cached score
    (internal/tasks/store.go, heartbeat.go). Every operation is one transaction. */
module TaskStore {
  import opened Paths
  import opened Score
  import opened Text
  import opened Wrappers

  datatype Task = Task(
    workdir: string, status: Status, idempotencyKey: string, sessionId: string, baseWorkdir: string,
    createdAt: int, updatedAt: int, startedAt: Option<int>, finishedAt: Option<int>,
    stderrCount: nat, keywordCount: nat, exitCode: Option<int>, error: string, score: nat)

  type Tasks = map<string, Task>

  datatype Stream = Stdout | Stderr | System | Assistant

  datatype Log = Log(taskId: string, stream: Stream, message: string)

  /** Holds the workdir. */
  predicate Active(s: Status) {
    s in {Queued, Running, AwaitingApproval}
  }

  /** Holds the workdir or waits for it. */
  predicate InFlight(s: Status) {
    Active(s) || s == Waiting
  }

  predicate Terminal(s: Status) {
    !InFlight(s)
  }

  predicate ActiveOn(tasks: Tasks, workdir: string, id: string) {
    id in tasks && tasks[id].workdir == workdir && Active(tasks[id].status)
  }

  predicate WaitingOn(tasks: Tasks, workdir: string, id: string) {
    id in tasks && tasks[id].workdir == workdir && tasks[id].status == Waiting
  }

  predicate Occupied(tasks: Tasks, workdir: string) {
    exists id | id in tasks :: ActiveOn(tasks, workdir, id)
  }

  predicate Busy(tasks: Tasks, workdir: string) {
    exists id | id in tasks :: ActiveOn(tasks, workdir, id) || WaitingOn(tasks, workdir, id)
  }

  predicate OldestWaiting(tasks: Tasks, workdir: string, id: string) {
    && WaitingOn(tasks, workdir, id)
    && forall k | k in tasks :: WaitingOn(tasks, workdir, k) ==> tasks[id].createdAt <= tasks[k].createdAt
  }

  lemma {:induction false} OldestWaitingExists(tasks: Tasks, workdir: string, ids: set<string>) returns (id: string)
    requires ids != {} && forall k :: k in ids ==> k in tasks
    ensures id in ids && forall k :: k in ids ==> tasks[id].createdAt <= tasks[k].createdAt
    decreases ids
  {
    id :| id in ids;
    if ids != {id} {
      var k := OldestWaitingExists(tasks, workdir, ids - {id});
      if tasks[k].createdAt < tasks[id].createdAt { id := k; }
    }
  }

  lemma {:induction false} NewestExists(tasks: Tasks, ids: set<string>) returns (id: string)
    requires ids != {} && forall k :: k in ids ==> k in tasks
    ensures id in ids && forall k :: k in ids ==> tasks[k].createdAt <= tasks[id].createdAt
    decreases ids
  {
    id :| id in ids;
    if ids != {id} {
      var k := NewestExists(tasks, ids - {id});
      if tasks[k].createdAt > tasks[id].createdAt { id := k; }
    }
  }

  // ------------------------------------------------- operations on the table

  datatype Strategy = Exclusive | Wait | Worktree | UnknownStrategy
  datatype Mode = ModeNew | ModeResume | UnknownMode

  datatype CreateInput = CreateInput(
    workerType: string, mode: Mode, sessionId: string, prompt: string, workdir: string,
    strategy: Strategy, idempotencyKey: string, baseWorkdir: string, worktreeDir: string, worktreeBranch: string,
    networkTierValid: bool)

  datatype CreateError =
    | WorkerTypeRequired | SessionRequired | InvalidMode | PromptRequired | InvalidStrategy
    | WorkdirBusy(existing: string) | InvalidNetworkTier | WorktreeIncomplete

  datatype CreateReply = Created | Replayed(id: string) | Refused(why: CreateError)

  /** filepath.Clean; the empty path becomes ".". */
  function CleanDir(dir: string): string {
    Clean(dir)
  }

  predicate HasKey(tasks: Tasks, key: string) {
    key != "" && exists id | id in tasks :: tasks[id].idempotencyKey == key
  }

  function InputError(input: CreateInput): Option<CreateError> {
    if input.workerType == "" then Some(WorkerTypeRequired)
    else if input.mode == UnknownMode then Some(InvalidMode)
    else if input.mode == ModeResume && input.sessionId == "" then Some(SessionRequired)
    else if input.prompt == "" then Some(PromptRequired)
    else if input.strategy == UnknownStrategy then Some(InvalidStrategy)
    else None
  }

  /** Whether the directory is seen as missing: it is trimmed, cleaned, trimmed again. */
  predicate SeenAsMissing(dir: string) {
    Trim(CleanDir(Trim(dir))) == ""
  }

  /** Errors found after the row was inserted, which roll the insert back. */
  function LateError(input: CreateInput): Option<CreateError> {
    if !input.networkTierValid then Some(InvalidNetworkTier)
    else if input.strategy == Worktree
            && (|| SeenAsMissing(input.baseWorkdir) || SeenAsMissing(input.worktreeDir)
                || Trim(input.worktreeBranch) == "")
    then Some(WorktreeIncomplete)
    else None
  }

  function NewTask(input: CreateInput, status: Status, now: int): Task {
    Task(CleanDir(input.workdir), status, Trim(input.idempotencyKey), input.sessionId,
         if input.strategy == Worktree then CleanDir(Trim(input.baseWorkdir)) else "",
         now, now, None, None, 0, 0, None, "", 0)
  }

  predicate InFlightOn(tasks: Tasks, dir: string, id: string) {
    ActiveOn(tasks, dir, id) || WaitingOn(tasks, dir, id)
  }

  predicate NewestInFlight(tasks: Tasks, dir: string, id: string) {
    && InFlightOn(tasks, dir, id)
    && forall k | k in tasks :: InFlightOn(tasks, dir, k) ==> tasks[k].createdAt <= tasks[id].createdAt
  }

  /** The reply, but for the choice among tasks created in the same millisecond. */
  predicate IsReply(tasks: Tasks, input: CreateInput, r: CreateReply) {
    var dir := CleanDir(input.workdir);
    if InputError(input).Some? then r == Refused(InputError(input).value)
    else if HasKey(tasks, Trim(input.idempotencyKey)) then
      r.Replayed? && r.id in tasks && tasks[r.id].idempotencyKey == Trim(input.idempotencyKey)
    else if Busy(tasks, dir) && input.strategy != Wait then
      r.Refused? && r.why.WorkdirBusy? && NewestInFlight(tasks, dir, r.why.existing)
    else if LateError(input).Some? then r == Refused(LateError(input).value)
    else r == Created
  }

  predicate Accepts(tasks: Tasks, input: CreateInput) {
    && InputError(input).None? && !HasKey(tasks, Trim(input.idempotencyKey))
    && (Busy(tasks, CleanDir(input.workdir)) ==> input.strategy == Wait)
    && LateError(input).None?
  }

  function AfterCreate(tasks: Tasks, id: string, input: CreateInput, now: int): Tasks {
    if !Accepts(tasks, input) then tasks
    else tasks[id := NewTask(input, if Busy(tasks, CleanDir(input.workdir)) then Waiting else Queued, now)]
  }

  function AfterDequeue(tasks: Tasks, id: string, now: int): Tasks
    requires id in tasks
  {
    tasks[id := tasks[id].(status := Queued, updatedAt := now)]
  }

  function AfterSetRunning(tasks: Tasks, id: string, now: int): Tasks {
    if id in tasks && tasks[id].status == Queued
    then tasks[id := tasks[id].(status := Running, startedAt := Some(now), updatedAt := now)]
    else tasks
  }

  function Rescored(t: Task): Task {
    t.(score := ScoreOf(t.status, t.stderrCount, t.keywordCount, t.exitCode))
  }

  function AfterSetStatus(tasks: Tasks, id: string, status: Status, now: int): Tasks {
    if id in tasks then tasks[id := Rescored(tasks[id].(status := status, updatedAt := now))] else tasks
  }

  datatype FinishInput = FinishInput(
    status: Status, exitCode: Option<int>, error: string, sessionId: string, finishedAt: int)

  /** A terminal status chosen by another actor stays. */
  predicate FinishApplies(tasks: Tasks, id: string, input: FinishInput) {
    id in tasks && (Terminal(tasks[id].status) ==> tasks[id].status == input.status)
  }

  function AfterFinish(tasks: Tasks, id: string, input: FinishInput): Tasks {
    if !FinishApplies(tasks, id, input) then tasks
    else
      var t := tasks[id];
      tasks[id := Rescored(t.(status := input.status, exitCode := input.exitCode, error := input.error,
        sessionId := if input.sessionId != "" then input.sessionId else t.sessionId,
        finishedAt := Some(input.finishedAt), updatedAt := input.finishedAt))]
  }

  function AfterMarkInterrupted(tasks: Tasks, now: int): Tasks {
    map id | id in tasks ::
      if Active(tasks[id].status) then tasks[id].(status := Interrupted, updatedAt := now) else tasks[id]
  }

  function AfterAppendLog(tasks: Tasks, id: string, stream: Stream, message: string, now: int): Tasks {
    if id !in tasks then tasks
    else
      var t := tasks[id];
      tasks[id := Rescored(t.(
        stderrCount := t.stderrCount + (if stream == Stderr then 1 else 0),
        keywordCount := t.keywordCount + |Hits(message)|, updatedAt := now))]
  }

  predicate Stale(t: Task, staleBefore: int) {
    t.finishedAt.None? && Active(t.status) && t.updatedAt <= staleBefore
  }

  function AfterInterruptStale(tasks: Tasks, id: string, staleBefore: int, finishedAt: int, reason: string): Tasks {
    if id in tasks && Stale(tasks[id], staleBefore)
    then tasks[id := Rescored(tasks[id].(status := Interrupted, error := reason,
                finishedAt := Some(finishedAt), updatedAt := finishedAt))]
    else tasks
  }

  // ------------------------------------------------------------- the store

  class Store {
    var tasks: Tasks
    var logs: seq<Log>

    constructor ()
      ensures tasks == map[] && logs == []
    {
      tasks, logs := map[], [];
    }

    /** `id` is a fresh random id. */
    method CreateTask(id: string, input: CreateInput, now: int) returns (r: CreateReply)
      requires id !in tasks
      modifies this`tasks
      ensures tasks == AfterCreate(old(tasks), id, input, now)
      ensures IsReply(old(tasks), input, r)
      ensures r.Created? <==> Accepts(old(tasks), input)
    {
      var bad := InputError(input);
      if bad.Some? { return Refused(bad.value); }
      var key := Trim(input.idempotencyKey);
      if HasKey(tasks, key) {
        var k :| k in tasks && tasks[k].idempotencyKey == key;
        return Replayed(k);
      }
      var dir := CleanDir(input.workdir);
      var status := Queued;
      if Busy(tasks, dir) {
        if input.strategy != Wait {
          var newest := NewestOn(dir);
          return Refused(WorkdirBusy(newest));
        }
        status := Waiting;
      }
      var late := LateError(input);
      if late.Some? { return Refused(late.value); }
      tasks := tasks[id := NewTask(input, status, now)];
      return Created;
    }

    method NewestOn(dir: string) returns (id: string)
      requires Busy(tasks, dir)
      ensures NewestInFlight(tasks, dir, id)
    {
      ghost var some :| some in tasks && InFlightOn(tasks, dir, some);
      ghost var ids := set k | k in tasks && InFlightOn(tasks, dir, k);
      assert some in ids;
      ghost var newest := NewestExists(tasks, ids);
      assert NewestInFlight(tasks, dir, newest);
      id :| id in tasks && NewestInFlight(tasks, dir, id);
    }

    method DequeueNextWaitingForWorkdir(workdir: string, now: int) returns (next: Option<string>)
      modifies this`tasks
      ensures next.None? <==>
        Occupied(old(tasks), CleanDir(workdir)) || forall k :: !WaitingOn(old(tasks), CleanDir(workdir), k)
      ensures next.None? ==> tasks == old(tasks)
      ensures next.Some? ==>
        && OldestWaiting(old(tasks), CleanDir(workdir), next.value)
        && tasks == AfterDequeue(old(tasks), next.value, now)
    {
      var dir := CleanDir(workdir);
      if Occupied(tasks, dir) { return None; }
      var waiting := set k | k in tasks && WaitingOn(tasks, dir, k);
      if waiting == {} {
        assert forall k :: WaitingOn(tasks, dir, k) ==> k in waiting;
        return None;
      }
      ghost var first := OldestWaitingExists(tasks, dir, waiting);
      assert OldestWaiting(tasks, dir, first);
      var id :| id in tasks && OldestWaiting(tasks, dir, id);
      tasks := tasks[id := tasks[id].(status := Queued, updatedAt := now)];
      return Some(id);
    }

    method SetRunning(id: string, now: int) returns (ok: bool)
      modifies this`tasks
      ensures ok <==> id in old(tasks) && old(tasks)[id].status == Queued
      ensures tasks == AfterSetRunning(old(tasks), id, now)
    {
      ok := id in tasks && tasks[id].status == Queued;
      if ok {
        tasks := tasks[id := tasks[id].(status := Running, startedAt := Some(now), updatedAt := now)];
      }
    }

    /** SetBlocked, SetAwaitingApproval, SetRunningStatus and SetCanceled. */
    method SetStatus(id: string, status: Status, now: int) returns (found: bool)
      modifies this`tasks
      ensures found <==> id in old(tasks)
      ensures tasks == AfterSetStatus(old(tasks), id, status, now)
    {
      if id !in tasks { return false; }
      var t := tasks[id];
      var score := ComputeScore(status, t.stderrCount, t.keywordCount, t.exitCode);
      tasks := tasks[id := t.(status := status, score := score, updatedAt := now)];
      return true;
    }

    method FinishTask(id: string, input: FinishInput) returns (found: bool)
      modifies this`tasks
      ensures found <==> id in old(tasks)
      ensures tasks == AfterFinish(old(tasks), id, input)
    {
      if id !in tasks { return false; }
      var t := tasks[id];
      if Terminal(t.status) && t.status != input.status { return true; }
      var score := ComputeScore(input.status, t.stderrCount, t.keywordCount, input.exitCode);
      var sessionId := if input.sessionId != "" then input.sessionId else t.sessionId;
      tasks := tasks[id := t.(status := input.status, sessionId := sessionId, exitCode := input.exitCode,
        error := input.error, score := score, finishedAt := Some(input.finishedAt), updatedAt := input.finishedAt)];
      return true;
    }

    method MarkInterrupted(now: int) returns (n: nat)
      modifies this`tasks
      ensures tasks == AfterMarkInterrupted(old(tasks), now)
      ensures n == |set id | id in old(tasks) && Active(old(tasks)[id].status)|
    {
      n := |set id | id in tasks && Active(tasks[id].status)|;
      tasks := map id | id in tasks ::
        if Active(tasks[id].status) then tasks[id].(status := Interrupted, updatedAt := now) else tasks[id];
    }

    method AppendLog(id: string, stream: Stream, message: string, now: int) returns (ok: bool)
      modifies this
      ensures ok <==> id in old(tasks)
      ensures tasks == AfterAppendLog(old(tasks), id, stream, message, now)
      ensures logs == if ok then old(logs) + [Log(id, stream, message)] else old(logs)
    {
      if id !in tasks { return false; }
      var t := tasks[id];
      var stderrCount := t.stderrCount;
      if stream == Stderr { stderrCount := stderrCount + 1; }
      var hits := CountKeywordHits(message);
      var keywordCount := t.keywordCount + hits;
      var score := ComputeScore(t.status, stderrCount, keywordCount, t.exitCode);
      logs := logs + [Log(id, stream, message)];
      tasks := tasks[id := t.(stderrCount := stderrCount, keywordCount := keywordCount, score := score,
                              updatedAt := now)];
      return true;
    }

    /** None when the task does not exist. */
    method InterruptTaskIfStaleInFlight(id: string, staleBefore: int, finishedAt: int, reason: string)
      returns (hit: Option<bool>)
      modifies this`tasks
      ensures hit.None? <==> id !in old(tasks)
      ensures hit.Some? ==> (hit.value <==> Stale(old(tasks)[id], staleBefore))
      ensures tasks == AfterInterruptStale(old(tasks), id, staleBefore, finishedAt, reason)
    {
      if id !in tasks { return None; }
      var t := tasks[id];
      var score := ComputeScore(Interrupted, t.stderrCount, t.keywordCount, t.exitCode);
      if t.finishedAt.None? && t.status in {Queued, Running, AwaitingApproval} && t.updatedAt <= staleBefore {
        tasks := tasks[id := t.(status := Interrupted, error := reason, score := score,
          finishedAt := Some(finishedAt), updatedAt := finishedAt)];
        return Some(true);
      }
      return Some(false);
    }
  }

  // ------------------------------------------------------------- whole runs

  /** The database, and the tasks whose cached score MarkInterrupted left behind. */
  datatype World = World(tasks: Tasks, logs: seq<Log>, drifted: set<string>)

  datatype Event =
    | Create(id: string, input: CreateInput, now: int)
    | Dequeue(workdir: string, id: string, now: int)
    | MarkRunning(id: string, now: int)
    | SetStatusTo(id: string, status: Status, now: int)
    | Finish(id: string, fin: FinishInput)
    | InterruptAll(now: int)
    | AddLog(id: string, stream: Stream, message: string, now: int)
    | InterruptStale(id: string, staleBefore: int, finishedAt: int, reason: string)

  /** What the operations themselves guarantee, and what callers keep to: a run
      finishes with a terminal status, and only an active task is moved to
      awaiting_approval or back to running. */
  predicate Enabled(w: World, e: Event) {
    match e
    case Create(id, _, _) => id !in w.tasks
    case Dequeue(dir, id, _) => !Occupied(w.tasks, dir) && OldestWaiting(w.tasks, dir, id)
    case SetStatusTo(id, s, _) =>
      && s in {Blocked, AwaitingApproval, Running, Canceled}
      && (id in w.tasks && Active(s) ==> Active(w.tasks[id].status))
    case Finish(_, fin) => Terminal(fin.status)
    case _ => true
  }

  function Apply(w: World, e: Event): World
    requires Enabled(w, e)
  {
    match e
    case Create(id, input, now) => w.(tasks := AfterCreate(w.tasks, id, input, now))
    case Dequeue(_, id, now) => w.(tasks := AfterDequeue(w.tasks, id, now))
    case MarkRunning(id, now) => w.(tasks := AfterSetRunning(w.tasks, id, now))
    case SetStatusTo(id, s, now) => w.(tasks := AfterSetStatus(w.tasks, id, s, now), drifted := w.drifted - {id})
    case Finish(id, fin) =>
      w.(tasks := AfterFinish(w.tasks, id, fin),
         drifted := if FinishApplies(w.tasks, id, fin) then w.drifted - {id} else w.drifted)
    case InterruptAll(now) =>
      w.(tasks := AfterMarkInterrupted(w.tasks, now),
         drifted := w.drifted + set id | id in w.tasks && w.tasks[id].status == AwaitingApproval)
    case AddLog(id, stream, message, now) =>
      if id !in w.tasks then w
      else World(AfterAppendLog(w.tasks, id, stream, message, now), w.logs + [Log(id, stream, message)],
                 w.drifted - {id})
    case InterruptStale(id, before, at, reason) =>
      w.(tasks := AfterInterruptStale(w.tasks, id, before, at, reason))
  }

  ghost predicate Next(w: World, w': World) {
    exists e :: Enabled(w, e) && w' == Apply(w, e)
  }

  ghost predicate Run(ws: seq<World>) {
    && |ws| > 0 && ws[0] == World(map[], [], {})
    && forall i :: 0 <= i < |ws| - 1 ==> Next(ws[i], ws[i + 1])
  }

  /** At most one task per workdir is queued, running or awaiting approval. */
  predicate Exclusion(tasks: Tasks) {
    forall a, b | a in tasks && b in tasks ::
      Active(tasks[a].status) && Active(tasks[b].status) && tasks[a].workdir == tasks[b].workdir ==> a == b
  }

  predicate KeysUnique(tasks: Tasks) {
    forall a, b | a in tasks && b in tasks ::
      tasks[a].idempotencyKey == tasks[b].idempotencyKey != "" ==> a == b
  }

  function StderrLogs(logs: seq<Log>, id: string): nat {
    if logs == [] then 0 else
    var last := logs[|logs| - 1];
    StderrLogs(logs[..|logs| - 1], id) + (if last.taskId == id && last.stream == Stderr then 1 else 0)
  }

  function KeywordTotal(logs: seq<Log>, id: string): nat {
    if logs == [] then 0 else
    var last := logs[|logs| - 1];
    KeywordTotal(logs[..|logs| - 1], id) + (if last.taskId == id then |Hits(last.message)| else 0)
  }

  /** The counters are the fold over all appended logs. */
  predicate CountedAt(w: World, id: string) {
    id in w.tasks ==>
      && w.tasks[id].stderrCount == StderrLogs(w.logs, id)
      && w.tasks[id].keywordCount == KeywordTotal(w.logs, id)
  }

  function Drift(w: World, id: string): int {
    if id in w.drifted then BLOCKED_BONUS else 0
  }

  /** The cached score is the computed one, or too high by exactly the blocked bonus
      where it drifted. */
  predicate RatedAt(w: World, id: string) {
    && (id in w.drifted ==> id in w.tasks && w.tasks[id].status == Interrupted)
    && (id in w.tasks ==>
      var t := w.tasks[id];
      t.score == ScoreOf(t.status, t.stderrCount, t.keywordCount, t.exitCode) + Drift(w, id))
  }

  predicate ScoredAt(w: World, id: string) {
    CountedAt(w, id) && RatedAt(w, id)
  }

  predicate LogsKnown(w: World) {
    forall i :: 0 <= i < |w.logs| ==> w.logs[i].taskId in w.tasks
  }

  lemma {:induction false} NoLogsNoCounts(logs: seq<Log>, id: string)
    requires forall i :: 0 <= i < |logs| ==> logs[i].taskId != id
    ensures StderrLogs(logs, id) == 0 && KeywordTotal(logs, id) == 0
  {
    if logs != [] {
      NoLogsNoCounts(logs[..|logs| - 1], id);
    }
  }

  lemma StepKeepsCounts(w: World, e: Event, id: string)
    requires CountedAt(w, id) && LogsKnown(w) && Enabled(w, e)
    ensures CountedAt(Apply(w, e), id) && LogsKnown(Apply(w, e))
  {
    match e
    case Create(k, _, _) =>
      NoLogsNoCounts(w.logs, k);
    case AddLog(_, _, _, _) =>
      LogCounts(w, e, id);
    case _ =>
      OtherStepsKeepCounts(w, e, id);
  }

  lemma LogCounts(w: World, e: Event, id: string)
    requires CountedAt(w, id) && LogsKnown(w) && e.AddLog?
    ensures CountedAt(Apply(w, e), id) && LogsKnown(Apply(w, e))
  {
    if e.id in w.tasks {
      var logs' := w.logs + [Log(e.id, e.stream, e.message)];
      assert logs'[..|logs'| - 1] == w.logs;
    }
  }

  lemma OtherStepsKeepCounts(w: World, e: Event, id: string)
    requires Enabled(w, e) && !e.Create? && !e.AddLog?
    ensures var w' := Apply(w, e); w'.logs == w.logs && w'.tasks.Keys == w.tasks.Keys
    ensures id in w.tasks ==> var t, t' := w.tasks[id], Apply(w, e).tasks[id];
      t'.stderrCount == t.stderrCount && t'.keywordCount == t.keywordCount
  {
  }

  lemma StepKeepsRating(w: World, e: Event, id: string)
    requires RatedAt(w, id) && Enabled(w, e)
    ensures RatedAt(Apply(w, e), id)
  {
  }

  /** Every operation keeps every task's score and counters, at any task. */
  lemma StepKeepsScore(w: World, e: Event, id: string)
    requires ScoredAt(w, id) && LogsKnown(w) && Enabled(w, e)
    ensures ScoredAt(Apply(w, e), id) && LogsKnown(Apply(w, e))
  {
    StepKeepsCounts(w, e, id);
    StepKeepsRating(w, e, id);
  }

  lemma CreateKeepsExclusion(tasks: Tasks, id: string, input: CreateInput, now: int)
    requires Exclusion(tasks) && KeysUnique(tasks) && id !in tasks
    ensures var after := AfterCreate(tasks, id, input, now); Exclusion(after) && KeysUnique(after)
  {
    var dir, key := CleanDir(input.workdir), Trim(input.idempotencyKey);
    forall a ensures a in tasks && ActiveOn(tasks, dir, a) ==> Busy(tasks, dir) { }
    forall a ensures a in tasks && tasks[a].idempotencyKey == key != "" ==> HasKey(tasks, key) { }
  }

  lemma DequeueKeepsExclusion(tasks: Tasks, dir: string, id: string, now: int)
    requires Exclusion(tasks) && KeysUnique(tasks) && !Occupied(tasks, dir) && WaitingOn(tasks, dir, id)
    ensures var after := AfterDequeue(tasks, id, now); Exclusion(after) && KeysUnique(after)
  {
    forall a ensures a in tasks && ActiveOn(tasks, dir, a) ==> Occupied(tasks, dir) { }
  }

  lemma StepKeepsExclusion(w: World, e: Event)
    requires Exclusion(w.tasks) && KeysUnique(w.tasks) && Enabled(w, e)
    ensures Exclusion(Apply(w, e).tasks) && KeysUnique(Apply(w, e).tasks)
  {
    match e
    case Create(id, input, now) => CreateKeepsExclusion(w.tasks, id, input, now);
    case Dequeue(dir, id, now) => DequeueKeepsExclusion(w.tasks, dir, id, now);
    case _ => OtherStepsKeepExclusion(w, e);
  }

  lemma OtherStepsKeepExclusion(w: World, e: Event)
    requires Exclusion(w.tasks) && KeysUnique(w.tasks) && Enabled(w, e) && !e.Create? && !e.Dequeue?
    ensures Exclusion(Apply(w, e).tasks) && KeysUnique(Apply(w, e).tasks)
  {
    var tasks, after := w.tasks, Apply(w, e).tasks;
    assert after.Keys == tasks.Keys;
    forall a | a in tasks
      ensures Active(after[a].status) ==> Active(tasks[a].status)
      ensures after[a].workdir == tasks[a].workdir && after[a].idempotencyKey == tasks[a].idempotencyKey
    {
      OtherStepsActivateNone(w, e, a);
    }
  }

  lemma OtherStepsActivateNone(w: World, e: Event, a: string)
    requires Enabled(w, e) && !e.Create? && !e.Dequeue? && a in w.tasks
    ensures var t, t' := w.tasks[a], Apply(w, e).tasks[a];
      && (Active(t'.status) ==> Active(t.status))
      && t'.workdir == t.workdir && t'.idempotencyKey == t.idempotencyKey
  {
  }

  lemma {:induction false} RunInvariant(ws: seq<World>, i: nat)
    requires Run(ws) && i < |ws|
    ensures Exclusion(ws[i].tasks) && KeysUnique(ws[i].tasks)
    ensures LogsKnown(ws[i]) && forall id :: ScoredAt(ws[i], id)
  {
    if i > 0 {
      RunInvariant(ws, i - 1);
      assert Next(ws[i - 1], ws[i]);
      var e :| Enabled(ws[i - 1], e) && ws[i] == Apply(ws[i - 1], e);
      StepKeepsExclusion(ws[i - 1], e);
      forall id ensures ScoredAt(ws[i], id) && LogsKnown(ws[i]) {
        StepKeepsScore(ws[i - 1], e, id);
      }
      StepKeepsScore(ws[i - 1], e, "");
    }
  }

  /** Mutual exclusion in every reachable state, idempotency keys never shared. */
  lemma MutualExclusion(ws: seq<World>, i: nat, a: string, b: string)
    requires Run(ws) && i < |ws| && a in ws[i].tasks && b in ws[i].tasks && a != b
    ensures var t, u := ws[i].tasks[a], ws[i].tasks[b];
      && (t.workdir == u.workdir ==>
           !(t.status in {Queued, Running, AwaitingApproval} && u.status in {Queued, Running, AwaitingApproval}))
      && (t.idempotencyKey != "" ==> t.idempotencyKey != u.idempotencyKey)
  {
    RunInvariant(ws, i);
  }

  /** The unguarded setStatus keeps mutual exclusion exactly when it does not
      activate a task whose workdir another task holds. */
  lemma SetStatusKeepsExclusionIff(tasks: Tasks, id: string, status: Status, now: int)
    requires Exclusion(tasks)
    ensures Exclusion(AfterSetStatus(tasks, id, status, now)) <==>
      (id in tasks && Active(status) ==> forall k :: ActiveOn(tasks, tasks[id].workdir, k) ==> k == id)
  {
    var after := AfterSetStatus(tasks, id, status, now);
    assert forall k :: k in after <==> k in tasks;
    if id in tasks && Active(status) && Exclusion(after) {
      forall k | ActiveOn(tasks, tasks[id].workdir, k) ensures k == id {
        assert k in after && id in after;
      }
    }
    if id in tasks && Active(status) && forall k :: ActiveOn(tasks, tasks[id].workdir, k) ==> k == id {
      forall a | a in after && Active(after[a].status) && after[a].workdir == after[id].workdir ensures a == id {
        if a != id { assert ActiveOn(tasks, tasks[id].workdir, a); }
      }
    }
  }

  function PlainInput(strategy: Strategy): CreateInput {
    CreateInput("worker", ModeNew, "", "prompt", ".", strategy, "", "", "", "", true)
  }

  lemma Extend(ws: seq<World>, e: Event)
    requires Run(ws) && Enabled(ws[|ws| - 1], e)
    ensures Run(ws + [Apply(ws[|ws| - 1], e)])
  {
    var ws' := ws + [Apply(ws[|ws| - 1], e)];
    forall i | 0 <= i < |ws'| - 1 ensures Next(ws'[i], ws'[i + 1]) {
      if i < |ws| - 1 { assert Next(ws[i], ws[i + 1]); }
    }
  }

  /** The task awaits an approval; nothing else is there. */
  predicate AwaitingAlone(w: World) {
    && w.tasks.Keys == {"a"}
    && var t := w.tasks["a"];
      && t.status == AwaitingApproval && t.workdir == "." && t.finishedAt.None?
      && t.createdAt == 1 && t.updatedAt == 3 && t.idempotencyKey == ""
  }

  lemma StoryCreates() returns (ws: seq<World>)
    ensures Run(ws) && |ws| == 2 && ws[1].tasks == map["a" := NewTask(PlainInput(Exclusive), Queued, 1)]
  {
    CleanKeepsClean(".");
    TrimIsTrimmed("");
    ws := [World(map[], [], {})];
    var e := Create("a", PlainInput(Exclusive), 1);
    Extend(ws, e);
    ws := ws + [Apply(ws[0], e)];
  }

  lemma StoryBegins() returns (ws: seq<World>)
    ensures Run(ws) && |ws| == 4 && AwaitingAlone(ws[3])
  {
    CleanKeepsClean(".");
    TrimIsTrimmed("");
    ws := StoryCreates();
    Extend(ws, MarkRunning("a", 2));
    ws := ws + [Apply(ws[1], MarkRunning("a", 2))];
    Extend(ws, SetStatusTo("a", AwaitingApproval, 3));
    ws := ws + [Apply(ws[2], SetStatusTo("a", AwaitingApproval, 3))];
  }

  predicate BehindInterrupted(w: World, b: Status) {
    && w.tasks.Keys == {"a", "b"} && w.tasks["a"].status == Interrupted && w.tasks["b"].status == b
    && w.tasks["a"].workdir == w.tasks["b"].workdir == "."
  }

  lemma StoryGoesOn(ws: seq<World>, w: World) returns (ws': seq<World>)
    requires Run(ws) && w == ws[|ws| - 1] && AwaitingAlone(w)
    ensures Run(ws') && |ws'| == |ws| + 2 && ws <= ws' && BehindInterrupted(ws'[|ws'| - 1], Waiting)
  {
    CleanKeepsClean(".");
    TrimIsTrimmed("");
    assert InFlightOn(w.tasks, ".", "a");
    var e := Create("b", PlainInput(Wait), 4);
    Extend(ws, e);
    var v := Apply(w, e);
    assert v.tasks == w.tasks["b" := NewTask(e.input, Waiting, 4)];
    Extend(ws + [v], InterruptStale("a", 5, 6, "stale"));
    ws' := ws + [v] + [Apply(v, InterruptStale("a", 5, 6, "stale"))];
  }

  lemma StoryEnds(ws: seq<World>, w: World) returns (ws': seq<World>)
    requires Run(ws) && w == ws[|ws| - 1] && BehindInterrupted(w, Waiting)
    ensures Run(ws') && |ws'| == |ws| + 1 && ws <= ws' && BehindInterrupted(ws'[|ws'| - 1], Queued)
  {
    CleanKeepsClean(".");
    assert OldestWaiting(w.tasks, ".", "b") && !Occupied(w.tasks, ".");
    Extend(ws, Dequeue(".", "b", 7));
    ws' := ws + [Apply(w, Dequeue(".", "b", 7))];
  }

  /** It can fail: in a reachable state, a task that awaited an approval was interrupted
      by the watchdog, and the waiting task promoted; if the first is now put back to
      running, two tasks are active on the workdir. */
  lemma ResumingAnInterruptedRunBreaksExclusion() returns (ws: seq<World>, now: int)
    ensures Run(ws) && |ws| == 7 && AwaitingAlone(ws[3]) && BehindInterrupted(ws[6], Queued)
    ensures Exclusion(ws[6].tasks) && !Exclusion(AfterSetStatus(ws[6].tasks, "a", Running, now))
  {
    var begun := StoryBegins();
    var gone := StoryGoesOn(begun, begun[3]);
    ws := StoryEnds(gone, gone[5]);
    now := 8;
    RunInvariant(ws, 6);
    var t := ws[6].tasks;
    assert ActiveOn(t, t["a"].workdir, "b");
    SetStatusKeepsExclusionIff(t, "a", Running, now);
  }

  // ----------------------------------------------------- worktree requests

  /** A worktree request that passes the earlier checks is refused exactly when its
      branch is blank, or a directory is cleaned down to nothing but white space. */
  lemma WorktreeRefusedIff(tasks: Tasks, input: CreateInput, r: CreateReply)
    requires IsReply(tasks, input, r) && InputError(input).None? && !HasKey(tasks, Trim(input.idempotencyKey))
    requires input.strategy == Worktree && !Busy(tasks, CleanDir(input.workdir)) && input.networkTierValid
    ensures r.Refused? <==>
      || White(input.worktreeBranch)
      || White(CleanDir(Trim(input.baseWorkdir))) || White(CleanDir(Trim(input.worktreeDir)))
    ensures r.Refused? ==> r.why == WorktreeIncomplete
  {
    TrimEmptyIsWhite(input.worktreeBranch);
    TrimEmptyIsWhite(CleanDir(Trim(input.baseWorkdir)));
    TrimEmptyIsWhite(CleanDir(Trim(input.worktreeDir)));
  }

  /** So missing directories are accepted: each becomes ".". */
  lemma MissingDirectoriesAreAccepted(input: CreateInput, r: CreateReply)
    requires IsReply(map[], input, r) && InputError(input).None? && input.strategy == Worktree && input.networkTierValid
    requires White(input.baseWorkdir) && White(input.worktreeDir) && !White(input.worktreeBranch)
    ensures r == Created && NewTask(input, Queued, 0).baseWorkdir == "."
  {
    TrimEmptyIsWhite(input.baseWorkdir);
    TrimEmptyIsWhite(input.worktreeDir);
    TrimEmptyIsWhite(input.worktreeBranch);
    TrimIsTrimmed(".");
  }

  /** What the check does refuse: a directory such as "./ /." */
  lemma BlankDirectoryIsRefused()
    ensures SeenAsMissing("." + "/" + " " + "/" + ".")
  {
    var dir := "." + "/" + " " + "/" + ".";
    TrimIsTrimmed(dir);
    BlankDirectoryParts(dir);
    assert Walk([], [".", " ", "."], false) == Walk([], [" ", "."], false) == Walk([" "], ["."], false) == [" "];
    TrimEmptyIsWhite(" ");
  }

  lemma BlankDirectoryParts(dir: string)
    requires dir == "." + "/" + " " + "/" + "."
    ensures SplitSlash(dir) == [".", " ", "."]
  {
    SplitJoins("." + "/" + " ", ".");
    SplitJoins(".", " ");
    SplitPart(".");
    SplitPart(" ");
  }

  // ------------------------------------------- what each operation does

  /** Some task is in flight on the directory: queued, running, awaiting approval, or
      waiting. */
  predicate Taken(tasks: Tasks, dir: string) {
    exists id | id in tasks :: IsInFlight(tasks[id], dir)
  }

  predicate IsInFlight(t: Task, dir: string) {
    t.workdir == dir && t.status in {Queued, Running, AwaitingApproval, Waiting}
  }

  /** The task holds the directory. */
  predicate IsHolding(t: Task, dir: string) {
    t.workdir == dir && t.status in {Queued, Running, AwaitingApproval}
  }

  predicate KeyGiven(tasks: Tasks, key: string) {
    key != "" && exists id | id in tasks :: tasks[id].idempotencyKey == key
  }

  /** The request itself is in order. */
  predicate InOrder(input: CreateInput) {
    && input.workerType != "" && input.prompt != "" && input.mode != UnknownMode && input.strategy != UnknownStrategy
    && (input.mode == ModeResume ==> input.sessionId != "")
  }

  lemma InputErrors(input: CreateInput, e: Option<CreateError>)
    requires e == InputError(input)
    ensures e.None? <==> InOrder(input)
    ensures e == Some(WorkerTypeRequired) <==> input.workerType == ""
    ensures e == Some(InvalidMode) <==> input.workerType != "" && input.mode == UnknownMode
    ensures e == Some(SessionRequired) <==> input.workerType != "" && input.mode == ModeResume && input.sessionId == ""
    ensures e == Some(PromptRequired) ==> input.prompt == ""
    ensures e == Some(InvalidStrategy) ==> input.prompt != "" && input.strategy == UnknownStrategy
    ensures e.Some? ==> e.value in {WorkerTypeRequired, InvalidMode, SessionRequired, PromptRequired, InvalidStrategy}
  {
  }

  /** The reply to a request that is in order: a replay of its key; else, on a directory
      taken by another, a refusal that names the newest task there, unless it may wait;
      else a refusal of its network tier or worktree, or a new task. */
  lemma CreateReplies(tasks: Tasks, input: CreateInput, r: CreateReply)
    requires IsReply(tasks, input, r) && InOrder(input)
    ensures var key, dir := Trim(input.idempotencyKey), Clean(input.workdir);
      && (r.Replayed? <==> KeyGiven(tasks, key))
      && (r.Replayed? ==> r.id in tasks && tasks[r.id].idempotencyKey == key)
      && (r.Refused? && r.why.WorkdirBusy? <==> !KeyGiven(tasks, key) && Taken(tasks, dir) && input.strategy != Wait)
      && (r.Refused? && r.why.WorkdirBusy? ==> IsNewest(tasks, dir, r.why.existing))
      && (r.Refused? && r.why == InvalidNetworkTier ==> !input.networkTierValid)
      && (r == Created ==> input.networkTierValid && !KeyGiven(tasks, key))
      && (r == Created && Taken(tasks, dir) ==> input.strategy == Wait)
      && (r.Refused? && r.why == WorktreeIncomplete ==> input.strategy == Worktree && input.networkTierValid)
      && (r.Refused? ==> r.why.WorkdirBusy? || r.why == InvalidNetworkTier || r.why == WorktreeIncomplete)
  {
    InputErrors(input, InputError(input));
    TakenIsBusy(tasks, Clean(input.workdir));
  }

  predicate IsNewest(tasks: Tasks, dir: string, id: string) {
    && id in tasks && IsInFlight(tasks[id], dir)
    && forall k | k in tasks :: IsInFlight(tasks[k], dir) ==> tasks[k].createdAt <= tasks[id].createdAt
  }

  lemma TakenIsBusy(tasks: Tasks, dir: string)
    ensures Taken(tasks, dir) <==> Busy(tasks, dir)
    ensures forall id :: id in tasks ==> (IsInFlight(tasks[id], dir) <==> InFlightOn(tasks, dir, id))
  {
    if Taken(tasks, dir) {
      var id :| id in tasks && IsInFlight(tasks[id], dir);
      assert InFlightOn(tasks, dir, id);
    }
    if Busy(tasks, dir) {
      var id :| id in tasks && (ActiveOn(tasks, dir, id) || WaitingOn(tasks, dir, id));
      assert IsInFlight(tasks[id], dir);
    }
  }

  /** The new row, and nothing but a new row, when there is one. */
  lemma CreateAdds(tasks: Tasks, id: string, input: CreateInput, now: int, r: CreateReply)
    requires IsReply(tasks, input, r) && id !in tasks
    ensures var after, dir := AfterCreate(tasks, id, input, now), Clean(input.workdir);
      if r == Created then
        after == tasks[id := Task(
          dir, if Taken(tasks, dir) then Waiting else Queued, Trim(input.idempotencyKey), input.sessionId,
          if input.strategy == Worktree then Clean(Trim(input.baseWorkdir)) else "",
          now, now, None, None, 0, 0, None, "", 0)]
      else after == tasks
  {
    TakenIsBusy(tasks, Clean(input.workdir));
    InputErrors(input, InputError(input));
  }

  /** A finish report changes nothing on a task settled otherwise already; on any other it
      sets status, exit code, error and times, and the session id if it has one. */
  lemma FinishSettles(w: World, id: string, fin: FinishInput)
    requires Enabled(w, Finish(id, fin))
    ensures var after := Apply(w, Finish(id, fin)).tasks;
      && (forall k :: k != id ==> (k in after <==> k in w.tasks) && (k in w.tasks ==> after[k] == w.tasks[k]))
      && (id in w.tasks <==> id in after)
      && (id in w.tasks ==>
        var t := w.tasks[id];
        if t.status in {Succeeded, Failed, Canceled, Interrupted, Blocked} && t.status != fin.status then after[id] == t
        else after[id] == Task(
          t.workdir, fin.status, t.idempotencyKey, if fin.sessionId == "" then t.sessionId else fin.sessionId,
          t.baseWorkdir, t.createdAt, fin.finishedAt, t.startedAt, Some(fin.finishedAt), t.stderrCount,
          t.keywordCount, fin.exitCode, fin.error, after[id].score))
  {
  }

  /** What each other step does to each task, its score apart. */
  predicate Becomes(e: Event, id: string, t: Task, t': Task) {
    match e
    case MarkRunning(k, now) =>
      t' == if k == id && t.status == Queued then t.(status := Running, startedAt := Some(now), updatedAt := now) else t
    case Dequeue(_, k, now) => t' == if k == id then t.(status := Queued, updatedAt := now) else t
    case SetStatusTo(k, status, now) =>
      t'.(score := t.score) == if k == id then t.(status := status, updatedAt := now) else t
    case InterruptAll(now) =>
      t' == if t.status in {Queued, Running, AwaitingApproval} then t.(status := Interrupted, updatedAt := now) else t
    case AddLog(k, stream, message, now) =>
      t'.(score := t.score) ==
        if k != id then t
        else t.(stderrCount := t.stderrCount + (if stream == Stderr then 1 else 0),
                keywordCount := t.keywordCount + |Hits(message)|, updatedAt := now)
    case InterruptStale(k, before, at, reason) =>
      t'.(score := t.score) ==
        if k == id && t.finishedAt == None && t.status in {Queued, Running, AwaitingApproval} && t.updatedAt <= before
        then t.(status := Interrupted, error := reason, finishedAt := Some(at), updatedAt := at)
        else t
    case _ => true
  }

  lemma StepsDoNoMore(w: World, e: Event, id: string)
    requires Enabled(w, e) && !e.Create?
    ensures id in Apply(w, e).tasks <==> id in w.tasks
    ensures id in w.tasks ==> Becomes(e, id, w.tasks[id], Apply(w, e).tasks[id])
    ensures e.Dequeue? ==>
      && e.id in w.tasks && w.tasks[e.id].workdir == e.workdir && w.tasks[e.id].status == Waiting
      && (forall k :: k in w.tasks && w.tasks[k].workdir == e.workdir ==>
           && w.tasks[k].status !in {Queued, Running, AwaitingApproval}
           && (w.tasks[k].status == Waiting ==> w.tasks[e.id].createdAt <= w.tasks[k].createdAt))
  {
    if e.Dequeue? {
      forall k | k in w.tasks && w.tasks[k].workdir == e.workdir
        ensures w.tasks[k].status !in {Queued, Running, AwaitingApproval}
        ensures w.tasks[k].status == Waiting ==> w.tasks[e.id].createdAt <= w.tasks[k].createdAt
      {
        assert !ActiveOn(w.tasks, e.workdir, k);
        assert w.tasks[k].status == Waiting ==> WaitingOn(w.tasks, e.workdir, k);
      }
    }
  }

  predicate IsSettled(s: Status) {
    s in {Succeeded, Failed, Canceled, Interrupted, Blocked}
  }

  /** A settled task keeps its status, unless it is blocked or canceled after all. */
  predicate StaysSettled(tasks: Tasks, after: Tasks, id: string) {
    id in tasks ==>
      && id in after
      && (IsSettled(tasks[id].status) ==>
           after[id].status == tasks[id].status || after[id].status == Blocked || after[id].status == Canceled)
  }

  lemma StepKeepsSettled(w: World, e: Event, id: string)
    requires Enabled(w, e)
    ensures StaysSettled(w.tasks, Apply(w, e).tasks, id)
  {
    if e.Finish? {
      FinishSettles(w, e.id, e.fin);
    } else if !e.Create? {
      StepsDoNoMore(w, e, id);
    }
  }

  /** Over any stretch of a run no settled task comes back to life, and whatever its
      runner still reports, it keeps its status or ends blocked or canceled. */
  lemma {:induction false} SettledForGood(ws: seq<World>, i: nat, j: nat, id: string)
    requires Run(ws) && i <= j < |ws|
    ensures StaysSettled(ws[i].tasks, ws[j].tasks, id)
    decreases j
  {
    if i < j {
      SettledForGood(ws, i, j - 1, id);
      assert Next(ws[j - 1], ws[j - 1 + 1]);
      var e :| Enabled(ws[j - 1], e) && ws[j] == Apply(ws[j - 1], e);
      StepKeepsSettled(ws[j - 1], e, id);
    }
  }

  predicate SamePlace(tasks: Tasks, after: Tasks, id: string)
    requires id in tasks
  {
    id in after && after[id].createdAt == tasks[id].createdAt && after[id].workdir == tasks[id].workdir
  }

  /** Between two states of the table, seen by a task v that waits at the end: it
      waited all along, and no u created later has become active on its workdir. */
  predicate Respects(tasks: Tasks, after: Tasks, v: string, u: string) {
    v in tasks ==> v in after && (after[v].status == Waiting ==> KeepsTurn(tasks, after, v, u))
  }

  predicate KeepsTurn(tasks: Tasks, after: Tasks, v: string, u: string)
    requires v in tasks && v in after
  {
    var dir := tasks[v].workdir;
    && tasks[v].status == Waiting && SamePlace(tasks, after, v) && (u in tasks ==> SamePlace(tasks, after, u))
    && (ActiveOn(after, dir, u) && after[u].createdAt > tasks[v].createdAt ==> ActiveOn(tasks, dir, u))
  }

  lemma StepRespectsQueue(w: World, e: Event, v: string, u: string)
    requires Enabled(w, e)
    ensures Respects(w.tasks, Apply(w, e).tasks, v, u)
  {
    if e.Create? && v in w.tasks && Accepts(w.tasks, e.input) && CleanDir(e.input.workdir) == w.tasks[v].workdir {
      assert w.tasks[v].status == Waiting ==> WaitingOn(w.tasks, w.tasks[v].workdir, v);
      assert w.tasks[v].status == Waiting ==> Busy(w.tasks, CleanDir(e.input.workdir));
    }
  }

  lemma RespectIsTransitive(t0: Tasks, t1: Tasks, t2: Tasks, v: string, u: string)
    requires Respects(t0, t1, v, u) && Respects(t1, t2, v, u)
    ensures Respects(t0, t2, v, u)
  {
  }

  ghost predicate StepsRespect(ws: seq<World>, v: string, u: string) {
    forall i, j :: 0 <= i < j < |ws| && j == i + 1 ==> Respects(ws[i].tasks, ws[j].tasks, v, u)
  }

  lemma RunStepsRespect(ws: seq<World>, v: string, u: string)
    requires Run(ws)
    ensures StepsRespect(ws, v, u)
  {
    forall i, j | 0 <= i < j < |ws| && j == i + 1 ensures Respects(ws[i].tasks, ws[j].tasks, v, u) {
      assert Next(ws[i], ws[i + 1]);
      var e :| Enabled(ws[i], e) && ws[j] == Apply(ws[i], e);
      StepRespectsQueue(ws[i], e, v, u);
    }
  }

  lemma {:induction false} StretchRespects(ws: seq<World>, i: nat, j: nat, v: string, u: string)
    requires StepsRespect(ws, v, u) && i <= j < |ws|
    ensures Respects(ws[i].tasks, ws[j].tasks, v, u)
    decreases j
  {
    if i < j {
      StretchRespects(ws, i, j - 1, v, u);
      assert Respects(ws[j - 1].tasks, ws[j].tasks, v, u);
      RespectIsTransitive(ws[i].tasks, ws[j - 1].tasks, ws[j].tasks, v, u);
    }
  }

  lemma RunRespectsQueue(ws: seq<World>, i: nat, j: nat, v: string, u: string)
    requires Run(ws) && i <= j < |ws|
    ensures Respects(ws[i].tasks, ws[j].tasks, v, u)
  {
    RunStepsRespect(ws, v, u);
    StretchRespects(ws, i, j, v, u);
  }

  /** No overtaking, over any stretch of a run at whose start and end v waits: a
      task created after v on the same workdir that did not hold the workdir at the
      start (or did not exist) does not hold it at the end. */
  lemma NoOvertaking(ws: seq<World>, i: nat, j: nat, v: string, u: string)
    requires Run(ws) && i <= j < |ws|
    requires v in ws[i].tasks && v in ws[j].tasks && ws[j].tasks[v].status == Waiting
    requires u in ws[j].tasks && ws[j].tasks[u].createdAt > ws[j].tasks[v].createdAt
    requires u in ws[i].tasks ==> !IsHolding(ws[i].tasks[u], ws[j].tasks[v].workdir)
    ensures ws[i].tasks[v].status == Waiting && SamePlace(ws[i].tasks, ws[j].tasks, v)
    ensures !IsHolding(ws[j].tasks[u], ws[j].tasks[v].workdir)
  {
    RunRespectsQueue(ws, i, j, v, u);
  }

  /** In every reachable state the cached score is the computed one, except that a
      task MarkInterrupted moved out of awaiting_approval, and that nothing rescored
      since, is too high by exactly the blocked bonus. */
  lemma ScoreIsCurrent(ws: seq<World>, i: nat, id: string)
    requires Run(ws) && i < |ws| && id in ws[i].tasks
    ensures var t := ws[i].tasks[id];
      && t.stderrCount == StderrLogs(ws[i].logs, id)
      && t.keywordCount == KeywordTotal(ws[i].logs, id)
      && t.score == ScoreOf(t.status, t.stderrCount, t.keywordCount, t.exitCode) + Drift(ws[i], id)
  {
    RunInvariant(ws, i);
    assert ScoredAt(ws[i], id);
  }

  /** The drift appears exactly where a step takes a task from awaiting_approval
      to interrupted without rescoring it. */
  lemma DriftAppearsOnlyByMarkInterrupted(w: World, e: Event, id: string)
    requires Enabled(w, e) && id in w.tasks && id !in w.drifted
    ensures id in Apply(w, e).drifted <==> e.InterruptAll? && w.tasks[id].status == AwaitingApproval
  {
  }
}
