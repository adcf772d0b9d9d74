/** Secretary schedule jobs (internal/secretary/scheduler.go).

    A job's fields are read and written under one lock, which is dropped between
    critical sections. Each critical section is a function on the locked fields;
    the classes below run the same sections in place, and the state machine
    interleaves them over any number of goroutines. */
module Scheduler {
  import opened Wrappers

  const SECOND := 1_000_000_000
  const DEFAULT_INTERVAL_SEC := 10
  const MAX_INTERVAL_SEC := 60
  const DEFAULT_TTL_SEC := 300

  const READ_ONLY_TOOLS := {
    "system_info", "fs_roots", "fs_pwd", "fs_entries", "fs_read_text",
    "tasks_count", "tasks_list", "task_logs_tail", "task_log_get"
  }

  datatype State = Active | Canceled | Expired

  /** The fields of a job that the lock protects. */
  datatype Job = Job(
    state: State, tickNo: nat, running: bool, pending: bool,
    expiryReported: bool, nextTickAt: Option<int>)

  /** What never changes after creation. */
  datatype Config = Config(expiresAt: int, interval: int)

  /** What a critical section tells its goroutine to do once the lock is dropped. */
  datatype Outcome = Nothing | MustExpire | Start(tick: nat)

  function RequestSection(c: Config, j: Job, now: int): (Job, Outcome) {
    if j.state != Active then (j, Nothing)
    else if now >= c.expiresAt then (j, MustExpire)
    else if j.running then (j.(pending := true), Nothing)
    else
      (j.(running := true, tickNo := j.tickNo + 1, nextTickAt := Some(now + c.interval)),
       Start(j.tickNo + 1))
  }

  function FinishSection(c: Config, j: Job, now: int): (Job, Outcome) {
    if j.state != Active then
      (j.(running := false, pending := false, nextTickAt := None), Nothing)
    else if now >= c.expiresAt then (j.(running := false), MustExpire)
    else if j.pending then
      (j.(pending := false, running := true, tickNo := j.tickNo + 1, nextTickAt := Some(now + c.interval)),
       Start(j.tickNo + 1))
    else (j.(running := false), Nothing)
  }

  /** The second component is the tick number of the expiry callback, if one is due. */
  function ExpireSection(j: Job): (Job, Option<nat>) {
    if j.state != Active then (j, None)
    else
      var k := j.(state := Expired, pending := false, nextTickAt := None);
      if k.expiryReported then (k, None)
      else (k.(expiryReported := true, tickNo := k.tickNo + 1), Some(k.tickNo + 1))
  }

  function CancelSection(j: Job): Job {
    if j.state != Active then j else j.(state := Canceled, pending := false, nextTickAt := None)
  }

  /** removeScheduleIfTerminalLocked deletes the registry entry of such a job. */
  predicate Removable(j: Job) {
    j.state != Active && !j.running
  }

  // ---------------------------------------------------------------- in place

  class ScheduleJob {
    const id: string
    const config: Config
    var state: State
    var tickNo: nat
    var running: bool
    var pending: bool
    var expiryReported: bool
    var nextTickAt: Option<int>

    function Fields(): Job
      reads this
    {
      Job(state, tickNo, running, pending, expiryReported, nextTickAt)
    }

    constructor (id: string, now: int, intervalSec: int, ttlSec: int)
      ensures this.id == id
      ensures config == Config(now + ttlSec * SECOND, intervalSec * SECOND)
      ensures Fields() == Job(Active, 0, false, false, false, Some(now + intervalSec * SECOND))
    {
      this.id := id;
      config := Config(now + ttlSec * SECOND, intervalSec * SECOND);
      state, tickNo, running, pending, expiryReported := Active, 0, false, false, false;
      nextTickAt := Some(now + intervalSec * SECOND);
    }
  }

  datatype CreateRequest = CreateRequest(toolName: string, intervalSec: int, ttlSec: int, allowWrite: bool)

  datatype CreateError =
    | InsideCallback | ToolNameRequired | TargetsItself | UnknownTool | IntervalTooLong | NeedsAllowWrite

  /** The first check that a request fails, in the order the code makes them. */
  function Refusal(req: CreateRequest, insideCallback: bool, tools: set<string>): Option<CreateError> {
    if insideCallback then Some(InsideCallback)
    else if req.toolName == "" then Some(ToolNameRequired)
    else if req.toolName == "scheduler_create" then Some(TargetsItself)
    else if req.toolName !in tools then Some(UnknownTool)
    else if req.intervalSec > MAX_INTERVAL_SEC then Some(IntervalTooLong)
    else if !req.allowWrite && req.toolName !in READ_ONLY_TOOLS then Some(NeedsAllowWrite)
    else None
  }

  /** Which requests are refused, and for what: each check is made only if none before it
      fails. */
  lemma RefusalIs(req: CreateRequest, insideCallback: bool, tools: set<string>, r: Option<CreateError>)
    requires r == Refusal(req, insideCallback, tools)
    ensures r.None? <==>
      && !insideCallback && req.toolName != "" && req.toolName != "scheduler_create" && req.toolName in tools
      && req.intervalSec <= 60 && (req.allowWrite || OnlyReads(req.toolName))
    ensures r == Some(InsideCallback) <==> insideCallback
    ensures r == Some(ToolNameRequired) <==> !insideCallback && req.toolName == ""
    ensures r == Some(TargetsItself) <==> !insideCallback && req.toolName == "scheduler_create"
    ensures r == Some(UnknownTool) <==>
      !insideCallback && req.toolName != "" && req.toolName != "scheduler_create" && req.toolName !in tools
    ensures r == Some(IntervalTooLong) ==> req.intervalSec > 60
    ensures r == Some(NeedsAllowWrite) ==> req.intervalSec <= 60 && !req.allowWrite && !OnlyReads(req.toolName)
  {
  }

  predicate OnlyReads(tool: string) {
    || tool == "system_info" || tool == "fs_roots" || tool == "fs_pwd" || tool == "fs_entries"
    || tool == "fs_read_text" || tool == "tasks_count" || tool == "tasks_list" || tool == "task_logs_tail"
    || tool == "task_log_get"
  }

  class Service {
    var schedules: map<string, ScheduleJob>

    ghost predicate Valid()
      reads this
    {
      forall k :: k in schedules ==> schedules[k].id == k
    }

    constructor ()
      ensures Valid() && schedules == map[]
    {
      schedules := map[];
    }

    /** `id` is the fresh random id of the new job. */
    method CreateSchedule(req: CreateRequest, insideCallback: bool, tools: set<string>, id: string, now: int)
      returns (r: Result<ScheduleJob, CreateError>)
      requires Valid() && id !in schedules
      modifies this
      ensures Valid()
      ensures r.Err? <==> Refusal(req, insideCallback, tools).Some?
      ensures r.Err? ==> r.error == Refusal(req, insideCallback, tools).value && schedules == old(schedules)
      ensures r.Ok? ==> fresh(r.value) && schedules == old(schedules)[id := r.value]
      ensures r.Ok? ==> r.value.Fields() == Job(Active, 0, false, false, false, Some(now + r.value.config.interval))
      ensures r.Ok? ==> r.value.config.interval == SECOND * (if req.intervalSec > 0 then req.intervalSec else 10)
      ensures r.Ok? ==> r.value.config.expiresAt == now + SECOND * (if req.ttlSec > 0 then req.ttlSec else 300)
      ensures r.Ok? ==> 0 < r.value.config.interval <= SECOND * MAX_INTERVAL_SEC && now < r.value.config.expiresAt
    {
      if insideCallback { return Err(InsideCallback); }
      if req.toolName == "" { return Err(ToolNameRequired); }
      if req.toolName == "scheduler_create" { return Err(TargetsItself); }
      if req.toolName !in tools { return Err(UnknownTool); }
      var intervalSec := req.intervalSec;
      if intervalSec <= 0 { intervalSec := DEFAULT_INTERVAL_SEC; }
      if intervalSec > MAX_INTERVAL_SEC { return Err(IntervalTooLong); }
      var ttlSec := req.ttlSec;
      if ttlSec <= 0 { ttlSec := DEFAULT_TTL_SEC; }
      if !req.allowWrite && req.toolName !in READ_ONLY_TOOLS { return Err(NeedsAllowWrite); }
      var job := new ScheduleJob(id, now, intervalSec, ttlSec);
      schedules := schedules[id := job];
      return Ok(job);
    }

    method RequestTick(job: ScheduleJob, now: int) returns (o: Outcome)
      modifies job
      ensures (job.Fields(), o) == RequestSection(job.config, old(job.Fields()), now)
    {
      if job.state != Active { return Nothing; }
      if now >= job.config.expiresAt { return MustExpire; }
      if job.running {
        job.pending := true;
        return Nothing;
      }
      job.running := true;
      job.tickNo := job.tickNo + 1;
      job.nextTickAt := Some(now + job.config.interval);
      return Start(job.tickNo);
    }

    method RemoveIfTerminal(job: ScheduleJob)
      requires Valid()
      modifies this
      ensures Valid()
      ensures schedules == if Removable(job.Fields()) then old(schedules) - {job.id} else old(schedules)
    {
      if job.state == Active || job.running { return; }
      schedules := schedules - {job.id};
    }

    method FinishTick(job: ScheduleJob, now: int) returns (o: Outcome)
      requires Valid()
      modifies this, job
      ensures Valid()
      ensures (job.Fields(), o) == FinishSection(job.config, old(job.Fields()), now)
      ensures schedules == if Removable(job.Fields()) then old(schedules) - {job.id} else old(schedules)
    {
      o := Nothing;
      if job.state == Active {
        job.running := false;
        if now >= job.config.expiresAt {
          o := MustExpire;
        } else if job.pending {
          job.pending := false;
          job.running := true;
          job.tickNo := job.tickNo + 1;
          job.nextTickAt := Some(now + job.config.interval);
          o := Start(job.tickNo);
        }
      } else {
        job.running := false;
        job.pending := false;
        job.nextTickAt := None;
      }
      RemoveIfTerminal(job);
    }

    method Expire(job: ScheduleJob) returns (notify: Option<nat>)
      modifies job
      ensures (job.Fields(), notify) == ExpireSection(old(job.Fields()))
    {
      notify := None;
      if job.state == Active {
        job.state := Expired;
        job.pending := false;
        job.nextTickAt := None;
        if !job.expiryReported {
          job.expiryReported := true;
          job.tickNo := job.tickNo + 1;
          notify := Some(job.tickNo);
        }
      }
    }

    /** Returns whether the id was known. */
    method CancelSchedule(id: string) returns (found: bool)
      requires Valid()
      modifies this, if id in schedules then {schedules[id]} else {}
      ensures Valid()
      ensures found <==> id in old(schedules)
      ensures !found ==> schedules == old(schedules)
      ensures found ==>
        var job := old(schedules)[id];
        && job.Fields() == CancelSection(old(schedules[id].Fields()))
        && schedules == if Removable(job.Fields()) then old(schedules) - {id} else old(schedules)
    {
      if id !in schedules { return false; }
      var job := schedules[id];
      if job.state == Active {
        job.state := Canceled;
        job.pending := false;
        job.nextTickAt := None;
      }
      RemoveIfTerminal(job);
      return true;
    }
  }

  // ------------------------------------------------------------ interleavings

  /** Where a goroutine stands between critical sections. `loop` marks the ticker
      goroutine when it will go back to its select. */
  datatype Pc =
    | Select
    | Execute(tick: nat)
    | WantExpire(loop: bool)
    | Notify(tick: nat, loop: bool)
    | WantCleanup(loop: bool)
    | Done

  /** One job with all its goroutines. The last fields only record history: how
      often the ticker fired, which ticks and expiry callbacks were started, and
      how many firings were merged into a pending one, refused, or dropped while
      pending. */
  datatype World = World(
    job: Job, registered: bool, clock: int, threads: map<nat, Pc>,
    firings: nat, started: seq<nat>, notified: seq<nat>,
    merged: nat, refused: nat, dropped: nat)

  datatype Event =
    | Elapse(to: int)
    | TickerFires(t: nat, now: int, spawn: nat)
    | TimerFires(t: nat)
    | LoopEnds(t: nat)
    | TickFinishes(t: nat, now: int, spawn: nat)
    | ExpireRuns(t: nat)
    | CallbackReturns(t: nat)
    | CleanupRuns(t: nat)
    | CancelCall

  predicate Init(c: Config, w: World) {
    && w.job == Job(Active, 0, false, false, false, w.job.nextTickAt) && w.job.nextTickAt.Some?
    && w.registered && w.threads == map[0 := Select]
    && w.firings == w.merged == w.refused == w.dropped == 0
    && w.started == [] && w.notified == []
  }

  predicate At(w: World, t: nat, pc: Pc) {
    t in w.threads && w.threads[t] == pc
  }

  /** A section reads the clock before it takes the lock, so `now` may lag. The
      loop may leave once the job's context is canceled, which happens only after
      the job left Active. */
  predicate Enabled(w: World, e: Event) {
    match e
    case Elapse(to) => w.clock <= to
    case TickerFires(t, now, spawn) => At(w, t, Select) && now <= w.clock && spawn !in w.threads
    case TimerFires(t) => At(w, t, Select)
    case LoopEnds(t) => At(w, t, Select) && w.job.state != Active
    case TickFinishes(t, now, spawn) =>
      t in w.threads && w.threads[t].Execute? && now <= w.clock && spawn !in w.threads
    case ExpireRuns(t) => t in w.threads && w.threads[t].WantExpire?
    case CallbackReturns(t) => t in w.threads && w.threads[t].Notify?
    case CleanupRuns(t) => t in w.threads && w.threads[t].WantCleanup?
    case CancelCall => w.registered
  }

  function Back(loop: bool): Pc {
    if loop then Select else Done
  }

  function Bit(b: bool): nat {
    if b then 1 else 0
  }

  function Apply(c: Config, w: World, e: Event): World
    requires Enabled(w, e)
  {
    match e
    case Elapse(to) => w.(clock := to)
    case TickerFires(t, now, spawn) =>
      var (job, o) := RequestSection(c, w.job, now);
      var threads := match o
        case Nothing => w.threads
        case MustExpire => w.threads[t := WantExpire(true)]
        case Start(tick) => w.threads[spawn := Execute(tick)];
      w.(job := job, threads := threads, firings := w.firings + 1,
         started := if o.Start? then w.started + [o.tick] else w.started,
         merged := w.merged + Bit(w.job.running && w.job.pending && w.job.state == Active && !o.MustExpire?),
         refused := w.refused + Bit(w.job.state != Active || o.MustExpire?))
    case TimerFires(t) => w.(threads := w.threads[t := WantExpire(false)])
    case LoopEnds(t) => w.(threads := w.threads[t := Done])
    case TickFinishes(t, now, spawn) =>
      var (job, o) := FinishSection(c, w.job, now);
      var threads := match o
        case Nothing => w.threads[t := Done]
        case MustExpire => w.threads[t := WantExpire(false)]
        case Start(tick) => w.threads[t := Done][spawn := Execute(tick)];
      w.(job := job, threads := threads, registered := w.registered && !Removable(job),
         started := if o.Start? then w.started + [o.tick] else w.started,
         dropped := w.dropped + Bit(w.job.pending && !job.pending && !o.Start?))
    case ExpireRuns(t) =>
      var loop := w.threads[t].loop;
      var (job, notify) := ExpireSection(w.job);
      w.(job := job,
         threads := w.threads[t := if notify.Some? then Notify(notify.value, loop) else WantCleanup(loop)],
         notified := if notify.Some? then w.notified + [notify.value] else w.notified,
         dropped := w.dropped + Bit(w.job.pending && !job.pending))
    case CallbackReturns(t) => w.(threads := w.threads[t := WantCleanup(w.threads[t].loop)])
    case CleanupRuns(t) =>
      w.(threads := w.threads[t := Back(w.threads[t].loop)], registered := w.registered && !Removable(w.job))
    case CancelCall =>
      var job := CancelSection(w.job);
      w.(job := job, registered := w.registered && !Removable(job),
         dropped := w.dropped + Bit(w.job.pending && !job.pending))
  }

  ghost predicate Next(c: Config, w: World, w': World) {
    exists e :: Enabled(w, e) && w' == Apply(c, w, e)
  }

  /** A run: the states of one job under some interleaving. */
  ghost predicate Run(c: Config, ws: seq<World>) {
    && |ws| > 0 && Init(c, ws[0])
    && forall i :: 0 <= i < |ws| - 1 ==> Next(c, ws[i], ws[i + 1])
  }

  predicate Executing(w: World, t: nat) {
    t in w.threads && w.threads[t].Execute?
  }

  /** A goroutine that still has to pass the cleanup section. */
  predicate OwesCleanup(w: World, t: nat) {
    t in w.threads && (w.threads[t].Notify? || w.threads[t].WantCleanup?)
  }

  /** Exactly one executor when `running`, none otherwise; it runs the latest tick. */
  ghost predicate OneExecutor(w: World) {
    && (forall t, u :: Executing(w, t) && Executing(w, u) ==> t == u)
    && (w.job.running <==> exists t :: Executing(w, t))
    && (forall t :: Executing(w, t) ==> w.started != [] && w.threads[t].tick == w.started[|w.started| - 1])
  }

  /** Tick numbers are issued 1, 2, 3, ...; the expiry callback gets the last one. */
  predicate Numbering(w: World) {
    && (forall i :: 0 <= i < |w.started| ==> w.started[i] == i + 1)
    && w.notified == (if w.job.expiryReported then [|w.started| + 1] else [])
    && w.job.tickNo == |w.started| + |w.notified|
    && (w.job.state == Expired <==> w.job.expiryReported)
  }

  /** The firings that started no tick of their own. */
  function Unmet(w: World): int {
    w.merged + w.refused + w.dropped
  }

  /** Every firing started a tick, is pending, or was merged, refused or dropped. */
  predicate Ledger(w: World) {
    w.firings == |w.started| + Bit(w.job.pending) + Unmet(w)
  }

  ghost predicate Invariant(c: Config, w: World) {
    && OneExecutor(w) && Numbering(w) && Ledger(w)
    && (w.job.pending ==> w.job.state == Active && (w.job.running || w.clock >= c.expiresAt))
    && (w.job.nextTickAt.Some? <==> w.job.state == Active)
    && (w.job.state == Active ==> w.registered)
    && (w.registered && Removable(w.job) ==> exists t :: OwesCleanup(w, t))
  }

  lemma InitInvariant(c: Config, w: World)
    requires Init(c, w)
    ensures Invariant(c, w)
  {
  }

  lemma ThreadStep(w: World, w': World, t: nat, pc: Pc)
    requires OneExecutor(w) && t in w.threads && !w.threads[t].Execute? && !pc.Execute?
    requires w'.threads == w.threads[t := pc] && w'.job.running == w.job.running && w'.started == w.started
    ensures OneExecutor(w')
  {
    forall u ensures Executing(w', u) <==> Executing(w, u) { }
  }

  lemma TickerStep(c: Config, w: World, e: Event)
    requires Invariant(c, w) && Enabled(w, e) && e.TickerFires?
    ensures Invariant(c, Apply(c, w, e))
  {
    var w' := Apply(c, w, e);
    var (job, o) := RequestSection(c, w.job, e.now);
    match o
    case Nothing =>
      assert w'.threads == w.threads;
      forall u ensures Executing(w', u) <==> Executing(w, u) { }
      forall u ensures OwesCleanup(w', u) <==> OwesCleanup(w, u) { }
    case MustExpire =>
      ThreadStep(w, w', e.t, WantExpire(true));
    case Start(tick) =>
      assert Executing(w', e.spawn);
      forall u ensures Executing(w', u) <==> u == e.spawn { assert !Executing(w, u); }
  }

  lemma FinishStep(c: Config, w: World, e: Event)
    requires Invariant(c, w) && Enabled(w, e) && e.TickFinishes?
    ensures Invariant(c, Apply(c, w, e))
  {
    var w' := Apply(c, w, e);
    var (job, o) := FinishSection(c, w.job, e.now);
    assert Executing(w, e.t);
    if o.Start? {
      assert Executing(w', e.spawn);
      forall u ensures Executing(w', u) <==> u == e.spawn {
        assert Executing(w, u) ==> u == e.t;
      }
    } else {
      forall u ensures !Executing(w', u) {
        assert Executing(w, u) ==> u == e.t;
      }
      forall u | OwesCleanup(w, u) ensures OwesCleanup(w', u) { }
    }
  }

  lemma ExpireStep(c: Config, w: World, e: Event)
    requires Invariant(c, w) && Enabled(w, e) && e.ExpireRuns?
    ensures Invariant(c, Apply(c, w, e))
  {
    var w' := Apply(c, w, e);
    ThreadStep(w, w', e.t, w'.threads[e.t]);
    assert OwesCleanup(w', e.t);
  }

  lemma CleanupStep(c: Config, w: World, e: Event)
    requires Invariant(c, w) && Enabled(w, e) && (e.CleanupRuns? || e.CallbackReturns?)
    ensures Invariant(c, Apply(c, w, e))
  {
    var w' := Apply(c, w, e);
    ThreadStep(w, w', e.t, w'.threads[e.t]);
    if e.CallbackReturns? {
      assert OwesCleanup(w', e.t);
    }
  }

  lemma SelectStep(c: Config, w: World, e: Event)
    requires Invariant(c, w) && Enabled(w, e) && (e.TimerFires? || e.LoopEnds?)
    ensures Invariant(c, Apply(c, w, e))
  {
    var w' := Apply(c, w, e);
    ThreadStep(w, w', e.t, w'.threads[e.t]);
    forall u | OwesCleanup(w, u) ensures OwesCleanup(w', u) { }
  }

  lemma OutsideStep(c: Config, w: World, e: Event)
    requires Invariant(c, w) && Enabled(w, e) && (e.CancelCall? || e.Elapse?)
    ensures Invariant(c, Apply(c, w, e))
  {
    var w' := Apply(c, w, e);
    forall u ensures Executing(w', u) <==> Executing(w, u) { }
    forall u ensures OwesCleanup(w', u) <==> OwesCleanup(w, u) { }
  }

  /** Every critical section of every goroutine keeps the invariant. */
  lemma StepKeepsInvariant(c: Config, w: World, w': World)
    requires Invariant(c, w) && Next(c, w, w')
    ensures Invariant(c, w')
  {
    var e :| Enabled(w, e) && w' == Apply(c, w, e);
    match e
    case TickerFires(_, _, _) => TickerStep(c, w, e);
    case TickFinishes(_, _, _) => FinishStep(c, w, e);
    case ExpireRuns(_) => ExpireStep(c, w, e);
    case CallbackReturns(_) => CleanupStep(c, w, e);
    case CleanupRuns(_) => CleanupStep(c, w, e);
    case TimerFires(_) => SelectStep(c, w, e);
    case LoopEnds(_) => SelectStep(c, w, e);
    case Elapse(_) => OutsideStep(c, w, e);
    case CancelCall => OutsideStep(c, w, e);
  }

  lemma {:induction false} RunInvariant(c: Config, ws: seq<World>, i: nat)
    requires Run(c, ws) && i < |ws|
    ensures Invariant(c, ws[i])
  {
    if i == 0 {
      InitInvariant(c, ws[0]);
    } else {
      RunInvariant(c, ws, i - 1);
      StepKeepsInvariant(c, ws[i - 1], ws[i]);
    }
  }

  /** In every interleaving, a job has exactly one tick executor when `running` is
      set and none otherwise. */
  lemma ExactlyOneExecutor(c: Config, ws: seq<World>, i: nat)
    requires Run(c, ws) && i < |ws|
    ensures !ws[i].job.running ==> forall t :: !Executing(ws[i], t)
    ensures ws[i].job.running ==> exists t :: Executing(ws[i], t) && forall u :: Executing(ws[i], u) ==> u == t
  {
    RunInvariant(c, ws, i);
    if ws[i].job.running {
      var t :| Executing(ws[i], t);
      assert forall u :: Executing(ws[i], u) ==> u == t;
    }
  }

  /** All tick numbers of a run are distinct, the expiry callback's included, and
      started ticks plus a pending one never outnumber the ticker's firings. */
  lemma TickNumbersDistinct(c: Config, ws: seq<World>, i: nat)
    requires Run(c, ws) && i < |ws|
    ensures var issued := ws[i].started + ws[i].notified;
            forall a, b :: 0 <= a < b < |issued| ==> issued[a] < issued[b]
    ensures |ws[i].started| + Bit(ws[i].job.pending) <= ws[i].firings
    ensures ws[i].job.pending ==> ws[i].job.running || ws[i].clock >= c.expiresAt
  {
    RunInvariant(c, ws, i);
  }

  /** What one step can never undo. */
  ghost predicate Monotone(w: World, w': World) {
    && w.started <= w'.started && w.notified <= w'.notified
    && (w.job.state != Active ==> w'.job.state == w.job.state && w'.started == w.started && w'.notified == w.notified)
    && (!w.registered ==> !w'.registered)
  }

  lemma StepMonotone(c: Config, w: World, w': World)
    requires Next(c, w, w')
    ensures Monotone(w, w')
  {
  }

  /** No step undoes anything. */
  ghost predicate StepsMonotone(ws: seq<World>) {
    forall i, j :: 0 <= i < j < |ws| && j == i + 1 ==> Monotone(ws[i], ws[j])
  }

  lemma RunStepsMonotone(c: Config, ws: seq<World>)
    requires Run(c, ws)
    ensures StepsMonotone(ws)
  {
    forall i, j | 0 <= i < j < |ws| && j == i + 1 ensures Monotone(ws[i], ws[j]) {
      assert Next(c, ws[i], ws[i + 1]);
      StepMonotone(c, ws[i], ws[j]);
    }
  }

  lemma {:induction false} StretchMonotone(ws: seq<World>, i: nat, j: nat)
    requires StepsMonotone(ws) && i <= j < |ws|
    ensures Monotone(ws[i], ws[j])
  {
    if i < j {
      StretchMonotone(ws, i, j - 1);
      assert Monotone(ws[j - 1], ws[j]);
      MonotoneTwice(ws[i], ws[j - 1], ws[j]);
    }
  }

  lemma MonotoneTwice(u: World, v: World, w: World)
    requires Monotone(u, v) && Monotone(v, w)
    ensures Monotone(u, w)
  {
  }

  /** Over any stretch of a run: a job leaves Active at most once, and once it is
      canceled or expired no tick and no further expiry callback starts. */
  lemma TerminalForever(c: Config, ws: seq<World>, i: nat, j: nat)
    requires Run(c, ws) && i <= j < |ws|
    ensures Monotone(ws[i], ws[j])
  {
    RunStepsMonotone(c, ws);
    StretchMonotone(ws, i, j);
  }

  /** The expiry callback starts at most once, exactly for expired jobs, and never
      for a canceled one. */
  lemma ExpiryCallbackOnce(c: Config, ws: seq<World>, i: nat)
    requires Run(c, ws) && i < |ws|
    ensures |ws[i].notified| == Bit(ws[i].job.state == Expired)
    ensures ws[i].job.state == Canceled ==> forall j :: i <= j < |ws| ==> ws[j].notified == []
  {
    RunInvariant(c, ws, i);
    if ws[i].job.state == Canceled {
      forall j | i <= j < |ws| ensures ws[j].notified == [] {
        TerminalForever(c, ws, i, j);
      }
    }
  }

  /** An active job stays registered; a terminal job is out of the registry once
      none of its goroutines still executes a tick, notifies or cleans up. */
  lemma RegistryTracksLife(c: Config, ws: seq<World>, i: nat)
    requires Run(c, ws) && i < |ws|
    ensures ws[i].job.state == Active ==> ws[i].registered
    ensures ws[i].job.state != Active && (forall t :: !Executing(ws[i], t) && !OwesCleanup(ws[i], t))
            ==> !ws[i].registered
  {
    RunInvariant(c, ws, i);
  }

  /** A job whose tick still runs is registered. */
  ghost predicate RunningIsRegistered(w: World) {
    w.job.running ==> w.registered
  }

  lemma StepKeepsRunningRegistered(c: Config, w: World, w': World)
    requires Invariant(c, w) && RunningIsRegistered(w) && Next(c, w, w')
    ensures RunningIsRegistered(w')
  {
  }

  lemma {:induction false} RunningStaysRegistered(c: Config, ws: seq<World>, i: nat)
    requires Run(c, ws) && i < |ws|
    ensures RunningIsRegistered(ws[i])
  {
    if i > 0 {
      RunningStaysRegistered(c, ws, i - 1);
      RunInvariant(c, ws, i - 1);
      StepKeepsRunningRegistered(c, ws[i - 1], ws[i]);
    }
  }

  /** Canceling an active job cancels it: it is neither active nor pending afterwards, and
      registered only while its tick still runs. A terminal one stays as it was. */
  lemma CancelEnds(c: Config, w: World)
    requires Enabled(w, CancelCall)
    ensures var j, w' := w.job, Apply(c, w, CancelCall);
      && w'.job == (if j.state == Active then Job(Canceled, j.tickNo, j.running, false, j.expiryReported, None) else j)
      && (w'.registered <==> w'.job.running)
      && w'.threads == w.threads && w'.started == w.started && w'.notified == w.notified
  {
  }

  /** Expiry ends an active job likewise, and starts its callback under the next number. */
  lemma ExpiryEnds(c: Config, w: World, t: nat)
    requires Invariant(c, w) && Enabled(w, ExpireRuns(t))
    ensures var j, w' := w.job, Apply(c, w, ExpireRuns(t));
      && w'.job == (if j.state == Active then Job(Expired, j.tickNo + 1, j.running, false, true, None) else j)
      && w'.notified == w.notified + (if j.state == Active then [j.tickNo + 1] else [])
      && w'.registered == w.registered && w'.started == w.started
      && w'.threads[t] == if j.state == Active then Notify(j.tickNo + 1, w.threads[t].loop)
                          else WantCleanup(w.threads[t].loop)
  {
  }

  /** The timer, and whoever has found the time to be up, go on to expiry; whoever has
      notified goes on to the cleanup, and the ticker from there back to its loop. */
  lemma GoroutinesGoOn(c: Config, w: World, t: nat)
    ensures Enabled(w, TimerFires(t)) ==> Apply(c, w, TimerFires(t)).threads[t] == WantExpire(false)
    ensures Enabled(w, CallbackReturns(t)) ==>
      Apply(c, w, CallbackReturns(t)).threads[t] == WantCleanup(w.threads[t].loop)
    ensures Enabled(w, CleanupRuns(t)) ==>
      && Apply(c, w, CleanupRuns(t)).threads[t] == (if w.threads[t].loop then Select else Done)
      && (Apply(c, w, CleanupRuns(t)).registered <==> w.registered && (w.job.state == Active || w.job.running))
  {
  }

  /** What ends a job. */
  predicate Ends(e: Event) {
    e.CancelCall? || e.ExpireRuns?
  }

  /** Over any run: after a cancellation, or once expiry has been dealt with, the job is
      never active again, and no tick or callback starts that had not started by then. */
  lemma EndedForever(c: Config, ws: seq<World>, i: nat, j: nat, e: Event)
    requires Run(c, ws) && i < j < |ws| && Enabled(ws[i], e) && ws[i + 1] == Apply(c, ws[i], e) && Ends(e)
    ensures ws[j].job.state != Active && ws[j].started == ws[i].started && ws[j].notified == ws[i + 1].notified
    ensures e.CancelCall? ==> ws[j].notified == ws[i].notified
    ensures ws[i].job.state == Active ==> ws[j].job.state == if e.CancelCall? then Canceled else Expired
  {
    RunInvariant(c, ws, i);
    TerminalForever(c, ws, i + 1, j);
  }

  /** When the time is up, neither the ticker nor a finishing tick starts another one; on
      an active job the goroutine goes on to expire it. */
  lemma TimeUpStartsNothing(c: Config, w: World, e: Event)
    requires Enabled(w, e) && (e.TickerFires? || e.TickFinishes?) && e.now >= c.expiresAt
    ensures var w' := Apply(c, w, e);
      && w'.started == w.started && w'.notified == w.notified && w'.job.state == w.job.state
      && (w.job.state == Active ==> e.t in w'.threads && w'.threads[e.t] == WantExpire(e.TickerFires?))
  {
  }

  /** A tick that starts runs under the next number, and plans the next one an interval
      later. */
  lemma StartedTick(c: Config, w: World, e: Event)
    requires Enabled(w, e) && (e.TickerFires? || e.TickFinishes?) && Apply(c, w, e).started != w.started
    ensures var j, w' := w.job, Apply(c, w, e);
      && w'.job == Job(Active, j.tickNo + 1, true, j.pending && e.TickerFires?, j.expiryReported,
                       Some(e.now + c.interval))
      && w'.started == w.started + [j.tickNo + 1] && w'.threads[e.spawn] == Execute(j.tickNo + 1)
      && (e.TickFinishes? ==> j.pending)
  {
  }

  /** A tick that finishes without starting another one leaves the job idle, and the
      registry if it has ended. */
  lemma FinishedTick(c: Config, w: World, e: Event)
    requires Enabled(w, e) && e.TickFinishes? && Apply(c, w, e).started == w.started
    ensures var j, w' := w.job, Apply(c, w, e);
      && w'.job.state == j.state && !w'.job.running && w'.job.tickNo == j.tickNo
      && (w'.registered <==> w.registered && j.state == Active)
      && (j.state != Active ==> !w'.job.pending && w'.threads[e.t] == Done)
  {
  }

  /** No firing gets lost on an active, unexpired job: afterwards a tick runs, and
      this firing either started it or waits as pending; when the running tick
      finishes in time, the pending one starts at once. */
  lemma FiringAnswered(c: Config, w: World, e: Event)
    requires Invariant(c, w) && Enabled(w, e) && w.job.state == Active
    requires e.TickerFires? || e.TickFinishes?
    requires e.now < c.expiresAt
    ensures var w' := Apply(c, w, e);
      && (e.TickerFires? ==> w'.job.running && Unmet(w') <= Unmet(w) + Bit(w.job.pending))
      && (e.TickerFires? && !w.job.running ==> w'.started == w.started + [|w.started| + 1])
      && (e.TickerFires? && w.job.running ==> w'.job.pending)
      && (e.TickFinishes? && w.job.pending ==> w'.started == w.started + [|w.started| + 1] && !w'.job.pending)
      && (e.TickFinishes? && !w.job.pending ==> !w'.job.running && w'.started == w.started)
  {
  }
}
