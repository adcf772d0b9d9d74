/** Several drain rounds at work at once (internal/api/session_continue_queue.go): the
    ticker starts one every two seconds, and every preempting request starts another.
    Each query or update of the store is one step; anyone else may change the tasks. */
module ConcurrentRounds {
  import opened Wrappers
  import opened Score
  import opened Dispatcher
  import TaskStore
  import Q = ContinueQueue

  /** Where a round is within the visit of a conversation. */
  datatype Phase =
    | Idle
    | Resolved(cid: string, scope: string)
    | Cleared(cid: string, scope: string)
    | Holding(cid: string, scope: string, item: string)
    | Settling(scope: string, item: string, end: Q.State)
    | Gone

  datatype Drain = Drain(counts: map<string, nat>, phase: Phase)

  /** A task created by a round, for an item, on the scope it looked up. */
  datatype Dispatch = Dispatch(round: nat, item: string, scope: string, taskId: string)

  datatype World = World(items: Q.Items, tasks: Tasks, rounds: map<nat, Drain>, log: seq<Dispatch>)

  datatype Event =
    | Enqueued(id: string, item: Q.Item)
    | TasksChange(tasks: Tasks)
    | Starts(r: nat)
    | Resolves(r: nat, cid: string)
    | Counts(r: nat)
    | Claims(r: nat, id: string, now: int)
    | FindsNothing(r: nat)
    | Creates(r: nat, env: Env, taskId: string)
    | Settles(r: nat, now: int)
    | Crashes(now: int)

  function At(w: World, r: nat): Phase {
    if r in w.rounds then w.rounds[r].phase else Gone
  }

  predicate Enabled(w: World, e: Event) {
    match e
    case Enqueued(id, item) => id !in w.items && item.state == Q.State.Pending
    case TasksChange(_) => true
    case Starts(r) => r !in w.rounds
    case Resolves(r, _) => At(w, r).Idle?
    case Counts(r) => At(w, r).Resolved?
    case Claims(r, id, _) => At(w, r).Cleared? && At(w, r).cid != "" && Q.First(w.items, At(w, r).cid, id)
    case FindsNothing(r) => At(w, r).Cleared? && (At(w, r).cid == "" || Q.PendingOf(w.items, At(w, r).cid) == {})
    case Creates(r, _, _) => At(w, r).Holding?
    case Settles(r, _) => At(w, r).Settling?
    case Crashes(_) => true
  }

  function Moved(w: World, r: nat, phase: Phase): map<nat, Drain>
    requires r in w.rounds
  {
    w.rounds[r := w.rounds[r].(phase := phase)]
  }

  /** The local map after looking up a scope. */
  function Looked(counts: map<string, nat>, tasks: Tasks, scope: string): (counts': map<string, nat>)
    ensures scope in counts'
  {
    if scope in counts then counts else counts[scope := InFlightIn(tasks, scope)]
  }

  /** The local map after a dispatch on a scope. */
  function Raised(counts: map<string, nat>, scope: string): map<string, nat> {
    counts[scope := (if scope in counts then counts[scope] else 0) + 1]
  }

  function AfterCounts(w: World, r: nat): World
    requires At(w, r).Resolved?
  {
    var p := At(w, r);
    var counts := Looked(w.rounds[r].counts, w.tasks, p.scope);
    w.(rounds := w.rounds[r := Drain(counts, if counts[p.scope] >= BUDGET then Idle else Cleared(p.cid, p.scope))])
  }

  /** The world with the item claimed. */
  function Claimed(w: World, r: nat, item: string, now: int): World
    requires At(w, r).Cleared?
  {
    w.(items := Q.AfterMark(w.items, item, Q.State.Dispatching, now),
       rounds := Moved(w, r, Holding(At(w, r).cid, At(w, r).scope, item)))
  }

  function AfterCreates(w: World, r: nat, env: Env, taskId: string): World
    requires At(w, r).Holding?
  {
    var p := At(w, r);
    var (tasks', o) := CreateContinue(w.tasks, p.cid, env, taskId);
    var end := EndState(env, o);
    World(w.items, if env.optionsValid then tasks' else w.tasks, Moved(w, r, Settling(p.scope, p.item, end)),
          if end == Q.State.Done then w.log + [Dispatch(r, p.item, p.scope, taskId)] else w.log)
  }

  function AfterSettles(w: World, r: nat, now: int): World
    requires At(w, r).Settling?
  {
    var p, counts := At(w, r), w.rounds[r].counts;
    w.(items := Q.AfterMark(w.items, p.item, p.end, now),
       rounds := w.rounds[r := Drain(if p.end == Q.State.Done then Raised(counts, p.scope) else counts, Idle)])
  }

  /** A crash ends all rounds; the restarted server resets what they were dispatching. */
  function AfterCrash(w: World, now: int): World {
    World(Q.AfterReset(w.items, now), w.tasks, map r | r in w.rounds :: Drain(w.rounds[r].counts, Gone), w.log)
  }

  function Apply(w: World, e: Event): World
    requires Enabled(w, e)
  {
    match e
    case Enqueued(id, item) => w.(items := w.items[id := item])
    case TasksChange(tasks) => w.(tasks := tasks)
    case Starts(r) => w.(rounds := w.rounds[r := Drain(map[], Idle)])
    case Resolves(r, cid) => w.(rounds := Moved(w, r, Resolved(cid, ScopeOf(w.tasks, cid))))
    case Counts(r) => AfterCounts(w, r)
    case Claims(r, id, now) => Claimed(w, r, id, now)
    case FindsNothing(r) => w.(rounds := Moved(w, r, Idle))
    case Creates(r, env, taskId) => AfterCreates(w, r, env, taskId)
    case Settles(r, now) => AfterSettles(w, r, now)
    case Crashes(now) => AfterCrash(w, now)
  }

  /** Nothing is being dispatched, and no round has begun. */
  ghost predicate Start(w: World) {
    w.rounds == map[] && w.log == [] && forall k :: k in w.items ==> w.items[k].state != Q.State.Dispatching
  }

  ghost predicate Step(w: World, e: Event, w': World) {
    Enabled(w, e) && w' == Apply(w, e)
  }

  /** A run: its states, and the events between them. */
  datatype Run = Run(states: seq<World>, events: seq<Event>)

  ghost predicate IsRun(run: Run) {
    && |run.states| == |run.events| + 1 && Start(run.states[0])
    && forall i :: 0 <= i < |run.events| ==> Step(run.states[i], run.events[i], run.states[i + 1])
  }

  function Last(run: Run): World
    requires run.states != []
  {
    run.states[|run.states| - 1]
  }

  // ---------------------------------------------------------- the invariant

  /** The item a round has claimed and not yet settled. */
  predicate Holds(r: Drain, k: string) {
    (r.phase.Holding? || r.phase.Settling?) && r.phase.item == k
  }

  ghost predicate Held(w: World, k: string) {
    exists r :: r in w.rounds && Holds(w.rounds[r], k)
  }

  /** A settled item is no longer being dispatched. */
  predicate Closes(r: Drain) {
    r.phase.Settling? ==> r.phase.end != Q.State.Dispatching
  }

  predicate BeingDispatched(items: Q.Items, k: string) {
    k in items && items[k].state == Q.State.Dispatching
  }

  /** The dispatching items are exactly those held, each by one round. */
  ghost predicate Ownership(w: World) {
    && (forall r, k :: r in w.rounds && Holds(w.rounds[r], k) ==> BeingDispatched(w.items, k))
    && (forall r, q, k :: r in w.rounds && q in w.rounds && Holds(w.rounds[r], k) && Holds(w.rounds[q], k) ==> r == q)
    && (forall k :: BeingDispatched(w.items, k) ==> Held(w, k))
    && (forall r :: r in w.rounds ==> Closes(w.rounds[r]))
  }

  /** A round that goes on to claim has found its scope within the budget. */
  predicate HasRoom(r: Drain) {
    r.phase.Cleared? || r.phase.Holding? || r.phase.Settling? ==>
      r.phase.scope in r.counts && r.counts[r.phase.scope] < BUDGET
  }

  /** A round does not forget a dispatch of its own. */
  predicate Remembers(r: Drain, scope: string) {
    || r.phase.Gone?
    || (scope in r.counts && r.counts[scope] >= BUDGET)
    || (r.phase.Settling? && r.phase.end == Q.State.Done && r.phase.scope == scope)
  }

  predicate IsSettling(r: Drain, k: string) {
    r.phase.Settling? && r.phase.item == k && r.phase.end == Q.State.Done
  }

  /** The task is created, and the item not yet marked done. */
  ghost predicate CreatedUnmarked(w: World, k: string) {
    exists r :: r in w.rounds && IsSettling(w.rounds[r], k)
  }

  ghost predicate Known(w: World, d: Dispatch) {
    d.round in w.rounds && Remembers(w.rounds[d.round], d.scope)
  }

  /** Two dispatches of one round are on different scopes. */
  predicate Separate(d: Dispatch, f: Dispatch) {
    d.round == f.round ==> d.scope != f.scope
  }

  ghost predicate Invariant(w: World) {
    && Ownership(w)
    && (forall r :: r in w.rounds ==> HasRoom(w.rounds[r]))
    && (forall d :: d in w.log ==> Known(w, d))
    && (forall i, j :: 0 <= i < j < |w.log| ==> Separate(w.log[i], w.log[j]))
  }

  lemma StepKeepsHolders(w: World, e: Event, k: string)
    requires Ownership(w) && Enabled(w, e) && BeingDispatched(Apply(w, e).items, k)
    ensures Held(Apply(w, e), k)
  {
    var w' := Apply(w, e);
    if e.Claims? && k == e.id {
      assert Holds(w'.rounds[e.r], k);
    } else {
      assert BeingDispatched(w.items, k);
      var r :| r in w.rounds && Holds(w.rounds[r], k);
      assert Closes(w.rounds[r]);
      assert r in w'.rounds && Holds(w'.rounds[r], k);
    }
  }

  lemma StepKeepsOwnership(w: World, e: Event)
    requires Ownership(w) && Enabled(w, e)
    ensures Ownership(Apply(w, e))
  {
    var w' := Apply(w, e);
    forall r, k | r in w'.rounds && Holds(w'.rounds[r], k) ensures BeingDispatched(w'.items, k) {
      StepKeepsClaims(w, e, r, k);
    }
    forall k | BeingDispatched(w'.items, k) { StepKeepsHolders(w, e, k); }
    forall r, q, k | r in w'.rounds && q in w'.rounds && Holds(w'.rounds[r], k) && Holds(w'.rounds[q], k)
      ensures r == q
    {
      StepKeepsClaims(w, e, r, k);
      StepKeepsClaims(w, e, q, k);
    }
  }

  /** What a round holds after a step it held before, or has just claimed. */
  lemma StepKeepsClaims(w: World, e: Event, r: nat, k: string)
    requires Ownership(w) && Enabled(w, e) && r in Apply(w, e).rounds && Holds(Apply(w, e).rounds[r], k)
    ensures BeingDispatched(Apply(w, e).items, k)
    ensures if e.Claims? && e.r == r then e.id == k && !BeingDispatched(w.items, k)
            else r in w.rounds && Holds(w.rounds[r], k)
  {
    if !(e.Claims? && e.r == r) {
      assert r in w.rounds && Holds(w.rounds[r], k);
      assert BeingDispatched(w.items, k);
      if e.Settles? {
        assert Holds(w.rounds[e.r], At(w, e.r).item);
      }
    }
  }

  lemma StepKeepsRoom(w: World, e: Event, r: nat)
    requires Enabled(w, e) && r in Apply(w, e).rounds && (r in w.rounds ==> HasRoom(w.rounds[r]))
    ensures HasRoom(Apply(w, e).rounds[r])
  {
  }

  lemma StepKeepsMemory(w: World, e: Event, r: nat, scope: string)
    requires Enabled(w, e) && r in w.rounds && Remembers(w.rounds[r], scope)
    ensures r in Apply(w, e).rounds && Remembers(Apply(w, e).rounds[r], scope)
  {
  }

  lemma StepKeepsKnown(w: World, e: Event, d: Dispatch)
    requires Enabled(w, e) && Known(w, d)
    ensures Known(Apply(w, e), d)
  {
    StepKeepsMemory(w, e, d.round, d.scope);
  }

  /** A new dispatch is known, and apart from all earlier ones of its round. */
  lemma NewDispatch(w: World, e: Event, d: Dispatch)
    requires Invariant(w) && Enabled(w, e) && e.Creates? && Apply(w, e).log == w.log + [d]
    requires d.round == e.r && d.scope == At(w, e.r).scope
    requires IsSettling(Apply(w, e).rounds[e.r], d.item) && At(Apply(w, e), e.r).scope == d.scope
    ensures Known(Apply(w, e), d)
    ensures forall f :: f in w.log ==> Separate(f, d)
  {
    forall f | f in w.log ensures Separate(f, d) {
      assert Known(w, f) && HasRoom(w.rounds[e.r]);
    }
  }

  lemma StepKeepsLog(w: World, e: Event)
    requires Invariant(w) && Enabled(w, e)
    ensures forall d :: d in Apply(w, e).log ==> Known(Apply(w, e), d)
    ensures forall i, j :: 0 <= i < j < |Apply(w, e).log| ==> Separate(Apply(w, e).log[i], Apply(w, e).log[j])
  {
    var w' := Apply(w, e);
    forall d | d in w.log ensures Known(w', d) { StepKeepsKnown(w, e, d); }
    if w'.log != w.log {
      NewDispatch(w, e, w'.log[|w.log|]);
    }
  }

  /** Every step of every round, and whatever happens beside them, keeps the invariant. */
  lemma StepKeepsInvariant(w: World, e: Event)
    requires Invariant(w) && Enabled(w, e)
    ensures Invariant(Apply(w, e))
  {
    StepKeepsOwnership(w, e);
    forall r | r in Apply(w, e).rounds { StepKeepsRoom(w, e, r); }
    StepKeepsLog(w, e);
  }

  lemma {:induction false} RunInvariant(run: Run, i: nat)
    requires IsRun(run) && i < |run.states|
    ensures Invariant(run.states[i])
  {
    if i > 0 {
      RunInvariant(run, i - 1);
      assert Step(run.states[i - 1], run.events[i - 1], run.states[i - 1 + 1]);
      StepKeepsInvariant(run.states[i - 1], run.events[i - 1]);
    }
  }

  /** In every interleaving of rounds, crashes included, an item being dispatched is
      held by exactly one round, so no two rounds work on the same item. */
  lemma OneDrainPerItem(run: Run, i: nat)
    requires IsRun(run) && i < |run.states|
    ensures Ownership(run.states[i])
  {
    RunInvariant(run, i);
  }

  /** However the rounds interleave, one round dispatches at most once on a scope. */
  lemma DispatchesAreSeparate(run: Run, i: nat)
    requires IsRun(run) && i < |run.states|
    ensures var log := run.states[i].log;
      forall a, b :: 0 <= a < b < |log| && log[a].round == log[b].round ==> log[a].scope != log[b].scope
  {
    RunInvariant(run, i);
    var log := run.states[i].log;
    forall a, b | 0 <= a < b < |log| && log[a].round == log[b].round ensures log[a].scope != log[b].scope {
      assert Separate(log[a], log[b]);
    }
  }

  // ------------------------------------------------- an item dispatched again

  predicate IsDone(w: World, k: string) {
    k in w.items && w.items[k].state == Q.State.Done
  }

  /** A dispatched item is done, or about to be marked so. */
  ghost predicate Spent(w: World, k: string) {
    IsDone(w, k) || CreatedUnmarked(w, k)
  }

  lemma HeldIsNotDone(w: World, r: nat)
    requires Ownership(w) && r in w.rounds && (At(w, r).Holding? || At(w, r).Settling?)
    ensures BeingDispatched(w.items, At(w, r).item)
  {
    assert Holds(w.rounds[r], At(w, r).item);
  }

  /** A done item stays done, whatever happens, a crash included. */
  lemma DoneStaysDone(w: World, e: Event, k: string)
    requires Ownership(w) && Enabled(w, e) && IsDone(w, k)
    ensures IsDone(Apply(w, e), k)
  {
    if e.Settles? { HeldIsNotDone(w, e.r); }
  }

  lemma UnmarkedIsHeld(w: World, k: string) returns (r: nat)
    requires CreatedUnmarked(w, k)
    ensures r in w.rounds && IsSettling(w.rounds[r], k) && Holds(w.rounds[r], k)
  {
    r :| r in w.rounds && IsSettling(w.rounds[r], k);
  }

  /** A crash makes a dispatched item pending again exactly when its task was created and
      the item not yet marked. */
  lemma CrashReopensIff(w: World, now: int, k: string)
    requires Ownership(w) && Spent(w, k)
    ensures k in w.items && (AfterCrash(w, now).items[k].state == Q.State.Pending <==> CreatedUnmarked(w, k))
  {
    if CreatedUnmarked(w, k) {
      var r := UnmarkedIsHeld(w, k);
      HeldIsNotDone(w, r);
    }
  }

  lemma StepKeepsSpent(w: World, e: Event, k: string)
    requires Ownership(w) && Enabled(w, e) && Spent(w, k)
    ensures Spent(Apply(w, e), k) || (e.Crashes? && CreatedUnmarked(w, k))
  {
    if IsDone(w, k) {
      DoneStaysDone(w, e, k);
    } else if !e.Crashes? {
      var r := UnmarkedIsHeld(w, k);
      HeldIsNotDone(w, r);
      var w' := Apply(w, e);
      if e.Settles? && e.r == r {
        assert IsDone(w', k);
      } else {
        if e.Settles? { HeldIsNotDone(w, e.r); }
        assert r in w'.rounds && IsSettling(w'.rounds[r], k);
      }
    }
  }

  lemma StepGrowsLog(w: World, e: Event)
    requires Enabled(w, e)
    ensures w.log <= Apply(w, e).log && |Apply(w, e).log| <= |w.log| + 1
    ensures |Apply(w, e).log| > |w.log| ==>
      e.Creates? && Apply(w, e).log[|w.log|].item == At(w, e.r).item && CreatedUnmarked(Apply(w, e), At(w, e.r).item)
  {
    if |Apply(w, e).log| > |w.log| { assert IsSettling(Apply(w, e).rounds[e.r], At(w, e.r).item); }
  }

  /** The server crashed when the task of the item was created and the item not marked,
      after the a-th dispatch. */
  ghost predicate CrashedUnmarked(run: Run, j: nat, a: nat, k: string) {
    && j < |run.events| < |run.states| && run.events[j].Crashes? && a < |run.states[j].log|
    && CreatedUnmarked(run.states[j], k)
  }

  /** A dispatched item stays spent, until such a crash. */
  lemma {:induction false} StillSpent(run: Run, i: nat, a: nat) returns (j: nat)
    requires IsRun(run) && i < |run.states| && a < |run.states[i].log|
    ensures var k := run.states[i].log[a].item;
      Spent(run.states[i], k) || (j < i && CrashedUnmarked(run, j, a, k))
  {
    j := 0;
    if i > 0 {
      var w, e := run.states[i - 1], run.events[i - 1];
      assert Step(w, e, run.states[i - 1 + 1]);
      StepGrowsLog(w, e);
      if a < |w.log| {
        j := StillSpent(run, i - 1, a);
        RunInvariant(run, i - 1);
        if Spent(w, w.log[a].item) {
          StepKeepsSpent(w, e, w.log[a].item);
          j := if Spent(run.states[i], w.log[a].item) then j else i - 1;
        }
      }
    }
  }

  lemma {:induction false} LogGrows(run: Run, j: nat, i: nat)
    requires IsRun(run) && j <= i < |run.states|
    ensures run.states[j].log <= run.states[i].log
    decreases i
  {
    if j < i {
      LogGrows(run, j, i - 1);
      assert Step(run.states[i - 1], run.events[i - 1], run.states[i - 1 + 1]);
      StepGrowsLog(run.states[i - 1], run.events[i - 1]);
    }
  }

  lemma ClaimedIsNotSpent(w: World, r: nat)
    requires Ownership(w) && At(w, r).Holding?
    ensures !Spent(w, At(w, r).item)
  {
    var k := At(w, r).item;
    HeldIsNotDone(w, r);
    if CreatedUnmarked(w, k) {
      var q := UnmarkedIsHeld(w, k);
      assert Holds(w.rounds[r], k);
    }
  }

  /** Between two dispatches of one item the server crashed, and at that moment the task
      of the item was created and the item not yet marked done. */
  lemma {:induction false} RedispatchedAfterCrash(run: Run, i: nat, a: nat, b: nat) returns (j: nat)
    requires IsRun(run) && i < |run.states| && a < b < |run.states[i].log|
    requires run.states[i].log[a].item == run.states[i].log[b].item
    ensures j < i && CrashedUnmarked(run, j, a, run.states[i].log[a].item) && |run.states[j].log| <= b
  {
    var w, e := run.states[i - 1], run.events[i - 1];
    assert Step(w, e, run.states[i - 1 + 1]);
    StepGrowsLog(w, e);
    if b < |w.log| {
      j := RedispatchedAfterCrash(run, i - 1, a, b);
    } else {
      RunInvariant(run, i - 1);
      ClaimedIsNotSpent(w, e.r);
      j := StillSpent(run, i - 1, a);
      LogGrows(run, j, i - 1);
    }
  }

  // ------------------------------------------------- what a round has looked up

  /** By then the round had not looked at the scope, which had at most `n` in flight. */
  predicate Unseen(w: World, r: nat, scope: string, n: nat) {
    r in w.rounds && scope !in w.rounds[r].counts && InFlightIn(w.tasks, scope) <= n
  }

  lemma StepLooks(w: World, e: Event, r: nat, scope: string)
    requires Enabled(w, e) && (r in w.rounds ==> HasRoom(w.rounds[r]))
    requires r in Apply(w, e).rounds && scope in Apply(w, e).rounds[r].counts
    ensures var n := Apply(w, e).rounds[r].counts[scope];
      Unseen(w, r, scope, n) || (r in w.rounds && scope in w.rounds[r].counts && w.rounds[r].counts[scope] <= n)
  {
  }

  /** The local map never shows less than was in flight when the round looked. */
  lemma {:induction false} LookedUp(run: Run, i: nat, r: nat, scope: string) returns (j: nat)
    requires IsRun(run) && i < |run.states|
    requires r in run.states[i].rounds && scope in run.states[i].rounds[r].counts
    ensures j < i && Unseen(run.states[j], r, scope, run.states[i].rounds[r].counts[scope])
  {
    j := i - 1;
    var w := run.states[j];
    assert Step(w, run.events[j], run.states[j + 1]);
    RunInvariant(run, j);
    StepLooks(w, run.events[j], r, scope);
    if !Unseen(w, r, scope, run.states[i].rounds[r].counts[scope]) {
      j := LookedUp(run, j, r, scope);
    }
  }

  /** A dispatch on a scope happens only if its round has seen the scope within the
      budget, at a moment after the round began. */
  lemma {:induction false} DispatchHadRoom(run: Run, i: nat, d: Dispatch) returns (j: nat)
    requires IsRun(run) && i < |run.states| && d in run.states[i].log
    ensures j < i && Unseen(run.states[j], d.round, d.scope, BUDGET - 1)
  {
    j := i - 1;
    var w, e := run.states[j], run.events[j];
    assert Step(w, e, run.states[j + 1]);
    if d in w.log {
      j := DispatchHadRoom(run, j, d);
    } else {
      RunInvariant(run, j);
      assert HasRoom(w.rounds[e.r]);
      j := LookedUp(run, j, e.r, d.scope);
    }
  }

  // ------------------------------------------------------ one round by itself

  /** The other actors do not take the scope beyond the budget. */
  predicate Modest(w: World, e: Event, scope: string) {
    e.TasksChange? ==> InFlightIn(e.tasks, scope) <= Max(BUDGET, InFlightIn(w.tasks, scope))
  }

  ghost predicate AllModest(run: Run, scope: string)
    requires IsRun(run)
  {
    forall j :: 0 <= j < |run.events| ==> Modest(run.states[j], run.events[j], scope)
  }

  lemma Then(run: Run, e: Event, w: World) returns (run': Run)
    requires IsRun(run) && Step(Last(run), e, w)
    ensures IsRun(run') && Last(run') == w && run'.states[0] == run.states[0]
    ensures forall scope :: AllModest(run, scope) && Modest(Last(run), e, scope) ==> AllModest(run', scope)
  {
    run' := Run(run.states + [w], run.events + [e]);
    forall i | 0 <= i < |run'.events| ensures Step(run'.states[i], run'.events[i], run'.states[i + 1]) {
      if i < |run.events| {
        assert Step(run.states[i], run.events[i], run.states[i + 1]);
      }
    }
    forall scope | AllModest(run, scope) && Modest(Last(run), e, scope) ensures AllModest(run', scope) {
      forall j | 0 <= j < |run'.events| ensures Modest(run'.states[j], run'.events[j], scope) {
        if j < |run.events| { assert Modest(run.states[j], run.events[j], scope); }
      }
    }
  }

  predicate Matches(w: World, r: nat, s: Sweep) {
    r in w.rounds && w.items == s.items && w.tasks == s.tasks && w.rounds[r].counts == s.counts
  }

  /** A visit that nothing interrupts is the one of the sequential round. */
  lemma UninterruptedVisit(run: Run, r: nat, cid: string, env: Env, id: string, now: int, log: seq<DispatchRecord>)
    returns (run': Run)
    requires IsRun(run) && At(Last(run), r).Idle?
    ensures IsRun(run') && At(Last(run'), r).Idle?
    ensures var w := Last(run);
      Matches(Last(run'), r, Visited(Sweep(w.items, w.tasks, w.rounds[r].counts, log), cid, env, id, now))
  {
    var w := Last(run);
    var w1 := Apply(w, Resolves(r, cid));
    run' := Then(run, Resolves(r, cid), w1);
    var w2 := AfterCounts(w1, r);
    run' := Then(run', Counts(r), w2);
    if w2.rounds[r].phase.Cleared? {
      if cid == "" || Q.PendingOf(w.items, cid) == {} {
        run' := Then(run', FindsNothing(r), Apply(w2, FindsNothing(r)));
      } else {
        run' := UninterruptedDrain(run', r, env, id, now, log);
      }
    }
  }

  lemma DrainedWorld(w: World, r: nat, cid: string, scope: string, env: Env, id: string, now: int,
                     log: seq<DispatchRecord>, w': World)
    requires At(w, r) == Cleared(cid, scope) && scope in w.rounds[r].counts && Q.PendingOf(w.items, cid) != {}
    requires w' == AfterSettles(AfterCreates(Claimed(w, r, Q.FirstOf(w.items, cid), now), r, env, id), r, now)
    ensures Matches(w', r, Drained(Sweep(w.items, w.tasks, w.rounds[r].counts, log), cid, scope, env, id, now))
  {
  }

  lemma UninterruptedDrain(run: Run, r: nat, env: Env, id: string, now: int, log: seq<DispatchRecord>)
    returns (run': Run)
    requires IsRun(run) && At(Last(run), r).Cleared? && HasRoom(Last(run).rounds[r])
    requires At(Last(run), r).cid != "" && Q.PendingOf(Last(run).items, At(Last(run), r).cid) != {}
    ensures IsRun(run') && At(Last(run'), r).Idle?
    ensures var w, p := Last(run), At(Last(run), r);
      Matches(Last(run'), r, Drained(Sweep(w.items, w.tasks, w.rounds[r].counts, log), p.cid, p.scope, env, id, now))
  {
    var w := Last(run);
    var item := Q.FirstOf(w.items, At(w, r).cid);
    var w1 := Claimed(w, r, item, now);
    run' := Then(run, Claims(r, item, now), w1);
    var w2 := AfterCreates(w1, r, env, id);
    run' := Then(run', Creates(r, env, id), w2);
    var w3 := AfterSettles(w2, r, now);
    run' := Then(run', Settles(r, now), w3);
    DrainedWorld(w, r, At(w, r).cid, At(w, r).scope, env, id, now, log, w3);
  }

  // ------------------------------------------------------ the stored budget

  /** Some task in flight counts on the scope. */
  predicate ScopeInFlight(tasks: Tasks, scope: string) {
    exists i | 0 <= i < |tasks| :: CountsOn(tasks[i], scope)
  }

  predicate CountsOn(t: Row, scope: string) {
    TaskStore.InFlight(t.status) && ScopeKey(t) == scope
  }

  lemma {:induction false} CountIsPositiveIff(tasks: Tasks, scope: string)
    ensures InFlightIn(tasks, scope) > 0 <==> ScopeInFlight(tasks, scope)
  {
    if tasks != [] {
      var early, t := tasks[..|tasks| - 1], tasks[|tasks| - 1];
      CountIsPositiveIff(early, scope);
      if ScopeInFlight(early, scope) {
        var i :| 0 <= i < |early| && CountsOn(early[i], scope);
        assert tasks[i] == early[i];
      }
    }
  }

  /** The follow-up is created, and counts on a scope where a task is in flight already. */
  predicate OverrunBy(tasks: Tasks, cid: string, env: Env, id: string, scope: string) {
    && CreateContinue(tasks, cid, env, id).1 == Created
    && ScopeKey(FollowUp(Latest(tasks, cid).value, id, Queued)) == scope && ScopeInFlight(tasks, scope)
  }

  /** Exactly when creating a follow-up takes a scope beyond the budget. */
  lemma FollowUpOverrunsIff(tasks: Tasks, cid: string, env: Env, id: string, scope: string)
    ensures InFlightIn(CreateContinue(tasks, cid, env, id).0, scope) > Max(BUDGET, InFlightIn(tasks, scope))
       <==> OverrunBy(tasks, cid, env, id, scope)
  {
    var (tasks', o) := CreateContinue(tasks, cid, env, id);
    CountIsPositiveIff(tasks, scope);
    if tasks' != tasks {
      var t := FollowUp(Latest(tasks, cid).value, id, if o == Created then Queued else Failed);
      assert tasks' == tasks + [t];
      AppendCounts(tasks, t, scope);
    }
  }

  predicate HaveWorkdirs(tasks: Tasks) {
    forall t | t in tasks :: t.workdir != ""
  }

  /** The task in flight already is then a worktree task based on the follow-up's workdir:
      the workdir lock shuts out every other. */
  lemma OverrunIsByWorktree(tasks: Tasks, cid: string, env: Env, id: string, scope: string, t: Row)
    requires HaveWorkdirs(tasks) && OverrunBy(tasks, cid, env, id, scope) && t in tasks && CountsOn(t, scope)
    ensures t.baseWorkdir == scope == Latest(tasks, cid).value.workdir != t.workdir
  {
    LatestIs(tasks, cid);
  }

  /** Without worktrees there is no such task, so the lock alone keeps every budget. */
  lemma NoWorktreeNoOverrun(tasks: Tasks, cid: string, env: Env, id: string, scope: string)
    requires HaveWorkdirs(tasks) && forall t :: t in tasks ==> t.baseWorkdir == ""
    ensures !OverrunBy(tasks, cid, env, id, scope)
  {
    if OverrunBy(tasks, cid, env, id, scope) {
      var i :| 0 <= i < |tasks| && CountsOn(tasks[i], scope);
      OverrunIsByWorktree(tasks, cid, env, id, scope, tasks[i]);
    }
  }

  predicate Overruns(w: World, e: Event, scope: string)
    requires Enabled(w, e)
  {
    e.Creates? && e.env.optionsValid && OverrunBy(w.tasks, At(w, e.r).cid, e.env, e.taskId, scope)
  }

  /** The stored count of a scope after a step is beyond the budget, and more than it was,
      exactly if the step is such a creation. */
  lemma StepOverrunsIff(w: World, e: Event, scope: string)
    requires Enabled(w, e) && Modest(w, e, scope)
    ensures InFlightIn(Apply(w, e).tasks, scope) > Max(BUDGET, InFlightIn(w.tasks, scope)) <==> Overruns(w, e, scope)
  {
    if e.Creates? { FollowUpOverrunsIff(w.tasks, At(w, e.r).cid, e.env, e.taskId, scope); }
  }

  ghost predicate OverrunAt(run: Run, j: nat, scope: string)
    requires IsRun(run) && j < |run.events|
  {
    assert Step(run.states[j], run.events[j], run.states[j + 1]);
    Overruns(run.states[j], run.events[j], scope)
  }

  function StoredAt(run: Run, i: nat, scope: string): nat
    requires i < |run.states|
  {
    InFlightIn(run.states[i].tasks, scope)
  }

  lemma RunStepOverrunsIff(run: Run, i: nat, scope: string)
    requires IsRun(run) && AllModest(run, scope) && i < |run.events|
    ensures StoredAt(run, i + 1, scope) > Max(BUDGET, StoredAt(run, i, scope)) <==> OverrunAt(run, i, scope)
  {
    assert Step(run.states[i], run.events[i], run.states[i + 1]);
    assert Modest(run.states[i], run.events[i], scope);
    StepOverrunsIff(run.states[i], run.events[i], scope);
  }

  /** Until the first such creation the scope stays within the budget, or what it was. */
  lemma {:induction false} KeptUntilOverrun(run: Run, i: nat, scope: string)
    requires IsRun(run) && AllModest(run, scope) && i <= |run.events|
    requires forall j :: 0 <= j < i ==> !OverrunAt(run, j, scope)
    ensures StoredAt(run, i, scope) <= Max(BUDGET, StoredAt(run, 0, scope))
  {
    if i > 0 {
      KeptUntilOverrun(run, i - 1, scope);
      assert !OverrunAt(run, i - 1, scope);
      RunStepOverrunsIff(run, i - 1, scope);
    }
  }

  /** Over a whole run in which the other actors keep to it, any number of rounds keeps
      the budget of a scope exactly if none creates a follow-up that counts on the scope
      while a task there is in flight. */
  lemma RoundsKeepBudgetIff(run: Run, scope: string)
    requires IsRun(run) && AllModest(run, scope) && StoredAt(run, 0, scope) <= BUDGET
    ensures (forall i :: 0 <= i < |run.states| ==> StoredAt(run, i, scope) <= BUDGET)
       <==> (forall j :: 0 <= j < |run.events| ==> !OverrunAt(run, j, scope))
  {
    if forall j :: 0 <= j < |run.events| ==> !OverrunAt(run, j, scope) {
      forall i | 0 <= i < |run.states| ensures StoredAt(run, i, scope) <= BUDGET { KeptUntilOverrun(run, i, scope); }
    } else {
      var j :| 0 <= j < |run.events| && OverrunAt(run, j, scope);
      RunStepOverrunsIff(run, j, scope);
      assert StoredAt(run, j + 1, scope) > BUDGET;
    }
  }

  // ------------------------------------------------ dispatches on one scope

  /** Of two rounds that have looked up one scope and could each create a follow-up now,
      both do exactly if the follow-ups are of different conversations and go to different
      workdirs; the log then shows two dispatches on the scope, both in flight. */
  lemma BothDispatchIff(w: World, r: nat, q: nat, a: string, b: string, scope: string, i: string, k: string,
                        env: Env, env': Env, id: string, id': string, w': World)
    requires r != q && At(w, r) == Holding(a, scope, i) && At(w, q) == Holding(b, scope, k)
    requires env.optionsValid && CreateContinue(w.tasks, a, env, id).1 == Created
    requires env'.optionsValid && CreateContinue(w.tasks, b, env', id').1 == Created
    requires w' == AfterCreates(AfterCreates(w, r, env, id), q, env', id')
    ensures w'.log == w.log + [Dispatch(r, i, scope, id), Dispatch(q, k, scope, id')]
         && |w'.tasks| == |w.tasks| + 2 && (forall n :: |w.tasks| <= n < |w'.tasks| ==> w'.tasks[n].status == Queued)
       <==> a != b && Latest(w.tasks, a).value.workdir != Latest(w.tasks, b).value.workdir
  {
    var t := FollowUp(Latest(w.tasks, a).value, id, Queued);
    var tasks := w.tasks + [t];
    assert AfterCreates(w, r, env, id).tasks == tasks;
    assert AfterCreates(w, r, env, id).log == w.log + [Dispatch(r, i, scope, id)];
    LatestIs(w.tasks, a);
    LatestAfter(w.tasks, t, b);
    SecondCreatesIff(w.tasks, t, a, b, env', id');
    var o := CreateContinue(tasks, b, env', id').1;
    assert o != Created ==> w'.log == w.log + [Dispatch(r, i, scope, id)];
    assert o == Created ==> w'.log == w.log + [Dispatch(r, i, scope, id)] + [Dispatch(q, k, scope, id')];
  }

  lemma SecondCreatesIff(tasks: Tasks, t: Row, a: string, b: string, env: Env, id: string)
    requires CreateContinue(tasks, b, env, id).1 == Created && Latest(tasks, a).Some?
    requires t.status == Queued && t.conversation == a && t.workdir == Latest(tasks, a).value.workdir
    requires !t.sessionDeleted
    ensures CreateContinue(tasks + [t], b, env, id).1 == Created
       <==> a != b && t.workdir != Latest(tasks, b).value.workdir
    ensures CreateContinue(tasks + [t], b, env, id).1 == Created ==>
      CreateContinue(tasks + [t], b, env, id).0 == tasks + [t] + [FollowUp(Latest(tasks, b).value, id, Queued)]
  {
    var later := tasks + [t];
    LatestAfter(tasks, t, b);
    assert later[|tasks|] == t && TaskStore.InFlight(t.status);
    if a != b {
      SameConversation(tasks, t, b);
      if t.workdir != Latest(tasks, b).value.workdir { SameWorkdir(tasks, t, Latest(tasks, b).value.workdir); }
    }
  }

  lemma SameConversation(tasks: Tasks, t: Row, c: string)
    requires t.conversation != c
    ensures ConversationInFlight(tasks + [t], c) <==> ConversationInFlight(tasks, c)
  {
    var later := tasks + [t];
    if ConversationInFlight(tasks, c) {
      var i :| 0 <= i < |tasks| && tasks[i].conversation == c && TaskStore.InFlight(tasks[i].status);
      assert later[i] == tasks[i];
    }
  }

  lemma SameWorkdir(tasks: Tasks, t: Row, d: string)
    requires t.workdir != d
    ensures WorkdirInFlight(tasks + [t], d) <==> WorkdirInFlight(tasks, d)
  {
    var later := tasks + [t];
    if WorkdirInFlight(tasks, d) {
      var i :| 0 <= i < |tasks| && tasks[i].workdir == d && TaskStore.InFlight(tasks[i].status);
      assert later[i] == tasks[i];
    }
  }

  /** Two conversations with one scope and different workdirs: one of them is continued
      in a worktree. */
  lemma OneScopeTwoWorkdirs(tasks: Tasks, a: string, b: string)
    requires HaveWorkdirs(tasks) && Latest(tasks, a).Some? && Latest(tasks, b).Some?
    requires ScopeOf(tasks, a) == ScopeOf(tasks, b)
    requires Latest(tasks, a).value.workdir != Latest(tasks, b).value.workdir
    ensures Latest(tasks, a).value.baseWorkdir != "" || Latest(tasks, b).value.baseWorkdir != ""
  {
    LatestIs(tasks, a);
    LatestIs(tasks, b);
  }

  lemma LatestAfter(tasks: Tasks, t: Row, conversation: string)
    ensures Latest(tasks + [t], conversation)
         == if t.conversation == conversation then Some(t) else Latest(tasks, conversation)
  {
    assert (tasks + [t])[..|tasks|] == tasks;
  }

  // ----------------------------------------------------------- three examples

  const SMOOTH := Env(true, true, true)

  /** A new round that finds room on the scope of a conversation. */
  lemma Clears(run: Run, w: World, r: nat, cid: string) returns (run': Run)
    requires IsRun(run) && w == Last(run) && r !in w.rounds && InFlightIn(w.tasks, ScopeOf(w.tasks, cid)) == 0
    ensures IsRun(run') && run'.states[0] == run.states[0]
    ensures forall s :: AllModest(run, s) ==> AllModest(run', s)
    ensures var scope := ScopeOf(w.tasks, cid);
      Last(run') == w.(rounds := w.rounds[r := Drain(map[scope := 0], Cleared(cid, scope))])
  {
    var scope := ScopeOf(w.tasks, cid);
    var w1 := w.(rounds := w.rounds[r := Drain(map[], Idle)]);
    var w2 := w.(rounds := w.rounds[r := Drain(map[], Resolved(cid, scope))]);
    var w3 := w.(rounds := w.rounds[r := Drain(map[scope := 0], Cleared(cid, scope))]);
    assert w1.rounds[r := Drain(map[], Resolved(cid, scope))] == w2.rounds;
    assert w2.rounds[r := Drain(map[scope := 0], Cleared(cid, scope))] == w3.rounds;
    run' := Then(run, Starts(r), w1);
    run' := Then(run', Resolves(r, cid), w2);
    run' := Then(run', Counts(r), w3);
  }

  /** It claims an item and creates its task. */
  lemma Dispatches(run: Run, w: World, r: nat, cid: string, scope: string, id: string, taskId: string, tasks: Tasks)
    returns (run': Run)
    requires IsRun(run) && w == Last(run) && At(w, r) == Cleared(cid, scope)
    requires cid != "" && Q.First(w.items, cid, id) && CreateContinue(w.tasks, cid, SMOOTH, taskId) == (tasks, Created)
    ensures IsRun(run') && run'.states[0] == run.states[0]
    ensures forall s :: AllModest(run, s) ==> AllModest(run', s)
    ensures Last(run') == World(
      Q.AfterMark(w.items, id, Q.State.Dispatching, 0), tasks, Moved(w, r, Settling(scope, id, Q.State.Done)),
      w.log + [Dispatch(r, id, scope, taskId)])
  {
    var w1 := Apply(w, Claims(r, id, 0));
    var w2 := AfterCreates(w1, r, SMOOTH, taskId);
    assert Moved(w1, r, Settling(scope, id, Q.State.Done)) == Moved(w, r, Settling(scope, id, Q.State.Done));
    run' := Then(run, Claims(r, id, 0), w1);
    run' := Then(run', Creates(r, SMOOTH, taskId), w2);
  }

  function Waiting(conversation: string): Q.Item {
    Q.Item(conversation, "go on", "", 0, Q.State.Pending, 0, 0)
  }

  function Finished(id: string, conversation: string, workdir: string): Row {
    Row(id, conversation, workdir, "repo", Succeeded, false)
  }

  /** Two worktrees of one project, each with a conversation that has one item waiting. */
  function Project(): World {
    World(map["i" := Waiting("a"), "j" := Waiting("b")],
          [Finished("1", "a", "repo/x"), Finished("2", "b", "repo/y")], map[], [])
  }

  lemma ProjectTasks()
    ensures var tasks := Project().tasks;
      && Latest(tasks, "a") == Some(tasks[0]) && Latest(tasks, "b") == Some(tasks[1])
      && ScopeOf(tasks, "a") == "repo" && ScopeOf(tasks, "b") == "repo" && InFlightIn(tasks, "repo") == 0
  {
    var tasks := Project().tasks;
    assert tasks == ([] + [tasks[0]]) + [tasks[1]];
    LatestAfter([], tasks[0], "a");
    LatestAfter([] + [tasks[0]], tasks[1], "a");
    LatestAfter([] + [tasks[0]], tasks[1], "b");
    NothingInFlight(tasks, "repo");
  }

  lemma ProjectQueue(w: World)
    requires w == Project()
    ensures Start(w) && Q.First(w.items, "a", "i") && Q.First(w.items, "b", "j")
    ensures Q.First(Q.AfterMark(w.items, "i", Q.State.Dispatching, 0), "b", "j")
  {
  }

  lemma FirstFollowUp(tasks: Tasks)
    requires tasks == Project().tasks
    ensures CreateContinue(tasks, "a", SMOOTH, "3") == (tasks + [FollowUp(tasks[0], "3", Queued)], Created)
  {
    ProjectTasks();
    assert forall i :: 0 <= i < |tasks| ==> tasks[i].status == Succeeded;
  }

  lemma SecondFollowUp(tasks: Tasks, early: Tasks)
    requires tasks == Project().tasks && early == tasks + [FollowUp(tasks[0], "3", Queued)]
    ensures CreateContinue(early, "b", SMOOTH, "4") == (early + [FollowUp(tasks[1], "4", Queued)], Created)
  {
    ProjectTasks();
    assert early[..|early| - 1] == tasks;
    assert Latest(early, "b") == Some(tasks[1]);
    assert early[0].status == Succeeded && early[1].status == Succeeded;
    assert early[2].conversation == "a" && early[2].workdir == "repo/x";
  }

  lemma BothLook(w: World) returns (run: Run)
    requires w == Project()
    ensures IsRun(run) && run.states[0] == w
    ensures var cleared := Drain(map["repo" := 0], Cleared("a", "repo"));
      Last(run) == w.(rounds := map[0 := cleared, 1 := cleared.(phase := Cleared("b", "repo"))])
  {
    ProjectTasks();
    ProjectQueue(w);
    run := Run([w], []);
    run := Clears(run, w, 0, "a");
    run := Clears(run, Last(run), 1, "b");
  }

  /** Both rounds look before either creates its task, and both dispatch on the one scope. */
  lemma TwoRoundsDispatchOnOneScope() returns (run: Run)
    ensures IsRun(run) && run.states[0] == Project()
    ensures var log := Last(run).log; |log| == 2 && log[0].scope == log[1].scope && log[0].taskId != log[1].taskId
    ensures var tasks := Last(run).tasks;
      |tasks| == 4 && tasks[2].status == Queued && tasks[3].status == Queued
  {
    var w := Project();
    var tasks := w.tasks;
    var early := tasks + [FollowUp(tasks[0], "3", Queued)];
    ProjectQueue(w);
    FirstFollowUp(tasks);
    SecondFollowUp(tasks, early);
    run := BothLook(w);
    run := Dispatches(run, Last(run), 0, "a", "repo", "i", "3", early);
    run := Dispatches(run, Last(run), 1, "b", "repo", "j", "4", early + [FollowUp(tasks[1], "4", Queued)]);
  }

  /** A conversation continued in the project itself, with one item waiting. */
  function Alone(): World {
    World(map["i" := Waiting("a")], [Row("1", "a", "repo", "", Succeeded, false)], map[], [])
  }

  /** A task in a worktree of the project, started by somebody else. */
  function InWorktree(): Row {
    Row("2", "b", "repo/x", "repo", Running, false)
  }

  lemma AloneFacts(w: World)
    requires w == Alone()
    ensures Start(w) && Q.First(w.items, "a", "i") && Latest(w.tasks, "a") == Some(w.tasks[0])
    ensures ScopeOf(w.tasks, "a") == "repo" && InFlightIn(w.tasks, "repo") == 0
    ensures InFlightIn(w.tasks + [InWorktree()], "repo") == 1
  {
    assert w.tasks == [] + [w.tasks[0]];
    LatestAfter([], w.tasks[0], "a");
    NothingInFlight(w.tasks, "repo");
    AppendCounts(w.tasks, InWorktree(), "repo");
  }

  lemma BesideWorktree(w: World, tasks: Tasks, later: Tasks)
    requires w == Alone() && tasks == w.tasks + [InWorktree()] && later == tasks + [FollowUp(w.tasks[0], "3", Queued)]
    ensures CreateContinue(tasks, "a", SMOOTH, "3") == (later, Created) && InFlightIn(later, "repo") == 2
  {
    AloneFacts(w);
    LatestAfter(w.tasks, InWorktree(), "a");
    assert tasks[0].status == Succeeded && tasks[1].conversation == "b" && tasks[1].workdir == "repo/x";
    AppendCounts(tasks, FollowUp(w.tasks[0], "3", Queued), "repo");
  }

  /** One round is enough: it finds the project free, a worktree task on the project is
      started, and the round creates its follow-up all the same. */
  lemma OneRoundOverrunsTheBudget() returns (run: Run)
    ensures IsRun(run) && run.states[0] == Alone() && AllModest(run, "repo")
    ensures StoredAt(run, 0, "repo") == 0 && InFlightIn(Last(run).tasks, "repo") == 2 > BUDGET
  {
    var w := Alone();
    var tasks := w.tasks + [InWorktree()];
    var later := tasks + [FollowUp(w.tasks[0], "3", Queued)];
    AloneFacts(w);
    BesideWorktree(w, tasks, later);
    run := Run([w], []);
    assert AllModest(run, "repo");
    run := Clears(run, w, 0, "a");
    var changed := Last(run).(tasks := tasks);
    run := Then(run, TasksChange(tasks), changed);
    assert AllModest(run, "repo");
    run := Dispatches(run, changed, 0, "a", "repo", "i", "3", later);
  }

  lemma ThirdFollowUp(tasks: Tasks, later: Tasks)
    requires tasks == Project().tasks && later == tasks + [FollowUp(tasks[0], "3", Succeeded)]
    ensures ScopeOf(later, "a") == "repo/x" && InFlightIn(later, "repo/x") == 0
    ensures CreateContinue(later, "a", SMOOTH, "5") == (later + [FollowUp(later[2], "5", Queued)], Created)
  {
    assert later[0].status == Succeeded && later[1].status == Succeeded && later[2].status == Succeeded;
    NothingInFlight(later, "repo/x");
  }

  lemma {:induction false} NothingInFlight(tasks: Tasks, scope: string)
    requires forall t :: t in tasks ==> t.status == Succeeded
    ensures InFlightIn(tasks, scope) == 0
  {
    if tasks != [] { NothingInFlight(tasks[..|tasks| - 1], scope); }
  }

  lemma DispatchAndCrash(w: World, later: Tasks) returns (run: Run)
    requires w == Project()
    ensures IsRun(run) && run.states[0] == w
    ensures var now := Last(run);
      && now.items == Q.AfterReset(Q.AfterMark(w.items, "i", Q.State.Dispatching, 0), 0) && now.tasks == later
      && now.log == [Dispatch(0, "i", "repo", "3")] && now.rounds.Keys == {0}
  {
    ProjectTasks();
    ProjectQueue(w);
    FirstFollowUp(w.tasks);
    run := Run([w], []);
    run := Clears(run, w, 0, "a");
    run := Dispatches(run, Last(run), 0, "a", "repo", "i", "3", w.tasks + [FollowUp(w.tasks[0], "3", Queued)]);
    var w1 := AfterCrash(Last(run), 0);
    run := Then(run, Crashes(0), w1);
    run := Then(run, TasksChange(later), w1.(tasks := later));
  }

  /** The server crashes between creating the task and marking its item: when that task
      has finished, the item is dispatched once more. */
  lemma CrashDispatchesAgain() returns (run: Run)
    ensures IsRun(run) && run.states[0] == Project()
    ensures var log := Last(run).log;
      |log| == 2 && log[0].item == log[1].item && log[0].taskId != log[1].taskId
  {
    var w := Project();
    var later := w.tasks + [FollowUp(w.tasks[0], "3", Succeeded)];
    ThirdFollowUp(w.tasks, later);
    run := DispatchAndCrash(w, later);
    run := Clears(run, Last(run), 1, "a");
    run := Dispatches(run, Last(run), 1, "a", "repo/x", "i", "5", later + [FollowUp(later[2], "5", Queued)]);
  }
}
