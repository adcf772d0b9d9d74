# ControlCCX: verified models of its stateful core

ControlCCX runs coding agents on a user's machine: a server keeps tasks, approvals,
conversations and chat in a database, a secretary schedules jobs and compresses its chat,
runner daemons execute tasks and stream events back. This project models the parts of it
that keep state over runs and proves what they guarantee, for every run or every input.

| module | what it models |
|---|---|
| Scheduler | secretary schedule jobs: ticker, executor, expiry timer and canceller interleaved over one lock |
| TaskStore, Score | the task table with its per-workdir lock, wait queue and cached score |
| ContinueQueue, RoundRobin | the session-continue queue and its round-robin listing |
| Dispatcher, ConcurrentRounds | a drain round by itself, and any number of them at once |
| Approvals | approval decisions of server and runner daemon racing on one compare-and-set row |
| CopyWorkspace | copy workspaces and applying them back |
| AuditPaging | merged audit queries and their cursors |
| Compression, ConcurrentCompression | rolling chat compression: one call by itself, and calls that overlap |
| ConversationIds | the backfill of conversation ids and the migration of keyed state |
| Sse | server-sent events, printed and read back |
| GitSkills, Paths | nested skill candidates, path cleaning |
| Rehydrate | the byte-limited prompt window |
| ImportNames | provider profiles and the names of imported ones |
| Text, Sorting, Wrappers | white space, byte order, sorting, option and result types |

Objects the program updates in place are classes here, and their methods are proved
against functions on plain values; whole runs are state machines whose steps are those same
functions. What such a function does is stated apart from it as well, field by field and in
the states and constants themselves. Each query, each database transaction and each stretch under a lock is one
atomic step; what a caller keeps in its own variables between them may be out of date.
Clocks, fresh random ids, and what happens outside the store (whether a summary succeeds, a
runner starts, a connection breaks) are parameters.

Where the code does not do what one might expect, the code is modelled and the exact
condition is proved:

- `setStatus` keeps one active task per workdir only if its callers do not revive a task
  whose workdir was given away (`SetStatusKeepsExclusionIff`).
- `MarkInterrupted` leaves the blocked bonus in the score of tasks that awaited approval
  (`ScoreIsCurrent`).
- Creating a worktree task checks for missing directories only after cleaning them to ".",
  so only a missing branch, or a directory that cleaning leaves blank, is noticed
  (`WorktreeRefusedIff`, `MissingDirectoriesAreAccepted`).
- The drain budget, counted on stored tasks, misses follow-ups of worktree tasks
  (`DispatchCountsOnItsScopeIff`). A round breaks the stored budget exactly when it creates
  a follow-up that counts on a scope where a task is in flight (`RoundsKeepBudgetIff`); that
  task is in a worktree (`OverrunIsByWorktree`), and one round is enough
  (`OneRoundOverrunsTheBudget`). Two rounds that have both looked up a scope both dispatch
  on it exactly when their conversations and workdirs differ (`BothDispatchIff`,
  `TwoRoundsDispatchOnOneScope`).
- An item is dispatched twice only if the server crashed after its task was created and
  before it was marked (`RedispatchedAfterCrash`, `CrashDispatchesAgain`).
- A schedule tick compresses without the lock that chat requests take, so two calls can
  work on one conversation. The cursor then moves back, or messages are summarized twice,
  exactly when a call appends after another has appended a summary since it began
  (`UnharmedIff`, `MovesBackIff`, `OverlapsIff`; a run: `OverlappingCallsGoWrong`). The
  theorems about runs in Compression are about calls that do not overlap.
- A decision can reach row and worker and be reported as failed: exactly when forwarding
  fails on the way (`DeliveredSucceedsIff`, `AnswerCanGetLost`).
- An item being dispatched reports a position one too low, except at the front
  (`DispatchingPosition`).
- What lies below an excluded directory, at any depth, is not always excluded itself,
  because names are trimmed first (`ExclusionIsInheritedIff`); the walks skip it all the same.
- Applying back an untouched copy keeps all contents except a manifest.json of the base's
  own, and all files except those too large to be hashed (`UntouchedCopyIsIdentityIff`).
- Apply-back reaches its verdicts exactly unless it writes through a symbolic link
  (`EverythingAppliedIff`): a regular file does not replace a link (`LinkIsNotReplaced`),
  and whether a second apply finds a conflict depends on the order in which paths are
  visited (`SecondApplyCanConflict`).
- Between the messages that Steps * MaxSummarize can summarize and the last Keep ones the
  prompt leaves a gap (`PromptOmitsNothingIff`).
- An event type that contains a line feed and a data line is not read back
  (`ReadBackIffHarmless`). Unlike section 9.2.6 of the WHATWG HTML standard, the
  reader also delivers a message that the end of input leaves without its empty line.
- Skill directories with white space at an end, or with a backslash, are confused with
  others by the filter (`UnchangedIffSettled`, `DiscoveredFailsOnUnsettled`).
- The final cut may shorten the new instruction (`InstructionWholeIffFits`).

## Model

| member | source | states |
|---|---|---|
| Scheduler.Service.CreateSchedule | internal/secretary/scheduler.go:83-171 | A request is refused with the first check it fails; otherwise a fresh active job, not running, with interval in (0 s, 60 s] and a future expiry, is registered |
| Scheduler.RefusalIs | internal/secretary/scheduler.go:83-140 | Which requests are refused and for what, the first failing check deciding: inside a callback, without a tool name, targeting the scheduler itself, an unknown tool, an interval above 60 s, a tool that writes without leave |
| Scheduler.Service.RequestTick | internal/secretary/scheduler.go:257-286 | The ticker's critical section, in place, does to the locked fields and tells its goroutine what the section function says: refuse, expire, remember as pending, or start the next tick |
| Scheduler.Service.FinishTick | internal/secretary/scheduler.go:591-630 | The executor's closing section: stops running, or starts the pending tick, or asks for expiry; a terminal job leaves the registry |
| Scheduler.Service.Expire | internal/secretary/scheduler.go:632-704 | Only an active job expires; the callback gets a fresh tick number, once |
| Scheduler.Service.CancelSchedule | internal/secretary/scheduler.go:196-227 | A known job is canceled if active and removed if it is not running; nothing else changes |
| Scheduler.Service.RemoveIfTerminal | internal/secretary/scheduler.go:767-778 | Exactly the terminal job that is not running is deleted from the registry |
| Scheduler.StepKeepsInvariant | internal/secretary/scheduler.go:229-296 | Every critical section of every goroutine keeps: one executor iff running, consecutive tick numbers, pending only while running or past expiry, and the ledger of firings |
| Scheduler.RunInvariant | internal/secretary/scheduler.go:591-704 | The invariant holds in every state of every interleaving |
| Scheduler.ExactlyOneExecutor | internal/secretary/scheduler.go:257-296 | In every interleaving exactly one tick executor is live when running is set, none otherwise |
| Scheduler.TickNumbersDistinct | internal/secretary/scheduler.go:257-286 | All tick numbers, the expiry one included, strictly increase; pending implies running or past expiry; started ticks plus a pending one never exceed the firings |
| Scheduler.TerminalForever | internal/secretary/scheduler.go:196-227 | A job leaves Active at most once, and after that no tick and no expiry callback starts |
| Scheduler.CancelEnds | internal/secretary/scheduler.go:196-227 | Canceling an active job cancels it, drops its pending tick and its registration unless a tick still runs; a terminal job stays as it was |
| Scheduler.ExpiryEnds | internal/secretary/scheduler.go:632-704 | Expiring an active job ends it and starts its callback under the next number; a terminal job stays as it was |
| Scheduler.EndedForever | internal/secretary/scheduler.go:196-227 | In every run, after a cancellation or an expiry the job is never active again, and no tick or callback starts that had not started by then |
| Scheduler.TimeUpStartsNothing | internal/secretary/scheduler.go:257-296 | Once the time is up neither the ticker nor a finishing tick starts another tick; on an active job the goroutine goes on to expire it |
| Scheduler.StartedTick | internal/secretary/scheduler.go:257-286 | A tick starts under the next number and plans the next one an interval later; a finishing tick starts one only if one was pending |
| Scheduler.FinishedTick | internal/secretary/scheduler.go:591-630 | A tick that finishes without starting another leaves the job idle, and the registry if the job has ended |
| Scheduler.GoroutinesGoOn | internal/secretary/scheduler.go:229-296 | The timer leads to expiry, the callback to the cleanup, the cleanup back to the loop or to the end |
| Scheduler.ExpiryCallbackOnce | internal/secretary/scheduler.go:632-704 | The expiry callback starts once for an expired job, never for a canceled one |
| Scheduler.RegistryTracksLife | internal/secretary/scheduler.go:767-787 | An active job is never dropped from the registry; a terminal one is out once none of its goroutines is still at work |
| Scheduler.RunningStaysRegistered | internal/secretary/scheduler.go:767-787 | In every run a job whose tick still runs is registered |
| Scheduler.FiringAnswered | internal/secretary/scheduler.go:591-630 | On an active, unexpired job a firing starts a tick or is left pending, and the finishing tick starts the pending one |
| TaskStore.Store.CreateTask | internal/tasks/store.go:33-251 | The new table and the reply for every input: the first error that applies, the replay of an idempotency key, the newest task in flight on a busy workdir, and otherwise a queued task, or a waiting one behind a busy workdir |
| TaskStore.InputErrors | internal/tasks/store.go:37-67 | Which requests are malformed, and for what |
| TaskStore.CreateReplies | internal/tasks/store.go:78-145 | A request in order is a replay exactly if its key is taken, and refused for a busy workdir exactly if some task there is in flight and it may not wait; the refusal names the newest one |
| TaskStore.CreateAdds | internal/tasks/store.go:165-178 | An accepted request adds one row with every field as given, waiting exactly if the workdir is taken; nothing else changes |
| TaskStore.WorktreeRefusedIff | internal/tasks/store.go:195-208 | A worktree request that passes the earlier checks is refused exactly when its branch is blank or a directory is cleaned down to white space |
| TaskStore.MissingDirectoriesAreAccepted | internal/tasks/store.go:195-208 | A worktree request without base directory and worktree directory is accepted |
| TaskStore.BlankDirectoryIsRefused | internal/tasks/store.go:202-207 | A directory that the check does refuse |
| TaskStore.Store.DequeueNextWaitingForWorkdir | internal/tasks/store.go:561-631 | Promotes the oldest waiting task of a workdir exactly when nothing there is active |
| TaskStore.Store.SetRunning | internal/tasks/store.go:542-559 | Only a queued task starts to run |
| TaskStore.Store.SetStatus | internal/tasks/store.go:651-690 | Sets any status unguarded and recomputes the score |
| TaskStore.Store.FinishTask | internal/tasks/store.go:692-754 | Finishes a task that is not finished yet, rescoring it |
| TaskStore.FinishSettles | internal/tasks/store.go:692-754 | In any run a finish report leaves every field of a task alone that is settled with another status; on any other it sets status, exit code, error and times, keeps the session id if none is reported, and touches no other task |
| TaskStore.Store.MarkInterrupted | internal/tasks/store.go:528-540 | Interrupts every task in flight, without rescoring |
| TaskStore.Store.AppendLog | internal/tasks/store.go:823-890 | Counts the line and its keywords, and rescores |
| TaskStore.Store.InterruptTaskIfStaleInFlight | internal/tasks/heartbeat.go:92-170 | Interrupts one stale task in flight, rescoring it |
| TaskStore.StepsDoNoMore | internal/tasks/store.go:528-690 | What every other operation does to every task, field by field, and to no other; promotion takes the oldest waiting task of a workdir on which nothing is active |
| TaskStore.StepKeepsExclusion | internal/tasks/store.go:104-131 | Every operation keeps at most one active task per workdir, and idempotency keys unique |
| TaskStore.MutualExclusion | internal/tasks/store.go:104-131 | In every reachable state two tasks of one workdir are never both queued, running or awaiting approval, and no two share an idempotency key |
| TaskStore.SettledForGood | internal/tasks/store.go:692-754 | Over any stretch of a run no settled task comes back to life: whatever its runner reports, it keeps its status or ends blocked or canceled |
| TaskStore.SetStatusKeepsExclusionIff | internal/tasks/store.go:651-690 | The unguarded setStatus keeps exclusion exactly when it does not activate a task whose workdir another task holds |
| TaskStore.ResumingAnInterruptedRunBreaksExclusion | internal/tasks/store.go:637-647 | A concrete run in which a task that awaited an approval is interrupted and its successor promoted; putting the first back to running breaks exclusion |
| TaskStore.RunRespectsQueue | internal/tasks/store.go:561-631 | Over any stretch of a run, a task still waiting waited all along and no later one got its workdir |
| TaskStore.NoOvertaking | internal/tasks/store.go:561-631 | While a task waits, no task created later on its workdir becomes active |
| TaskStore.StepKeepsScore | internal/tasks/store.go:823-890 | Every operation keeps counters equal to the fold over all appended logs, and the cached score equal to the computed one up to the recorded drift |
| TaskStore.ScoreIsCurrent | internal/tasks/score.go:20-37 | In every reachable state score and counters are current, except tasks MarkInterrupted took from awaiting approval: those are too high by exactly the blocked bonus |
| TaskStore.DriftAppearsOnlyByMarkInterrupted | internal/tasks/store.go:528-540 | The drift appears exactly when MarkInterrupted interrupts a task awaiting approval |
| TaskStore.RunInvariant | internal/tasks/store.go:528-754 | Exclusion, unique keys, known logs and scores hold together in every reachable state |
| Score.ComputeScore | internal/tasks/score.go:20-37 | The accumulated score equals the closed formula over status, counters and exit code |
| Score.ScoreParts | internal/tasks/score.go:20-37 | Each of up to 10 lines of stderr adds 2, each of up to 10 keywords 1, being blocked or awaiting approval 3, failing with a code other than 0 adds 2 |
| Score.CountKeywordHits | internal/tasks/score.go:39-47 | Counts the distinct needles that occur in the message ignoring case |
| Score.HitsAre | internal/tasks/score.go:39-47 | The words counted are error, panic and failed, in upper or lower case |
| ContinueQueue.Queue.Enqueue | internal/tasks/session_continue_queue.go:13-40 | Appends a pending item, unless conversation or prompt is blank |
| ContinueQueue.Queue.ClaimNext | internal/tasks/session_continue_queue.go:247-302 | Takes the pending item of highest priority, of these the oldest, of these the one with the smallest id, exactly when there is one; marks it and changes nothing else |
| ContinueQueue.Queue.Mark | internal/tasks/session_continue_queue.go:304-328 | Changes the state of one item and nothing else |
| ContinueQueue.MarkingIs | internal/tasks/session_continue_queue.go:304-328 | Marking changes state and time of one item and no other field |
| ContinueQueue.Queue.Position | internal/tasks/session_continue_queue.go:330-378 | Returns the specified position, 0 for settled items |
| ContinueQueue.Queue.ResetDispatching | internal/tasks/session_continue_queue.go:380-395 | Puts every dispatching item back to pending and counts them |
| ContinueQueue.ResettingIs | internal/tasks/session_continue_queue.go:380-395 | The reset changes state and time of the dispatching items and no other field |
| ContinueQueue.BeforeIsStrictTotalOrder | internal/tasks/session_continue_queue.go:247-302 | The claiming order is a strict total order, so the next item is unique |
| ContinueQueue.AheadIff | internal/tasks/session_continue_queue.go:247-302 | Higher priority is ahead, then older, then the smaller id |
| ContinueQueue.PositionIsRank | internal/tasks/session_continue_queue.go:330-378 | The counting query agrees with the ordering query: the k-th in claiming order has position k |
| ContinueQueue.PositionCountsClaims | internal/tasks/session_continue_queue.go:330-378 | A pending item at position p is claimed by exactly the p-th claim on its conversation, counting down until then |
| ContinueQueue.PuttingBackKeepsRanks | internal/tasks/session_continue_queue.go:304-328 | Claiming an item and putting it back leaves every position as it was |
| ContinueQueue.RunKeepsOrder | internal/tasks/session_continue_queue.go:247-302 | Whatever happens between two moments of a run, the items there at the first are there at the second with what they are ordered by |
| ContinueQueue.PutBackAtItsRank | internal/tasks/session_continue_queue.go:304-328 | An item put back, however long after its claim, is behind exactly those of the old pending items that were ahead of it before |
| ContinueQueue.DispatchingPosition | internal/tasks/session_continue_queue.go:330-378 | While being dispatched an item reads one position lower than after being put back, except at the front |
| ContinueQueue.NoDoubleClaim | internal/tasks/session_continue_queue.go:247-302 | Between two claims of one item it was put back or the queue was reset |
| ContinueQueue.ResetReleasesEverything | internal/tasks/session_continue_queue.go:380-395 | After the reset every dispatching item is claimable again at its rank, and no other item changed |
| RoundRobin.ListingExists | internal/tasks/session_continue_queue.go:110-155 | The query has an answer: a row for each conversation with pending items, with the scope of its latest task, the longest waiting first |
| RoundRobin.ListingIsUnique | internal/tasks/session_continue_queue.go:110-155 | It has only one |
| RoundRobin.LongerWaitingIff | internal/tasks/session_continue_queue.go:110-155 | A conversation is listed before another exactly if its oldest pending item is older, or as old and its id smaller |
| RoundRobin.ScopesByFirstAppearance | internal/tasks/session_continue_queue.go:162-172 | Scopes are listed in the order of their first rows |
| RoundRobin.GroupByScope | internal/tasks/session_continue_queue.go:162-172 | Groups the rows by project scope, in order of first appearance |
| RoundRobin.OneRound | internal/tasks/session_continue_queue.go:162-193 | One round takes one conversation from each scope that has one left, stopping at the limit |
| RoundRobin.Interleave | internal/tasks/session_continue_queue.go:162-193 | The list is min(limit, all) long, takes each pending conversation at most once, and is fair at every prefix |
| RoundRobin.ListConversations | internal/tasks/session_continue_queue.go:104-194 | The list holds only waiting conversations, each once, the longest waiting first within a scope; all of them below the limit; and no scope is passed over in the first round |
| RoundRobin.EveryScopeIsHeard | internal/tasks/session_continue_queue.go:162-193 | The first round serves every scope, by its longest waiting conversation, however long the backlog of another |
| RoundRobin.OutputFilter | internal/tasks/session_continue_queue.go:162-193 | Within a scope the list keeps arrival order |
| RoundRobin.EveryPrefixFair | internal/tasks/session_continue_queue.go:162-193 | At every prefix two scopes differ by at most one unless the smaller one is exhausted |
| RoundRobin.Exhausted | internal/tasks/session_continue_queue.go:162-193 | A round without progress means that every pending conversation is listed |
| Dispatcher.Api.DrainConversation | internal/api/session_continue_queue.go:200-254 | Claims the first item of a conversation and leaves it done, failed or pending, done exactly when the task was created |
| Dispatcher.Api.Visit | internal/api/session_continue_queue.go:172-196 | Looks up the scope, skips it at the budget, and counts a dispatch in the local map |
| Dispatcher.Api.DrainOnce | internal/api/session_continue_queue.go:163-198 | A round visits the listed conversations in order, with one local map |
| Dispatcher.EveryoneIsVisited | internal/api/session_continue_queue.go:163-198 | A round visits every listed conversation once, in order |
| Dispatcher.VisitClaims | internal/api/session_continue_queue.go:172-254 | A visit to a scope without a task in flight claims the first item, marks it done, pending or failed by what creating its task meets, and logs and remembers a dispatch exactly if one is made |
| Dispatcher.VisitSkips | internal/api/session_continue_queue.go:172-188 | With a task in flight, or nothing waiting, a visit only looks |
| Dispatcher.FirstIsServed | internal/api/session_continue_queue.go:163-254 | The first conversation listed gets its task in any round, if nothing is in flight on its scope and the task can be created |
| Dispatcher.FollowUpIff | internal/taskops/service.go:1142-1203 | A follow-up is created exactly if nothing stands against it, and then works where the latest task did; what stands against it is told, first things first |
| Dispatcher.InFlightInIs | internal/tasks/session_continue_queue.go:225-245 | The count of a scope is the number of its queued, waiting, running and awaiting tasks |
| Dispatcher.ScopeIsOfLatest | internal/tasks/session_continue_queue.go:196-223 | A conversation counts where its latest task does: on the base directory, or else the workdir, or itself |
| Dispatcher.OneDispatchPerScope | internal/api/session_continue_queue.go:163-254 | One round dispatches at most one item per scope and none where a task was in flight; claimed items end done, failed or pending, done exactly when dispatched; the new queued tasks are those of its dispatches, in order; without base_workdir the stored tasks keep the budget |
| Dispatcher.DispatchCountsOnItsScopeIff | internal/tasks/store.go:198-201 | A created follow-up is counted on its scope exactly when the latest task has no base_workdir, or one equal to the workdir |
| Dispatcher.BudgetMissesWorktreeFollowUps | internal/tasks/session_continue_queue.go:225-245 | A concrete pair of worktree conversations for which the stored count misses the follow-up just created |
| Dispatcher.ContinueCounts | internal/taskops/service.go:1142-1203 | Creating a follow-up adds one in flight to its own scope and to no other, when there is no base_workdir |
| ConcurrentRounds.StepKeepsInvariant | internal/api/session_continue_queue.go:163-254 | Every query and update of any number of rounds, crashes, and whatever others do to the tasks, keep: one holder per dispatching item, and local maps that remember every dispatch |
| ConcurrentRounds.OneDrainPerItem | internal/api/session_continue_queue.go:200-254 | In every interleaving of rounds and crashes each dispatching item is held by exactly one round |
| ConcurrentRounds.DispatchesAreSeparate | internal/api/session_continue_queue.go:163-198 | In every interleaving one round dispatches at most once on a scope |
| ConcurrentRounds.DoneStaysDone | internal/api/session_continue_queue.go:200-254 | An item marked done stays done at every step, a crash included |
| ConcurrentRounds.CrashReopensIff | internal/tasks/session_continue_queue.go:380-395 | The restart makes a dispatched item pending again exactly when a round had created its task and not yet marked it |
| ConcurrentRounds.RedispatchedAfterCrash | internal/api/session_continue_queue.go:200-254 | In every interleaving, between two dispatches of one item lies a crash that found its task created and the item unmarked |
| ConcurrentRounds.DispatchHadRoom | internal/api/session_continue_queue.go:172-188 | A dispatch on a scope implies a moment after its round began when the scope was within the budget |
| ConcurrentRounds.UninterruptedVisit | internal/api/session_continue_queue.go:172-196 | A visit that nothing interrupts is the one of the sequential round |
| ConcurrentRounds.FollowUpOverrunsIff | internal/taskops/service.go:1142-1203 | Creating a follow-up takes a scope beyond the budget, and beyond what it was, exactly when the follow-up is created, counts on that scope, and a task in flight already counts there |
| ConcurrentRounds.OverrunIsByWorktree | internal/taskops/service.go:1142-1203 | That task is in another workdir, a worktree based on the follow-up's workdir, because the workdir check shuts out every other |
| ConcurrentRounds.NoWorktreeNoOverrun | internal/taskops/service.go:1142-1203 | Without worktree tasks no follow-up overruns, by the workdir check alone |
| ConcurrentRounds.RoundsKeepBudgetIff | internal/api/session_continue_queue.go:172-196 | In every run in which other actors keep to the budget of a scope, any number of rounds keeps it exactly if none creates such a follow-up |
| ConcurrentRounds.OneRoundOverrunsTheBudget | internal/api/session_continue_queue.go:172-196 | A run in which a single round takes the stored count of a scope from one to two, because a worktree task started after its look |
| ConcurrentRounds.BothDispatchIff | internal/api/session_continue_queue.go:172-196 | Of two rounds that have looked up one scope and could each dispatch, both do, with both tasks in flight, exactly if conversations and workdirs differ |
| ConcurrentRounds.TwoRoundsDispatchOnOneScope | internal/api/session_continue_queue.go:102-104 | A run in which two rounds dispatch on one scope of two worktrees |
| ConcurrentRounds.CrashDispatchesAgain | internal/api/session_continue_queue.go:309 | A run in which a crash between creating the task and marking the item dispatches the item twice |
| Approvals.ApprovalStore.CreateApprovalRequest | internal/tasks/approvals.go:57-109 | Adds a pending row, unless the task id is blank |
| Approvals.FirstUpdateWins | internal/tasks/approvals.go:287-327 | Of any number of updates of a pending approval exactly the first takes effect, all others are told its status, and the row reads so ever after |
| Approvals.ReplyTellsTheRow | internal/tasks/approvals.go:287-327 | What the update replies is what reading the row then shows: updated rows carry the new decision, refused ones the old, missing ones are missing, others are untouched |
| Approvals.ApprovalStore.UpdateApprovalRequestDecision | internal/tasks/approvals.go:287-327 | Compare-and-set from pending: the new rows and the reply for every status, missing and decided rows included |
| Approvals.StepKeepsInvariant | internal/taskops/service.go:779-835 | Every step of server, runner daemon and worker keeps the protocol invariant |
| Approvals.RunInvariant | cmd/controlccx-server/runnerd.go:157-184 | The protocol invariant holds in every interleaving |
| Approvals.DecidedForever | internal/tasks/approvals.go:305-312 | A decided approval, and a result once returned, never changes |
| Approvals.SuccessIsFinal | internal/taskops/service.go:804-835 | In every run a call that returns success returned the row's final content: approved for an approval, denied for a denial, with its own reason |
| Approvals.RefusalsAreTrue | internal/taskops/service.go:779-826 | A call told that the approval is decided was told the status the row has ever after, and the approval is one of its task |
| Approvals.LookDecides | internal/taskops/service.go:779-791 | Looking finds nothing exactly if no such approval of the task exists, and a decided one exactly if it is not pending |
| Approvals.WritesDecide | cmd/controlccx-server/runnerd.go:143-170 | A write of server or daemon moves a pending row to approved on an approval and to denied on a denial, with the reason given, and touches no other row |
| Approvals.OppositeDecisionsNeverBothSucceed | internal/taskops/service.go:804-835 | Two opposite decisions on one approval never both return success |
| Approvals.WorkerToldTheTruthOnce | cmd/controlccx-server/runnerd.go:166-183 | A worker told of an approval finds the row approved then and ever after, one told of a denial denied; once per approval |
| Approvals.ForwardedSuccessReachedWorker | internal/taskops/service.go:793-826 | A forwarded call that succeeds reached the worker with its own decision |
| Approvals.DeliveredSucceedsIff | internal/taskops/service.go:793-826 | Of the finished calls whose decision reached the worker exactly those succeed whose forwarding did not fail on the way; the others report the runner as unavailable |
| Approvals.AnswerCanGetLost | internal/taskops/service.go:795-801 | A run at whose end row and worker have the decision while the call reports the runner as unavailable |
| Approvals.LostAnswerStillDecides | internal/taskops/service.go:795-801 | Whenever the answer to a delivered decision gets lost, the row is approved or denied as decided, and the worker has been told |
| CopyWorkspace.WalkSkips | internal/runworkspace/copy.go:250-275 | A path is skipped exactly when it or a directory above it is excluded |
| CopyWorkspace.ExcludedIff | internal/runworkspace/copy.go:24-56 | A path is excluded exactly if its first part is dist or build, or any part .ccx, .git, .venv or node_modules |
| CopyWorkspace.SkippedIffExcluded | internal/runworkspace/copy.go:250-275 | Where no directory name ends in white space, the walk skips just what is excluded |
| CopyWorkspace.ExclusionIsInheritedIff | internal/runworkspace/copy.go:37-56 | What lies below an excluded directory, at any depth, is itself excluded exactly when the directory is so before the white space at its end is taken off, or a name on the path below is excluded anywhere |
| CopyWorkspace.ExclusionIsInherited | internal/runworkspace/copy.go:37-56 | Everything below an excluded directory whose name does not end in white space, at any depth, is excluded |
| CopyWorkspace.ExclusionIsNotInherited | internal/runworkspace/copy.go:37-56 | Below a top directory "dist " nothing is excluded, but all is skipped |
| CopyWorkspace.CopyDirWithManifest | internal/runworkspace/copy.go:250-325 | Copies exactly the paths not skipped, and records their fingerprints |
| CopyWorkspace.CreateCopyWorkspace | internal/runworkspace/copy.go:58-93 | The workspace is the copy plus the manifest, written where manifest.json is or leads |
| CopyWorkspace.CopyHoldsTheBase | internal/runworkspace/copy.go:250-325 | The copy holds every file not skipped, whatever its size, with its contents, and nothing else |
| CopyWorkspace.ManifestKnowsTheCopy | internal/runworkspace/copy.go:386-420 | The manifest tells links by target, files up to 1 MiB by contents, larger ones by size and time |
| CopyWorkspace.Directory.CopyPath | internal/runworkspace/copy.go:327-379 | Writing a regular file over a link writes where the link leads; everything else is replaced |
| CopyWorkspace.Directory.ApplyManaged | internal/runworkspace/copy.go:149-181 | The first loop does at a path of the manifest what its verdict says |
| CopyWorkspace.Directory.ApplyNew | internal/runworkspace/copy.go:184-240 | The walk does at a path that is not in the manifest what its verdict says |
| CopyWorkspace.Directory.ApplyBack | internal/runworkspace/copy.go:124-248 | For every base and workspace: each path is as its verdict says, unless a link is written through there or leads there; the sorted lists hold the paths by verdict |
| CopyWorkspace.EverythingAppliedIff | internal/runworkspace/copy.go:124-248 | Every path ends as its verdict says exactly when no link is written through |
| CopyWorkspace.ApplyBackOutcome | internal/runworkspace/copy.go:124-248 | For files of any size, at each path no written-through link led to: what of base and workspace looks changed decides whether the workspace's file lands, a conflict is listed, or nothing happens |
| CopyWorkspace.NewFileArrives | internal/runworkspace/copy.go:184-240 | A new file of the workspace, however large, arrives where the base has nothing, and is a conflict where it has something else |
| CopyWorkspace.VerdictIsMerge | internal/runworkspace/copy.go:124-248 | At every managed path fingerprints decide as the three-way merge of contents does |
| CopyWorkspace.ApplyBackIsThreeWayMerge | internal/runworkspace/copy.go:124-248 | Apply-back leaves the three-way merge of snapshot, base and workspace at every managed path to which no written-through link leads, exactly unless a link is written through there; conflicts are exactly the paths both sides changed differently; the rest is untouched |
| CopyWorkspace.LinkIsNotReplaced | internal/runworkspace/copy.go:359-379 | An unchanged link of the base that the workspace has replaced by a regular file stays, and is listed as applied |
| CopyWorkspace.SecondApplyChangesNothing | internal/runworkspace/copy.go:124-248 | A second apply leaves the contents and the conflict of every path that no written-through link led to in either apply; those are all paths if the first wrote through none |
| CopyWorkspace.SecondApplyCanConflict | internal/runworkspace/copy.go:124-248 | A link and its target for which the second apply reports a conflict that the first did not, or the first does already, depending on the order of visits |
| CopyWorkspace.CopyStartsSession | internal/runworkspace/copy.go:58-93 | The assumptions of the merge theorem hold for a workspace just created |
| CopyWorkspace.UntouchedCopyIsIdentityIff | internal/runworkspace/copy.go:58-93 | Create then apply on an untouched copy keeps all contents exactly when base has no manifest.json of its own that reads differently, and all files with their times exactly when nothing is taken |
| CopyWorkspace.OwnManifestIsOverwritten | internal/runworkspace/copy.go:81-93 | A manifest.json of the base's own is replaced |
| CopyWorkspace.LargeFileConflictsWithItself | internal/runworkspace/copy.go:386-401 | An untouched file above the hashing limit is copied back and then conflicts with itself |
| Paths.CleanIsClean | internal/skills/git.go:304-316 | The lexical path cleaning that candidates go through yields a normal path |
| Paths.CleanKeepsClean | internal/skills/git.go:304-316 | Cleaning leaves clean paths alone |
| Paths.CleanLeavesOut | internal/tasks/store.go:55-58 | Cleaning leaves out empty elements, dots, names followed by two dots, and two dots at the root |
| AuditPaging.EntryIdRoundTrip | internal/audit/service.go:649-663 | An entry id leads back to its source and key |
| AuditPaging.ParsesIff | internal/audit/service.go:649-663 | An id parses exactly if it names a source before its first colon and a key behind it |
| AuditPaging.NormalizeSources | internal/audit/service.go:245-305 | Requested sources without repetition, all of them when none is given |
| AuditPaging.Collect | internal/audit/service.go:63-99 | Gathers what each source not skipped fetched |
| AuditPaging.KeepOlder | internal/audit/service.go:108-116 | Keeps exactly the entries older than the cursor, in order |
| AuditPaging.Query | internal/audit/service.go:46-124 | A page is what the specification answers on the merged list, with a next cursor exactly when entries remain |
| AuditPaging.AnswerIs | internal/audit/service.go:46-124 | The answer is nothing for a cursor without time or id, else the next entries up to the limit, with a cursor naming the last of them exactly if there are more |
| AuditPaging.OlderIs | internal/audit/cursor.go:16-55 | A cursor leaves what is older, or as old with a smaller id |
| AuditPaging.CursorAcceptedIff | internal/audit/cursor.go:16-44 | A cursor handed out is accepted back exactly when its time is positive |
| AuditPaging.ResumeAfter | internal/audit/cursor.go:46-55 | The cursor of the k-th entry resumes right after it |
| AuditPaging.MergedIsPageable | internal/audit/service.go:63-106 | The merged list holds exactly the fetched rows of the live sources, strictly newest first |
| AuditPaging.PagesAreTheMergedList | internal/audit/service.go:108-123 | Following NextCursor yields finitely many pages, full but the last, whose concatenation is the merged list |
| AuditPaging.FetchTakesNewest | internal/audit/service.go:307-378 | Each source contributes its newest rows up to the per-source limit, each once |
| AuditPaging.FirstPageHasTheNewest | internal/audit/service.go:55-61 | No selected row off the first page is newer than its oldest entry |
| AuditPaging.UnfetchedIsNotNewer | internal/audit/service.go:55-61 | A source cut off at the per-source limit alone fills the first page |
| AuditPaging.UnfetchedIsNeverReached | internal/audit/service.go:55-61 | A row beyond the per-source limit is on no page |
| Compression.Normalize | internal/secretary/compression.go:37-67 | Options in range stay; others become the default or the maximum |
| Compression.ChatStore.Append | internal/chat/store.go:24-39 | Appends one row with the next id |
| Compression.ListIsTheOldest | internal/chat/store.go:45-81 | Listing yields the oldest messages behind the cursor, as many as there are up to the limit, in order; every other one behind the cursor is younger |
| Compression.TailIsTheNewest | internal/chat/store.go:136-176 | The tail is the newest messages behind the cursor, as many as there are up to the limit, in order |
| Compression.ChatStore.TailAfter | internal/chat/store.go:136-176 | The newest rows behind an id, oldest first, by reversing the fetched slice in place |
| Compression.ReverseRows | internal/chat/store.go:171-174 | The in-place loop reverses the rows |
| Compression.ChatStore.PruneKeepLast | internal/chat/store.go:227-256 | Keeps the newest rows |
| Compression.Compressor.CompressOnce | internal/secretary/compression.go:153-239 | The loop body does one step as specified: cursor, summary, record, and whether to go on |
| Compression.Compressor.MaybeCompress | internal/secretary/compression.go:138-242 | The loop runs the specified steps from the latest record |
| Compression.ToPromptHistory | internal/secretary/compression.go:114-128 | The messages with text, trimmed, in order |
| Compression.ShownIs | internal/secretary/compression.go:114-128 | What is shown is each message with text, trimmed, and nothing else |
| Compression.ShownInOrder | internal/secretary/compression.go:114-128 | Messages are shown in the order of their ids |
| Compression.Compressor.PromptHistory | internal/secretary/compression.go:69-112 | The prompt is the summary plus what has text of the tail behind the final cursor |
| Compression.RunIsPrefix | internal/secretary/compression.go:154-177 | The run to summarize is the oldest messages behind the cursor, as many as allowed, none of the kept window |
| Compression.StepSummarizesARun | internal/secretary/compression.go:153-239 | A successful step summarizes exactly the messages between old and new cursor, at least one, all before KeepFrom, and leaves the rest |
| Compression.StepStops | internal/secretary/compression.go:153-239 | The loop goes on exactly after a summary with text; a failed or blank one leaves an error row and cursor and summary unmoved, and with nothing to summarize everything stays |
| Compression.PromptOmitsNothingIff | internal/secretary/compression.go:69-112 | If all summaries succeed, the prompt omits no message with text exactly when those behind the first Steps * MaxSummarize ones and before the last Keep ones are all blank |
| Compression.CursorNeverMovesBack | internal/secretary/compression.go:138-242 | Over any run of appends, prunes and the steps of calls that do not overlap the cursor never moves back |
| Compression.SummariesCoverTheConversation | internal/secretary/compression.go:138-242 | While calls do not overlap, successful summaries cover consecutive, disjoint, non-empty runs, leaving out only what pruning removed first |
| Compression.RunInvariant | internal/secretary/compression.go:138-242 | While calls do not overlap, the chain of summaries accounts for every message ever appended |
| ConcurrentCompression.StepKeepsInvariant | internal/secretary/compression.go:69-242 | Every query and insert of any number of calls, and every post and prune between them, keeps: rows that end in front of their kept window, and calls that work with the cursor they read, or their own last row left |
| ConcurrentCompression.RunInvariant | internal/secretary/compression.go:69-242 | The invariant holds in every state of every interleaving of calls |
| ConcurrentCompression.MovesBackIff | internal/secretary/compression_store.go:79-103 | In every reachable state a row moves the cursor back exactly if the latest row was appended by another call since this one began, and ends behind it |
| ConcurrentCompression.StaysCleanIff | internal/secretary/compression.go:83-97 | As long as rows start where the one before ended, the next one does so exactly if no other call has appended a summary since its call read the latest row |
| ConcurrentCompression.OverlapsIff | internal/secretary/compression.go:188-237 | If another has, a summary overlaps one of that other call, and an error row moves the cursor back; if not, neither happens |
| ConcurrentCompression.UnharmedIff | internal/secretary/scheduler.go:432-493 | Over every run: the cursor never moves back and no two summaries overlap, exactly if no call appends after another has appended a summary since it began |
| ConcurrentCompression.UndisturbedSummariesCover | internal/secretary/compression.go:138-242 | In such a run, however calls overlap otherwise, summaries are consecutive and disjoint, and every message is in one, still there, or was pruned before any covered it |
| ConcurrentCompression.OneAtATimeIsUndisturbed | internal/secretary/service.go:202-225 | Runs in which a call begins only when no other is at work are such runs |
| ConcurrentCompression.UninterruptedCall | internal/secretary/compression.go:138-242 | The separate steps of a call that nothing interrupts end where the loop of a single call ends |
| ConcurrentCompression.OverlappingCallsGoWrong | internal/secretary/scheduler.go:432-493 | A run of two calls in which the slow one moves the cursor from 2 back to 1 and summarizes a message again, or back to 0 with an error |
| ConversationIds.MergeLosesNothing | internal/tasks/acceptance.go:127-245 | Merging rows keeps the larger counts, and of each of the six texts that of the row updated last unless it is blank |
| ConversationIds.MergeKeepsMeta | internal/tasks/session_meta.go:82-148 | Merging keeps the deletion and the title that were there, takes missing ones over, and restamps the row only then |
| ConversationIds.Store.LatestMappings | internal/tasks/conversation_id.go:31-63 | Each session is mapped to the conversation of its latest task that has one |
| ConversationIds.Store.Migrate | internal/tasks/session_meta.go:82-138 | Moves the rows of one key in all three tables |
| ConversationIds.Store.BackfillSession | internal/tasks/conversation_id.go:122-177 | The tasks of a session get its conversation; its key and theirs are migrated |
| ConversationIds.Store.EnsureConversationIDs | internal/tasks/conversation_id.go:16-210 | All tasks are filled, all keys are migrated, in any order of the map loops |
| ConversationIds.EveryTaskHasAConversation | internal/tasks/conversation_id.go:87-192 | Every task ends with a conversation, set ones are unchanged, legacy tasks of a session share one: the latest known if any |
| ConversationIds.NewestConversationWins | internal/tasks/conversation_id.go:22-60 | The conversation a task gets through its session is that of the session's newest task that has one |
| ConversationIds.MetaRelocated | internal/tasks/session_meta.go:82-138 | Which meta rows exist afterwards: none at a migrated key, one at a target exactly when a row fed it, others untouched |
| ConversationIds.WorkspacesRelocated | internal/tasks/session_workspaces.go:9-47 | The same for workspace rows |
| ConversationIds.AcceptanceRelocated | internal/tasks/acceptance.go:127-245 | The same for acceptance rows |
| ConversationIds.DeletionsSurvive | internal/tasks/session_meta.go:82-138 | A conversation is deleted afterwards exactly when it, or a key moved into it, was |
| ConversationIds.IterationIsMaximum | internal/tasks/acceptance.go:127-245 | Iteration count and limit afterwards are the maximum over all rows that fed the conversation |
| ConversationIds.TitleArrives | internal/tasks/session_meta.go:82-148 | After any well-directed moves a title that was there stays unless blank, and otherwise is that of a row moved there, blank only if all are |
| ConversationIds.TextsArrive | internal/tasks/acceptance.go:127-245 | After any moves each text of the acceptance row is that of a row that fed it, blank only if all are |
| ConversationIds.WorkspacesArrive | internal/tasks/session_workspaces.go:9-54 | After any moves a workspace row that was there is as it was, and otherwise the one moved there first has arrived with its run root |
| ConversationIds.MetaArrivesAsItWas | internal/tasks/session_meta.go:82-148 | A row that alone goes to a key arrives there with only its time changed |
| ConversationIds.WorkspaceArrivesAsItWas | internal/tasks/session_workspaces.go:9-54 | The same for workspace rows |
| ConversationIds.AcceptanceArrivesAsItWas | internal/tasks/acceptance.go:127-245 | The same for acceptance rows |
| ConversationIds.SessionStateArrives | internal/tasks/conversation_id.go:65-85 | All that was kept for a session is found under its conversation: rows, deletions, titles, run roots, texts and counts, unchanged if no other row goes there; what the conversation had wins; the session key is gone |
| ConversationIds.TaskStateArrives | internal/tasks/conversation_id.go:65-140 | The same for a task that had no conversation, with the one it gets |
| ConversationIds.SecondRunChangesNothing | internal/tasks/conversation_id.go:12-15 | A second run changes no task and no row |
| Sse.Hub.Publish | internal/events/hub.go:55-66 | A published event gets the next number |
| Sse.Reader.FlushData | internal/daemon/sse_bridge.go:107-128 | Hands on the pending data as one message and forgets type and data |
| Sse.Reader.FeedLine | internal/daemon/sse_bridge.go:139-155 | One line changes the reader as specified |
| Sse.LineRules | internal/daemon/sse_bridge.go:100-157 | How each kind of line is read: type, data, comment, anything else, and the empty line |
| Sse.EventEnds | internal/daemon/sse_bridge.go:100-157 | An empty line passes on the data lines, one below the other, unless they are blank |
| Sse.AnnouncedTypeStandsIn | internal/daemon/sse_bridge.go:100-157 | An event without a type of its own is published under the announced one |
| Sse.ConsumeSSE | internal/daemon/sse_bridge.go:100-157 | The hub gets exactly the events that the messages of the stream decode to, in order, numbered on |
| Sse.FrameCompletes | internal/events/sse.go:43-47 | A printed frame is read as exactly one message with its payload |
| Sse.CutYieldsPrefix | internal/daemon/sse_bridge.go:130-138 | Cut anywhere, even inside a character, ended by EOF or error, the stream yields the first events printed, as many as arrived |
| Sse.ArrivedCountsCompleteEvents | internal/daemon/sse_bridge.go:130-138 | How many arrived: those whose data line is complete at end of input, whose closing empty line is too after an error |
| Sse.WholeStreamYieldsAll | internal/events/sse.go:43-47 | The whole stream yields all events in order |
| Sse.BlankTypeAnnouncesNothing | internal/daemon/sse_bridge.go:123-126 | A blank event type does not come back as another one |
| Sse.ReadBackIffHarmless | internal/events/sse.go:43-47 | An event is read back as the one message it was exactly when its type smuggles in no data line |
| Sse.HarmfulTypeExists | internal/events/sse.go:43-47 | An event type with a line feed and a data line is not read back, whatever the payload |
| Sse.OneLineTypeIsHarmless | internal/events/sse.go:43-47 | A type without line feeds is harmless |
| GitSkills.CleanSubpathIsStable | internal/skills/git.go:304-316 | A cleaned subpath without white space around it is cleaned to itself |
| GitSkills.UnderIsDeeper | internal/skills/git.go:318-328 | A nested path is deeper, so sorting by depth puts ancestors first |
| GitSkills.UnderIsTransitive | internal/skills/git.go:318-328 | Nesting is transitive |
| GitSkills.UnderIff | internal/skills/git.go:318-328 | A directory lies under another exactly if its path goes on where that of the other ends |
| GitSkills.NestedUnderKept | internal/skills/git.go:363-376 | An item has an ancestor at all exactly when it lies under one kept before it |
| GitSkills.FilterOutNested | internal/skills/git.go:330-378 | For every input, keeps in order of depth and path what is not nested under something kept before |
| GitSkills.IsNestedInAny | internal/skills/git.go:364-373 | The inner loop finds whether some kept path is an ancestor |
| GitSkills.SurvivorsAreTops | internal/skills/git.go:330-378 | What the filter keeps is exactly the candidates with no strict ancestor anywhere in the input |
| GitSkills.UnchangedIffSettled | internal/skills/git.go:304-316 | A directory found is cleaned to itself exactly when it has no white space at its ends and no backslash |
| GitSkills.UnsettledIsMixedUp | internal/skills/git.go:304-328 | Every other directory found is taken for a different one that neither contains it nor lies in it |
| GitSkills.DiscoveredFailsOnUnsettled | internal/skills/git.go:298-328 | With that one, the outcome is wrong for every such directory |
| GitSkills.TrailingSpaceEscapes | internal/skills/git.go:298-328 | A directory whose name ends in a space and what lies in it both remain |
| GitSkills.Dedupe | internal/skills/git.go:407-419 | Keeps the first candidate of every path |
| GitSkills.Discover | internal/skills/git.go:298-301 | Filter, sort by name, deduplicate |
| GitSkills.DiscoveredAreTheTops | internal/skills/git.go:298-301 | Of directories that are cleaned to themselves, those without a strict ancestor remain, each with the first candidate by name, and nothing else |
| GitSkills.DiscoveredIsAnAntichainThatCovers | internal/skills/git.go:298-301 | Of such directories no remaining one lies under another, and every one found equals or lies under a remaining one |
| Rehydrate.Window.Add | internal/tasks/rehydrate_prompt.go:48-60 | The incremental window equals the byte-limited suffix of everything added; truncated iff something was dropped |
| Rehydrate.KeptIsLongestSuffix | internal/tasks/rehydrate_prompt.go:55-59 | That suffix is the longest one within 60000 bytes, or the last segment alone |
| Rehydrate.KeptAppend | internal/tasks/rehydrate_prompt.go:48-60 | Dropping as segments come is dropping at the end |
| Rehydrate.TruncateUTF8 | internal/tasks/rehydrate_prompt.go:106-121 | The longest prefix on a character boundary within the limit |
| Rehydrate.SelectRuns | internal/tasks/rehydrate_prompt.go:28-34 | The runs of the conversation, in order |
| Rehydrate.AddHistory | internal/tasks/rehydrate_prompt.go:62-85 | The entries of the runs that have a prompt, with their answers |
| Rehydrate.BuildRehydratePrompt | internal/tasks/rehydrate_prompt.go:10-104 | The prompt is header plus window, cut only above the limit; the conversation id is required |
| Rehydrate.InstructionWholeIffFits | internal/tasks/rehydrate_prompt.go:87-102 | The new instruction is the last segment, and arrives unshortened exactly when it fits behind what precedes it |
| Rehydrate.LongInstructionIsCut | internal/tasks/rehydrate_prompt.go:99-102 | An instruction of 60000 characters is always shortened |
| ImportNames.NextImportedProviderName | internal/api/providers.go:521-544 | Takes the first free numbered name, within number of used names + 1 attempts |
| ImportNames.AttemptsDiffer | internal/api/providers.go:532-538 | No two numbered names have the same key |
| ImportNames.ProviderStore.HasProfileName | internal/providers/store.go:522-537 | Whether another profile has the name, ignoring case |
| ImportNames.ProviderStore.Upsert | internal/providers/store.go:178-232 | The new list and the result for every profile: refused, replaced in place, or appended |
| ImportNames.UpsertKeepsUnique | internal/providers/store.go:178-232 | Upsert keeps ids and, ignoring case, names unique |
| ImportNames.Import | internal/api/providers.go:465-515 | No profile of a batch is rejected; each is appended under the first free name |
| ImportNames.ImportedNamesAreNew | internal/api/providers.go:499-509 | The chosen names differ, ignoring case, from all stored and from each other |

## Left out

- HTTP handlers, routing, tokens, the web UI, process spawning and daemon attachment.
- SQLite: tables are maps or sequences, and write errors are absent.
- JSON, base64 and SHA-256: encoders and decoders are inverse to each other, hashes injective. An event that fails to encode is not modelled.
- Language models, tool execution, xmlprotocol and the worker manager: what they do is a parameter or a nondeterministic step. The worker manager is not part of this model.
- Git commands, walking a repository, skill installation and provider synchronisation.
- Risk verdicts, network tiers, autopilot presets, prompt texts: finite tables.
- Trimming of ids and scopes in the stores: they are taken to be trimmed, and non-empty where they are keys.
- Resolving a conversation id inside CreateTask, and the key migration inside SetSessionID and FinishTask; the migration itself is modelled once.
- ListSchedules, task listings, CancelTask, ResumeTask, RehydrateTask and PreemptContinueSession: they combine operations modelled here with worker calls.
- DecideApproval's choice of the pending approval when no id is given, and the parsing of the decision word.
- Directories, permissions and paths that are prefixes of one another in copy workspaces; resolving a link is a parameter, and what a link outside the directory receives is not followed.
- CopyWorkspace.Directory.ApplyBack: reads no manifest through a symbolic link.
- The selection conditions, text fields and entry details of audit queries: a row is its time, rank and key.
- Chat rows of other conversations; roles of messages; cutting summaries and messages to a number of runes, and a secretary without a compression store.
- Reconnecting and its backoff in BridgeSSEToHub; a subscriber's bounded buffer, which drops events when full.
- Sorts that the program leaves unstable are stable here; no theorem depends on how ties are ordered, except which of two skill candidates with equal name and path, but different description, remains.
- Reordering, duplicating and deleting provider profiles; all fields of a profile but id, name and times are one opaque value.
- Dispatcher.OneDispatchPerScope: the latest task of a conversation is the last row, so two tasks created in the same millisecond are not compared by id.
- ConcurrentRounds.StepKeepsInvariant: the checks before creating a follow-up and the creation are one step, as the store's transaction repeats the workdir check.
- ConcurrentCompression.OverlapsIff: requires rows that start where the one before ended, so it speaks of appends up to the first disturbed one; what rows do to the cursor later is said by `MovesBackIff`, and whole runs by `UnharmedIff`.
- AuditPaging.PagesAreTheMergedList: follows cursors with a bound on the number of pages, because a function must end; every bound above the length gives the same pages.
- GitSkills.DiscoveredAreTheTops: requires directories that are cleaned to themselves, because each other one is confused with some directory (`DiscoveredFailsOnUnsettled`); the same holds for GitSkills.DiscoveredIsAnAntichainThatCovers.
- Sse.CutYieldsPrefix: requires harmless event types, because for others reading back fails (`ReadBackIffHarmless`).
- Scheduler.Service.CreateSchedule: a time to live is unbounded, where the program's 64-bit nanoseconds overflow after 292 years.
- ImportNames.Import: no other request changes the profiles meanwhile; the lower case of a character is a parameter that leaves the characters of the suffixes alone.
- Score.CountKeywordHits: the lower case is Go's on every character whose lower case is a letter of a needle, and the identity elsewhere, which no needle can tell.
