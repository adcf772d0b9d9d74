/** Approval decisions: the compare-and-set row (internal/tasks/approvals.go), the
    server's DecideApproval (internal/taskops/service.go) and the runner daemon's
    decision handler (cmd/controlccx-server/runnerd.go), interleaved. */
module Approvals {
  import opened Wrappers

  datatype Status = Pending | Approved | Denied | Expired

  datatype Approval = Approval(taskId: string, status: Status, reason: string)

  type Rows = map<string, Approval>

  datatype Decision = Approve | Deny

  function StatusOf(d: Decision): (s: Status)
    ensures s != Pending && s != Expired
  {
    match d
    case Approve => Approved
    case Deny => Denied
  }

  datatype UpdateReply = Updated | InvalidStatus | Missing | NotPending(status: Status)

  /** UPDATE ... WHERE id = ? AND status = 'pending' */
  function AfterUpdate(rows: Rows, id: string, status: Status, reason: string): (Rows, UpdateReply) {
    if status == Pending then (rows, InvalidStatus)
    else if id !in rows then (rows, Missing)
    else if rows[id].status != Pending then (rows, NotPending(rows[id].status))
    else (rows[id := rows[id].(status := status, reason := reason)], Updated)
  }

  class ApprovalStore {
    var rows: Rows

    constructor ()
      ensures rows == map[]
    {
      rows := map[];
    }

    /** `id` is a fresh random id. */
    method CreateApprovalRequest(id: string, taskId: string) returns (ok: bool)
      requires id !in rows
      modifies this
      ensures ok <==> taskId != ""
      ensures rows == if ok then old(rows)[id := Approval(taskId, Pending, "")] else old(rows)
    {
      if taskId == "" { return false; }
      rows := rows[id := Approval(taskId, Pending, "")];
      return true;
    }

    method GetApprovalRequest(id: string) returns (r: Option<Approval>)
      ensures r == if id in rows then Some(rows[id]) else None
    {
      if id in rows { return Some(rows[id]); }
      return None;
    }

    method UpdateApprovalRequestDecision(id: string, status: Status, reason: string) returns (r: UpdateReply)
      modifies this
      ensures (rows, r) == AfterUpdate(old(rows), id, status, reason)
    {
      if status != Approved && status != Denied && status != Expired { return InvalidStatus; }
      if id in rows && rows[id].status == Pending {
        rows := rows[id := rows[id].(status := status, reason := reason)];
        return Updated;
      }
      var existing := GetApprovalRequest(id);
      if existing.None? { return Missing; }
      return NotPending(existing.value.status);
    }
  }

  /** What the update replies is what reading the row then shows. */
  lemma ReplyTellsTheRow(rows: Rows, id: string, status: Status, reason: string)
    requires status != Pending
    ensures var (after, reply) := AfterUpdate(rows, id, status, reason);
      && (reply == Updated <==> id in rows && rows[id].status == Pending)
      && (reply == Updated ==> id in after && after[id] == Approval(rows[id].taskId, status, reason))
      && (reply.NotPending? ==> id in after && after[id] == rows[id] && reply.status == after[id].status != Pending)
      && (reply == Missing <==> id !in after)
      && (forall k :: k != id ==> (k in after <==> k in rows) && (k in rows ==> after[k] == rows[k]))
  {
  }

  /** A status to set, and the reason given. */
  type Update = (Status, string)

  /** The rows after a number of updates of one approval. */
  function AfterUpdates(rows: Rows, id: string, us: seq<Update>): Rows {
    if us == [] then rows else
    var last := us[|us| - 1];
    AfterUpdate(AfterUpdates(rows, id, us[..|us| - 1]), id, last.0, last.1).0
  }

  /** Of any number of updates of a pending approval exactly the first takes effect: it
      decides what reading the row shows ever after, and all others are told its status. */
  lemma {:induction false} FirstUpdateWins(rows: Rows, id: string, us: seq<Update>, k: nat)
    requires id in rows && rows[id].status == Pending && k < |us|
    requires forall u :: u in us ==> u.0 != Pending
    ensures AfterUpdates(rows, id, us) == rows[id := Approval(rows[id].taskId, us[0].0, us[0].1)]
    ensures AfterUpdate(AfterUpdates(rows, id, us[..k]), id, us[k].0, us[k].1).1
         == if k == 0 then Updated else NotPending(us[0].0)
  {
    var n := |us| - 1;
    var early := us[..n];
    if n == 0 {
      assert AfterUpdates(rows, id, early) == rows;
    } else {
      FirstUpdateWins(rows, id, early, if k < n then k else 0);
      assert us[n] in us && (k < n ==> early[..k] == us[..k] && early[k] == us[k]);
    }
  }

  // ------------------------------------------------------------ interleavings

  /** The arguments of one DecideApproval call; `forwards` says whether the server
      has a runner daemon to forward decisions to. */
  datatype Call = Call(taskId: string, approvalId: string, decision: Decision, reason: string, forwards: bool)

  datatype Result = Success(row: Approval) | NotFound | AlreadyDecided(status: Status) | RunnerUnavailable

  /** Where the server stands in the call. */
  datatype ServerPc =
    | Looking
    | AwaitingRunner
    | Updating(forwarded: bool)
    | Confirming
    | ReadingBack
    | Returned(result: Result)

  /** Where the daemon's handler for the forwarded request stands. */
  datatype RunnerPc = NoRequest | Received | Checked | Won | Replied(ok: bool)

  /** Who moved a row out of pending (recorded, never read by the code). */
  datatype Winner = ByServer(call: nat) | ByRunner(call: nat) | ByWorker

  datatype Delivery = Delivery(call: nat, approvalId: string, decision: Decision)

  datatype World = World(
    rows: Rows, calls: map<nat, Call>, server: map<nat, ServerPc>, runner: map<nat, RunnerPc>,
    winner: map<string, Winner>, deliveries: seq<Delivery>)

  datatype Event =
    | CreateRow(id: string, taskId: string)
    | WorkerExpires(id: string, reason: string)
    | Begin(c: nat, call: Call)
    | Look(c: nat)
    | RunnerLooks(c: nat)
    | RunnerUpdates(c: nat)
    | RunnerDelivers(c: nat)
    | RunnerAnswers(c: nat)
    | ForwardingFails(c: nat)
    | ServerUpdates(c: nat)
    | ServerReadsBack(c: nat)

  predicate ServerAt(w: World, c: nat, pc: ServerPc) {
    c in w.calls && c in w.server && c in w.runner && w.server[c] == pc
  }

  predicate RunnerAt(w: World, c: nat, pc: RunnerPc) {
    c in w.calls && c in w.server && c in w.runner && w.runner[c] == pc
  }

  /** The connection may fail at any time, whatever the daemon does meanwhile. */
  predicate Enabled(w: World, e: Event) {
    match e
    case CreateRow(id, _) => id !in w.rows
    case WorkerExpires(_, _) => true
    case Begin(c, _) => c !in w.calls && c !in w.server && c !in w.runner
    case Look(c) => ServerAt(w, c, Looking)
    case RunnerLooks(c) => RunnerAt(w, c, Received)
    case RunnerUpdates(c) => RunnerAt(w, c, Checked)
    case RunnerDelivers(c) => RunnerAt(w, c, Won)
    case RunnerAnswers(c) => ServerAt(w, c, AwaitingRunner) && w.runner[c].Replied?
    case ForwardingFails(c) => ServerAt(w, c, AwaitingRunner)
    case ServerUpdates(c) => ServerAt(w, c, Updating(true)) || ServerAt(w, c, Updating(false))
    case ServerReadsBack(c) => ServerAt(w, c, ReadingBack) || ServerAt(w, c, Confirming)
  }

  function Credit(w: World, id: string, reply: UpdateReply, who: Winner): map<string, Winner> {
    if reply == Updated then w.winner[id := who] else w.winner
  }

  function Apply(w: World, e: Event): World
    requires Enabled(w, e)
  {
    match e
    case CreateRow(id, taskId) => w.(rows := w.rows[id := Approval(taskId, Pending, "")])
    case WorkerExpires(id, reason) =>
      var (rows, reply) := AfterUpdate(w.rows, id, Expired, reason);
      w.(rows := rows, winner := Credit(w, id, reply, ByWorker))
    case Begin(c, call) =>
      w.(calls := w.calls[c := call], server := w.server[c := Looking], runner := w.runner[c := NoRequest])
    case Look(c) =>
      var call := w.calls[c];
      if call.approvalId !in w.rows || w.rows[call.approvalId].taskId != call.taskId then
        w.(server := w.server[c := Returned(NotFound)])
      else if w.rows[call.approvalId].status != Pending then
        w.(server := w.server[c := Returned(AlreadyDecided(w.rows[call.approvalId].status))])
      else if call.forwards then
        w.(server := w.server[c := AwaitingRunner], runner := w.runner[c := Received])
      else w.(server := w.server[c := Updating(false)])
    case RunnerLooks(c) =>
      var call := w.calls[c];
      if call.approvalId !in w.rows || w.rows[call.approvalId].taskId != call.taskId then
        w.(runner := w.runner[c := Replied(false)])
      else w.(runner := w.runner[c := Checked])
    case RunnerUpdates(c) =>
      var call := w.calls[c];
      var (rows, reply) := AfterUpdate(w.rows, call.approvalId, StatusOf(call.decision), call.reason);
      w.(rows := rows, winner := Credit(w, call.approvalId, reply, ByRunner(c)),
         runner := w.runner[c := if reply == Updated then Won else Replied(false)])
    case RunnerDelivers(c) =>
      var call := w.calls[c];
      w.(deliveries := w.deliveries + [Delivery(c, call.approvalId, call.decision)],
         runner := w.runner[c := Replied(true)])
    case RunnerAnswers(c) =>
      w.(server := w.server[c := if w.runner[c].ok then Updating(true) else Returned(RunnerUnavailable)])
    case ForwardingFails(c) => w.(server := w.server[c := Returned(RunnerUnavailable)])
    case ServerUpdates(c) =>
      var call := w.calls[c];
      var (rows, reply) := AfterUpdate(w.rows, call.approvalId, StatusOf(call.decision), call.reason);
      var pc := match reply
        case Updated => ReadingBack
        case NotPending(s) => if w.server[c].forwarded then Confirming else Returned(AlreadyDecided(s))
        case _ => Returned(NotFound);
      w.(rows := rows, winner := Credit(w, call.approvalId, reply, ByServer(c)), server := w.server[c := pc])
    case ServerReadsBack(c) =>
      var call := w.calls[c];
      var result :=
        if call.approvalId !in w.rows then NotFound
        else
          var row := w.rows[call.approvalId];
          if w.server[c] == Confirming && row.status != StatusOf(call.decision) then AlreadyDecided(row.status)
          else Success(row);
      w.(server := w.server[c := Returned(result)])
  }

  ghost predicate Next(w: World, w': World) {
    exists e :: Enabled(w, e) && w' == Apply(w, e)
  }

  ghost predicate Run(ws: seq<World>) {
    && |ws| > 0 && ws[0] == World(map[], map[], map[], map[], map[], [])
    && forall i :: 0 <= i < |ws| - 1 ==> Next(ws[i], ws[i + 1])
  }

  predicate Settled(w: World, id: string, status: Status) {
    id in w.rows && w.rows[id].status == status != Pending
  }

  /** The row that a call's decision makes. */
  function RowOf(call: Call): Approval {
    Approval(call.taskId, StatusOf(call.decision), call.reason)
  }

  /** The call's row is there, and holds its decision. */
  predicate Holds(w: World, call: Call) {
    call.approvalId in w.rows && w.rows[call.approvalId] == RowOf(call)
  }

  /** The approval is one of the call's task. */
  predicate Matches(w: World, call: Call) {
    call.approvalId in w.rows && w.rows[call.approvalId].taskId == call.taskId
  }

  /** What holds of one call at any time. */
  predicate CallOk(w: World, c: nat) {
    c in w.calls ==>
      && c in w.server && c in w.runner
      && var call := w.calls[c];
      && (w.runner[c] in {Won, Replied(true)} ==>
           call.approvalId in w.winner && w.winner[call.approvalId] == ByRunner(c) && Holds(w, call))
      && (w.runner[c] == Replied(true) <==> Delivery(c, call.approvalId, call.decision) in w.deliveries)
      && (w.server[c] in {Updating(true), Confirming} ==> w.runner[c] == Replied(true))
      && (w.server[c] == Looking ==> w.runner[c] == NoRequest)
      && (w.server[c] == ReadingBack ==> Holds(w, call))
      && (w.server[c].Returned? && w.server[c].result.Success? ==>
           Holds(w, call) && w.server[c].result.row == w.rows[call.approvalId])
      && (w.server[c].Returned? && w.server[c].result.AlreadyDecided? ==>
           Settled(w, call.approvalId, w.server[c].result.status))
      && (w.server[c] != Looking && w.server[c] != Returned(NotFound) ==> Matches(w, call))
      && (w.runner[c] == Checked ==> Matches(w, call))
      && (!call.forwards ==> w.runner[c] == NoRequest)
      && (call.forwards && (w.server[c] == ReadingBack || (w.server[c].Returned? && w.server[c].result.Success?)) ==>
           w.runner[c] == Replied(true))
      && (call.forwards ==> w.server[c] != Updating(false))
  }

  /** The worker was told this call's decision. */
  predicate Delivered(w: World, c: nat) {
    c in w.calls && Delivery(c, w.calls[c].approvalId, w.calls[c].decision) in w.deliveries
  }

  predicate DeliveriesOk(w: World) {
    && (forall i :: 0 <= i < |w.deliveries| ==>
         var d := w.deliveries[i];
         d.call in w.calls && w.calls[d.call].approvalId == d.approvalId && w.calls[d.call].decision == d.decision)
    && (forall i, j :: 0 <= i < j < |w.deliveries| ==> w.deliveries[i].call != w.deliveries[j].call)
  }

  ghost predicate Invariant(w: World) {
    (forall c :: CallOk(w, c)) && WinnersMatch(w) && DeliveriesOk(w)
  }

  /** Whatever a step does, decided rows and the record of who decided stay. */
  predicate RowsKept(w: World, w': World) {
    && (forall id | id in w.rows && w.rows[id].status != Pending :: id in w'.rows && w'.rows[id] == w.rows[id])
    && (forall id | id in w.rows :: id in w'.rows && w'.rows[id].taskId == w.rows[id].taskId)
    && (forall id | id in w.winner :: id in w'.winner && w'.winner[id] == w.winner[id])
  }

  ghost predicate WinnersMatch(w: World) {
    forall id :: id in w.winner <==> id in w.rows && w.rows[id].status != Pending
  }

  lemma UpdateKeepsRows(w: World, id: string, status: Status, reason: string, who: Winner, w': World)
    requires WinnersMatch(w) && status != Pending && w'.rows == AfterUpdate(w.rows, id, status, reason).0
    requires w'.winner == Credit(w, id, AfterUpdate(w.rows, id, status, reason).1, who)
    ensures RowsKept(w, w') && WinnersMatch(w')
  {
  }

  lemma StepKeepsRows(w: World, e: Event)
    requires WinnersMatch(w) && Enabled(w, e)
    ensures RowsKept(w, Apply(w, e)) && WinnersMatch(Apply(w, e))
  {
    var w' := Apply(w, e);
    match e
    case CreateRow(_, _) =>
    case WorkerExpires(id, reason) => UpdateKeepsRows(w, id, Expired, reason, ByWorker, w');
    case RunnerUpdates(c) =>
      var call := w.calls[c];
      UpdateKeepsRows(w, call.approvalId, StatusOf(call.decision), call.reason, ByRunner(c), w');
    case ServerUpdates(c) =>
      var call := w.calls[c];
      UpdateKeepsRows(w, call.approvalId, StatusOf(call.decision), call.reason, ByServer(c), w');
    case _ => assert w'.rows == w.rows && w'.winner == w.winner;
  }

  predicate Touches(e: Event, c: nat) {
    match e
    case CreateRow(_, _) => false
    case WorkerExpires(_, _) => false
    case Begin(d, _) => c == d
    case Look(d) => c == d
    case RunnerLooks(d) => c == d
    case RunnerUpdates(d) => c == d
    case RunnerDelivers(d) => c == d
    case RunnerAnswers(d) => c == d
    case ForwardingFails(d) => c == d
    case ServerUpdates(d) => c == d
    case ServerReadsBack(d) => c == d
  }

  /** Rows, winners and deliveries have grown, and the call is where it was. */
  lemma CallOkCarries(w: World, w': World, c: nat)
    requires CallOk(w, c) && WinnersMatch(w) && RowsKept(w, w') && c in w.calls && c in w'.calls
    requires c in w'.server && c in w'.runner
    requires w'.calls[c] == w.calls[c] && w'.server[c] == w.server[c] && w'.runner[c] == w.runner[c]
    requires Delivered(w', c) <==> Delivered(w, c)
    ensures CallOk(w', c)
  {
  }

  lemma ForeignStepLeaves(w: World, e: Event, c: nat)
    requires Enabled(w, e) && !Touches(e, c)
    ensures c in Apply(w, e).calls <==> c in w.calls
    ensures c in w.calls ==> Apply(w, e).calls[c] == w.calls[c]
    ensures c in w.server ==> c in Apply(w, e).server && Apply(w, e).server[c] == w.server[c]
    ensures c in w.runner ==> c in Apply(w, e).runner && Apply(w, e).runner[c] == w.runner[c]
  {
  }

  lemma ForeignStepDelivers(w: World, e: Event, c: nat)
    requires Enabled(w, e) && !Touches(e, c) && c in w.calls && c in Apply(w, e).calls
    requires Apply(w, e).calls[c] == w.calls[c]
    ensures Delivered(Apply(w, e), c) <==> Delivered(w, c)
  {
    if !e.RunnerDelivers? { assert Apply(w, e).deliveries == w.deliveries; }
  }

  /** A step of another call, of the worker, or creating a row. */
  lemma ForeignStep(w: World, e: Event, c: nat)
    requires CallOk(w, c) && WinnersMatch(w) && Enabled(w, e) && !Touches(e, c)
    ensures CallOk(Apply(w, e), c)
  {
    var w' := Apply(w, e);
    StepKeepsRows(w, e);
    ForeignStepLeaves(w, e, c);
    if c in w.calls {
      ForeignStepDelivers(w, e, c);
      CallOkCarries(w, w', c);
    }
  }

  lemma OwnServerStep(w: World, e: Event, c: nat)
    requires CallOk(w, c) && WinnersMatch(w) && Enabled(w, e) && Touches(e, c)
    requires e.Look? || e.RunnerAnswers? || e.ForwardingFails? || e.ServerUpdates? || e.ServerReadsBack?
    ensures CallOk(Apply(w, e), c)
  {
    if e.ServerUpdates? {
      OwnWrite(w, e, c);
    } else {
      assert Apply(w, e).rows == w.rows && Apply(w, e).winner == w.winner;
    }
  }

  lemma OwnWrite(w: World, e: Event, c: nat)
    requires CallOk(w, c) && WinnersMatch(w) && Enabled(w, e) && e.ServerUpdates? && e.c == c
    ensures CallOk(Apply(w, e), c)
  {
    StepKeepsRows(w, e);
  }

  lemma OwnRunnerStep(w: World, e: Event, c: nat)
    requires CallOk(w, c) && WinnersMatch(w) && Enabled(w, e) && Touches(e, c)
    requires e.RunnerLooks? || e.RunnerUpdates? || e.RunnerDelivers?
    ensures CallOk(Apply(w, e), c)
  {
    StepKeepsRows(w, e);
    if e.RunnerDelivers? {
      var w' := Apply(w, e);
      assert w'.deliveries[|w.deliveries|] == Delivery(c, w.calls[c].approvalId, w.calls[c].decision);
    }
  }

  lemma OwnBegin(w: World, e: Event, c: nat)
    requires Invariant(w) && Enabled(w, e) && e.Begin? && e.c == c
    ensures CallOk(Apply(w, e), c)
  {
    assert c !in w.calls;
  }

  lemma StepKeepsDeliveries(w: World, e: Event)
    requires Invariant(w) && Enabled(w, e)
    ensures DeliveriesOk(Apply(w, e)) && w.deliveries <= Apply(w, e).deliveries
  {
    var w' := Apply(w, e);
    match e
    case RunnerDelivers(c) => NewDelivery(w, c);
    case Begin(c, _) => assert w'.deliveries == w.deliveries;
    case _ => assert w'.deliveries == w.deliveries && w'.calls == w.calls;
  }

  lemma NewDelivery(w: World, c: nat)
    requires Invariant(w) && Enabled(w, RunnerDelivers(c))
    ensures forall i :: 0 <= i < |w.deliveries| ==> w.deliveries[i].call != c
  {
    assert CallOk(w, c);
    forall i | 0 <= i < |w.deliveries| ensures w.deliveries[i].call != c {
      var d := w.deliveries[i];
      assert d in w.deliveries;
    }
  }

  lemma StepKeepsInvariant(w: World, w': World)
    requires Invariant(w) && Next(w, w')
    ensures Invariant(w')
  {
    var e :| Enabled(w, e) && w' == Apply(w, e);
    StepKeepsRows(w, e);
    StepKeepsDeliveries(w, e);
    forall c ensures CallOk(w', c) {
      assert CallOk(w, c);
      if !Touches(e, c) {
        ForeignStep(w, e, c);
      } else if e.Begin? {
        OwnBegin(w, e, c);
      } else if e.RunnerLooks? || e.RunnerUpdates? || e.RunnerDelivers? {
        OwnRunnerStep(w, e, c);
      } else {
        OwnServerStep(w, e, c);
      }
    }
  }

  lemma {:induction false} RunInvariant(ws: seq<World>, i: nat)
    requires Run(ws) && i < |ws|
    ensures Invariant(ws[i])
  {
    if i > 0 {
      RunInvariant(ws, i - 1);
      StepKeepsInvariant(ws[i - 1], ws[i]);
    }
  }

  /** What survives every step: rows out of pending, and returned results. */
  ghost predicate Kept(w: World, w': World) {
    && RowsKept(w, w')
    && (forall c :: Finished(w, c) ==> Finished(w', c) && w'.calls[c] == w.calls[c] && w'.server[c] == w.server[c])
    && w.deliveries <= w'.deliveries
  }

  predicate Finished(w: World, c: nat) {
    c in w.calls && c in w.server && w.server[c].Returned?
  }

  lemma FinishedStays(w: World, e: Event, c: nat)
    requires Enabled(w, e) && Finished(w, c)
    ensures var w' := Apply(w, e);
      Finished(w', c) && w'.calls[c] == w.calls[c] && w'.server[c] == w.server[c]
  {
    if e.Look? || e.RunnerAnswers? || e.ForwardingFails? || e.ServerUpdates? || e.ServerReadsBack? {
      assert !Touches(e, c);
      assert Apply(w, e).calls == w.calls;
    } else if !e.Begin? {
      assert Apply(w, e).calls == w.calls && Apply(w, e).server == w.server;
    }
  }

  lemma StepKeeps(w: World, w': World)
    requires Invariant(w) && Next(w, w')
    ensures Kept(w, w')
  {
    var e :| Enabled(w, e) && w' == Apply(w, e);
    StepKeepsRows(w, e);
    StepKeepsDeliveries(w, e);
    forall c | Finished(w, c)
      ensures Finished(w', c) && w'.calls[c] == w.calls[c] && w'.server[c] == w.server[c]
    {
      FinishedStays(w, e, c);
    }
  }

  lemma KeptTransitive(u: World, v: World, w: World)
    requires Kept(u, v) && Kept(v, w)
    ensures Kept(u, w)
  {
  }

  lemma RunKeeps(ws: seq<World>, k: nat)
    requires Run(ws) && k + 1 < |ws|
    ensures Kept(ws[k], ws[k + 1])
  {
    RunInvariant(ws, k);
    StepKeeps(ws[k], ws[k + 1]);
  }

  /** Each state keeps what the one before it had. */
  ghost predicate Keeping(ws: seq<World>) {
    forall k :: 0 <= k < |ws| - 1 ==> Kept(ws[k], ws[k + 1])
  }

  lemma {:induction false} KeptSince(ws: seq<World>, i: nat, j: nat, start: World)
    requires Keeping(ws) && i <= j < |ws| && start == ws[i]
    ensures Kept(start, ws[j])
  {
    if i < j {
      KeptSince(ws, i, j - 1, start);
      assert Kept(ws[j - 1], ws[j - 1 + 1]);
      KeptTransitive(start, ws[j - 1], ws[j]);
    }
  }

  /** A decided approval never changes again, reason included, whoever races for it. */
  lemma DecidedForever(ws: seq<World>, i: nat, j: nat)
    requires Run(ws) && i <= j < |ws|
    ensures Kept(ws[i], ws[j])
  {
    forall k | 0 <= k < |ws| - 1 { RunKeeps(ws, k); }
    KeptSince(ws, i, j, ws[i]);
  }

  predicate Succeeded(w: World, c: nat) {
    Finished(w, c) && w.server[c].result.Success?
  }

  /** A successful call returned the row's final content: its own decision and reason,
      approved for an approval and denied for a denial, which the row still holds at any
      later time. */
  lemma SuccessIsFinal(ws: seq<World>, i: nat, j: nat, c: nat, call: Call)
    requires Run(ws) && i <= j < |ws| && Succeeded(ws[i], c) && call == ws[i].calls[c]
    ensures call.approvalId in ws[j].rows && ws[i].server[c].result.row == ws[j].rows[call.approvalId]
    ensures ws[j].rows[call.approvalId]
         == Approval(call.taskId, if call.decision == Approve then Approved else Denied, call.reason)
  {
    RunInvariant(ws, i);
    assert CallOk(ws[i], c);
    DecidedForever(ws, i, j);
  }

  /** What a call is told that finds the approval decided is true, and stays so; and the
      approval of a call that reports the runner as unavailable is one of its task. */
  lemma RefusalsAreTrue(ws: seq<World>, i: nat, j: nat, c: nat, call: Call)
    requires Run(ws) && i <= j < |ws| && Finished(ws[i], c) && call == ws[i].calls[c]
    ensures ws[i].server[c].result.AlreadyDecided? ==>
      && call.approvalId in ws[j].rows && ws[j].rows[call.approvalId].taskId == call.taskId
      && ws[j].rows[call.approvalId].status == ws[i].server[c].result.status != Pending
    ensures ws[i].server[c].result == RunnerUnavailable ==>
      call.approvalId in ws[j].rows && ws[j].rows[call.approvalId].taskId == call.taskId
  {
    RunInvariant(ws, i);
    assert CallOk(ws[i], c);
    DecidedForever(ws, i, j);
  }

  /** What looking at the approval finds, and where the call goes on from there. */
  lemma LookDecides(w: World, c: nat, call: Call, pc: ServerPc)
    requires Enabled(w, Look(c)) && call == w.calls[c] && pc == Apply(w, Look(c)).server[c]
    ensures pc == Returned(NotFound) <==>
      call.approvalId !in w.rows || w.rows[call.approvalId].taskId != call.taskId
    ensures pc.Returned? && pc.result.AlreadyDecided? <==>
      && call.approvalId in w.rows && w.rows[call.approvalId].taskId == call.taskId
      && w.rows[call.approvalId].status != Pending
    ensures !pc.Returned? ==> pc == if call.forwards then AwaitingRunner else Updating(false)
    ensures Apply(w, Look(c)).rows == w.rows && Apply(w, Look(c)).deliveries == w.deliveries
  {
  }

  /** A write of the server or the daemon decides a row exactly if it is pending, as
      approved for an approval and as denied for a denial, and touches no other. */
  lemma WritesDecide(w: World, e: Event, call: Call)
    requires Enabled(w, e) && (e.RunnerUpdates? || e.ServerUpdates?) && call == w.calls[e.c]
    ensures var rows := Apply(w, e).rows;
      && (forall id :: id != call.approvalId ==>
           (id in rows <==> id in w.rows) && (id in w.rows ==> rows[id] == w.rows[id]))
      && (call.approvalId in rows <==> call.approvalId in w.rows)
      && (call.approvalId in w.rows ==>
           rows[call.approvalId] ==
             if w.rows[call.approvalId].status != Pending then w.rows[call.approvalId]
             else Approval(w.rows[call.approvalId].taskId, if call.decision == Deny then Denied else Approved,
                           call.reason))
  {
  }

  /** Two opposite decisions on one approval never both succeed. */
  lemma OppositeDecisionsNeverBothSucceed(ws: seq<World>, i: nat, c: nat, d: nat)
    requires Run(ws) && i < |ws| && Succeeded(ws[i], c) && Succeeded(ws[i], d)
    requires ws[i].calls[c].approvalId == ws[i].calls[d].approvalId
    ensures ws[i].calls[c].decision == ws[i].calls[d].decision
  {
    SuccessIsFinal(ws, i, i, c, ws[i].calls[c]);
    SuccessIsFinal(ws, i, i, d, ws[i].calls[d]);
  }

  /** The worker is only ever told the decision that the row holds, then and at any later
      time, and told of one approval at most once. */
  lemma WorkerToldTheTruthOnce(ws: seq<World>, i: nat, j: nat, k: nat, l: nat, d: Delivery)
    requires Run(ws) && i <= j < |ws| && k < |ws[i].deliveries| && l < |ws[i].deliveries| && d == ws[i].deliveries[k]
    ensures d.approvalId in ws[i].rows && d.approvalId in ws[j].rows
    ensures d.decision == Approve ==> ws[i].rows[d.approvalId].status == ws[j].rows[d.approvalId].status == Approved
    ensures d.decision == Deny ==> ws[i].rows[d.approvalId].status == ws[j].rows[d.approvalId].status == Denied
    ensures d.approvalId == ws[i].deliveries[l].approvalId ==> k == l
  {
    RunInvariant(ws, i);
    DecidedForever(ws, i, j);
    var f := ws[i].deliveries[l];
    assert d in ws[i].deliveries && f in ws[i].deliveries;
    assert CallOk(ws[i], d.call) && CallOk(ws[i], f.call);
  }

  /** A forwarded call that succeeds has reached the worker with its own decision. */
  lemma ForwardedSuccessReachedWorker(ws: seq<World>, i: nat, c: nat)
    requires Run(ws) && i < |ws| && Succeeded(ws[i], c) && ws[i].calls[c].forwards
    ensures Delivery(c, ws[i].calls[c].approvalId, ws[i].calls[c].decision) in ws[i].deliveries
  {
    RunInvariant(ws, i);
    assert CallOk(ws[i], c);
  }

  // ------------------------------------------------------- lost answers

  /** A run with the steps it took. */
  ghost predicate RunBy(ws: seq<World>, es: seq<Event>) {
    && |ws| == |es| + 1 && ws[0] == World(map[], map[], map[], map[], map[], [])
    && forall i :: 0 <= i < |es| ==> Enabled(ws[i], es[i]) && ws[i + 1] == Apply(ws[i], es[i])
  }

  lemma RunByIsRun(ws: seq<World>, es: seq<Event>)
    requires RunBy(ws, es)
    ensures Run(ws)
  {
    forall i | 0 <= i < |ws| - 1 ensures Next(ws[i], ws[i + 1]) {
      assert Enabled(ws[i], es[i]) && ws[i + 1] == Apply(ws[i], es[i]);
    }
  }

  /** Where a call stands whose forwarding has not failed. */
  predicate StillForwarding(w: World, c: nat) {
    c in w.calls && c in w.server && c in w.runner ==>
      && (w.runner[c] in {Received, Checked, Won} ==> w.server[c] == AwaitingRunner)
      && (w.runner[c] == Replied(true) ==>
           || w.server[c] in {AwaitingRunner, Updating(true), Confirming, ReadingBack}
           || (w.server[c].Returned? && w.server[c].result.Success?))
  }

  lemma ServerStepKeepsForwarding(w: World, e: Event, c: nat)
    requires Invariant(w) && StillForwarding(w, c) && Enabled(w, e)
    requires (e.ServerUpdates? || e.ServerReadsBack? || e.RunnerAnswers? || e.Look?) && e.c == c
    ensures StillForwarding(Apply(w, e), c)
  {
    assert CallOk(w, c);
  }

  lemma StepKeepsForwarding(w: World, e: Event, c: nat)
    requires Invariant(w) && StillForwarding(w, c) && Enabled(w, e) && e != ForwardingFails(c)
    ensures StillForwarding(Apply(w, e), c)
  {
    if (e.ServerUpdates? || e.ServerReadsBack? || e.RunnerAnswers? || e.Look?) && e.c == c {
      ServerStepKeepsForwarding(w, e, c);
    }
  }

  lemma {:induction false} ForwardingGoesOn(ws: seq<World>, es: seq<Event>, i: nat, c: nat)
    requires RunBy(ws, es) && i <= |es| && ForwardingFails(c) !in es[..i]
    ensures StillForwarding(ws[i], c)
  {
    if i > 0 {
      assert es[..i][i - 1] == es[i - 1] && es[..i][..i - 1] == es[..i - 1];
      ForwardingGoesOn(ws, es, i - 1, c);
      RunByIsRun(ws, es);
      RunInvariant(ws, i - 1);
      StepKeepsForwarding(ws[i - 1], es[i - 1], c);
    }
  }

  lemma UnavailableForGood(ws: seq<World>, es: seq<Event>, k: nat, i: nat, c: nat)
    requires RunBy(ws, es) && k < i <= |es| && es[k] == ForwardingFails(c)
    ensures Finished(ws[i], c) && ws[i].server[c] == Returned(RunnerUnavailable)
  {
    assert Enabled(ws[k], es[k]) && ws[k + 1] == Apply(ws[k], es[k]);
    RunByIsRun(ws, es);
    DecidedForever(ws, k + 1, i);
  }

  /** Of the calls that are finished and whose decision reached the worker, exactly those
      report success whose forwarding did not fail on the way. */
  lemma DeliveredSucceedsIff(ws: seq<World>, es: seq<Event>, i: nat, c: nat)
    requires RunBy(ws, es) && i <= |es| && Finished(ws[i], c) && Delivered(ws[i], c)
    ensures Succeeded(ws[i], c) <==> ForwardingFails(c) !in es[..i]
    ensures !Succeeded(ws[i], c) ==> ws[i].server[c].result == RunnerUnavailable
  {
    if ForwardingFails(c) in es[..i] {
      var k :| 0 <= k < |es[..i]| && es[..i][k] == ForwardingFails(c);
      UnavailableForGood(ws, es, k, i, c);
    } else {
      ForwardingGoesOn(ws, es, i, c);
      RunByIsRun(ws, es);
      RunInvariant(ws, i);
      assert CallOk(ws[i], c);
    }
  }

  /** When the answer gets lost, row and worker have the decision all the same. */
  lemma LostAnswerStillDecides(w: World, c: nat, call: Call)
    requires Invariant(w) && RunnerAt(w, c, Replied(true)) && ServerAt(w, c, AwaitingRunner) && call == w.calls[c]
    ensures var w' := Apply(w, ForwardingFails(c));
      && w'.server[c] == Returned(RunnerUnavailable) && call.approvalId in w'.rows
      && w'.rows[call.approvalId]
         == Approval(call.taskId, if call.decision == Approve then Approved else Denied, call.reason)
      && Delivery(c, call.approvalId, call.decision) in w'.deliveries
  {
    assert CallOk(w, c);
  }

  lemma ExtendRun(ws: seq<World>, es: seq<Event>, e: Event)
    requires RunBy(ws, es) && Enabled(ws[|es|], e)
    ensures RunBy(ws + [Apply(ws[|es|], e)], es + [e])
  {
    var ws', es' := ws + [Apply(ws[|es|], e)], es + [e];
    forall i | 0 <= i < |es'| ensures Enabled(ws'[i], es'[i]) && ws'[i + 1] == Apply(ws'[i], es'[i]) {
      if i < |es| { assert ws'[i] == ws[i] && ws'[i + 1] == ws[i + 1] && es'[i] == es[i]; }
    }
  }

  function Story(call: Call): seq<Event> {
    [CreateRow("approval", "task"), Begin(0, call), Look(0), RunnerLooks(0), RunnerUpdates(0), RunnerDelivers(0)]
  }

  lemma UntilDelivery(call: Call) returns (ws: seq<World>, es: seq<Event>)
    requires call == Call("task", "approval", Approve, "", true)
    ensures RunBy(ws, es) && |es| == 6 && Halfway(ws[6], 6, call)
  {
    var steps := Story(call);
    ws, es := [World(map[], map[], map[], map[], map[], [])], [];
    for i := 0 to 6
      invariant RunBy(ws, es) && |es| == i && (i > 0 ==> Halfway(ws[i], i, call))
      invariant i == 0 ==> ws == [World(map[], map[], map[], map[], map[], [])]
    {
      HalfwayStep(ws[i], i, call, steps[i]);
      ExtendRun(ws, es, steps[i]);
      ws, es := ws + [Apply(ws[i], steps[i])], es + [steps[i]];
    }
  }

  lemma HalfwayStep(w: World, i: nat, call: Call, e: Event)
    requires call == Call("task", "approval", Approve, "", true) && i < 6
    requires if i == 0 then w == World(map[], map[], map[], map[], map[], []) else Halfway(w, i, call)
    requires e == Story(call)[i]
    ensures Enabled(w, e) && Halfway(Apply(w, e), i + 1, call)
  {
  }

  /** The answer can get lost: a run at whose end row and worker have the decision while
      the call that made it reports the runner as unavailable. */
  lemma AnswerCanGetLost() returns (ws: seq<World>, es: seq<Event>)
    ensures RunBy(ws, es) && |es| == 7
    ensures Finished(ws[7], 0) && ws[7].server[0] == Returned(RunnerUnavailable) && Delivered(ws[7], 0)
    ensures "approval" in ws[7].rows && ws[7].rows["approval"] == Approval("task", Approved, "")
    ensures ws[7].calls[0] == Call("task", "approval", Approve, "", true)
  {
    ws, es := UntilDelivery(Call("task", "approval", Approve, "", true));
    RunByIsRun(ws, es);
    RunInvariant(ws, 6);
    LostAnswerStillDecides(ws[6], 0, ws[6].calls[0]);
    ExtendRun(ws, es, ForwardingFails(0));
    ws, es := ws + [Apply(ws[6], ForwardingFails(0))], es + [ForwardingFails(0)];
  }

  /** The state after the first steps of that run. */
  predicate Halfway(w: World, i: nat, call: Call) {
    && call.approvalId in w.rows && w.rows[call.approvalId].taskId == call.taskId
    && (i < 5 <==> w.rows[call.approvalId].status == Pending)
    && (i == 1 ==> w.calls == map[] && w.server == map[] && w.runner == map[])
    && (i > 1 ==> 0 in w.calls && w.calls[0] == call && 0 in w.server && 0 in w.runner)
    && (i > 1 ==> w.server[0] == (if i == 2 then Looking else AwaitingRunner) && w.runner[0] == RunnerAfter(i))
  }

  function RunnerAfter(i: nat): RunnerPc {
    if i == 2 then NoRequest
    else if i == 3 then Received
    else if i == 4 then Checked
    else if i == 5 then Won
    else Replied(true)
  }
}
