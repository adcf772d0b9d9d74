/** Compression calls that overlap (internal/secretary/compression.go): a schedule tick
    builds its prompt without the lock that chat requests take, so two calls can be at
    work on one conversation. Each query and each insert is one step; the cursor a call
    works with is its own, read once at its start. */
module ConcurrentCompression {
  import opened Text
  import opened Compression

  /** A row of the compression table, with the call that appended it and the ids of the
      messages it summarizes. */
  datatype Entry = Entry(call: nat, record: Record, ids: seq<int>)

  type Entries = seq<Entry>

  datatype Phase = Ready | Tailed(keepFrom: int) | Listed(keepFrom: int, run: seq<Message>) | Ended

  /** A call: how many rows there were when it read the latest one, its own cursor and
      summary since, and the iterations it has finished. */
  datatype Call = Call(since: nat, cursor: int, summary: string, iterations: nat, phase: Phase)

  /** `appended` collects every id ever appended, `lost` those pruned before a summary
      covered them. */
  datatype World = World(
    msgs: seq<Message>, entries: Entries, calls: map<nat, Call>, appended: set<int>, lost: set<int>)

  datatype Event =
    | Posts(id: int, content: string)
    | Prunes(cutoff: int)
    | Begins(c: nat)
    | Tails(c: nat)
    | Lists(c: nat)
    | Summarizes(c: nat, outcome: Outcome)
    | Stops(c: nat)

  /** The cursor that the latest row yields. */
  function CursorOf(entries: Entries): int {
    if entries == [] || entries[|entries| - 1].record.cursorAfter < 0 then 0
    else entries[|entries| - 1].record.cursorAfter
  }

  function SummaryOf(entries: Entries): string {
    if entries == [] then "" else entries[|entries| - 1].record.summary
  }

  function At(w: World, c: nat): Phase {
    if c in w.calls then w.calls[c].phase else Ended
  }

  predicate Enabled(o: Options, w: World, e: Event) {
    match e
    case Posts(id, _) => id > 0 && forall i | i in w.appended :: i < id
    case Prunes(_) => true
    case Begins(c) => c !in w.calls
    case Tails(c) => At(w, c).Ready? && w.calls[c].iterations < o.steps
    case Lists(c) => At(w, c).Tailed?
    case Summarizes(c, _) => At(w, c).Listed? && At(w, c).run != []
    case Stops(c) => At(w, c).Ready? && w.calls[c].iterations >= o.steps
  }

  function Moved(w: World, c: nat, phase: Phase): World
    requires c in w.calls
  {
    w.(calls := w.calls[c := w.calls[c].(phase := phase)])
  }

  function AfterTails(o: Options, w: World, c: nat): World
    requires Normalized(o) && c in w.calls
  {
    var rest := After(w.msgs, w.calls[c].cursor);
    Moved(w, c, if rest == [] then Ended else Tailed(KeepFrom(rest, o)))
  }

  function AfterLists(o: Options, w: World, c: nat): World
    requires Normalized(o) && At(w, c).Tailed?
  {
    var keepFrom := At(w, c).keepFrom;
    var run := Before(FirstOf(After(w.msgs, w.calls[c].cursor), o.maxSummarize), keepFrom);
    Moved(w, c, if run == [] then Ended else Listed(keepFrom, run))
  }

  /** The row that a call appends: an error, or a summary of its run. */
  function NewRow(c: nat, call: Call, outcome: Outcome): Entry
    requires call.phase.Listed? && call.phase.run != [] && outcome != NothingToSend
  {
    var run := call.phase.run;
    if Fails(outcome)
    then Entry(c, Record(call.cursor, call.cursor, call.phase.keepFrom, call.summary, true), [])
    else Entry(c, Record(call.cursor, run[|run| - 1].id, call.phase.keepFrom, outcome.summary, false), Ids(run))
  }

  predicate Fails(outcome: Outcome)
    requires outcome != NothingToSend
  {
    outcome == Error || Trim(outcome.summary) == ""
  }

  function AfterSummarizes(w: World, c: nat, outcome: Outcome): World
    requires At(w, c).Listed? && At(w, c).run != []
  {
    var call := w.calls[c];
    if outcome == NothingToSend then Moved(w, c, Ended)
    else
      var row := NewRow(c, call, outcome);
      var call' := if Fails(outcome) then call.(phase := Ended)
                   else call.(cursor := row.record.cursorAfter, summary := row.record.summary,
                              iterations := call.iterations + 1, phase := Ready);
      w.(entries := w.entries + [row], calls := w.calls[c := call'])
  }

  /** Pruning deletes what is older than some message; `lost` collects what no summary
      had covered before. */
  function AfterPrunes(w: World, cutoff: int): World {
    w.(msgs := After(w.msgs, cutoff - 1),
       lost := w.lost + set m | m in w.msgs && m.id < cutoff && m.id > CursorOf(w.entries) :: m.id)
  }

  function Apply(o: Options, w: World, e: Event): World
    requires Normalized(o) && Enabled(o, w, e)
  {
    match e
    case Posts(id, content) => w.(msgs := w.msgs + [Message(id, content)], appended := w.appended + {id})
    case Prunes(cutoff) => AfterPrunes(w, cutoff)
    case Begins(c) =>
      w.(calls := w.calls[c := Call(|w.entries|, CursorOf(w.entries), SummaryOf(w.entries), 0, Ready)])
    case Tails(c) => AfterTails(o, w, c)
    case Lists(c) => AfterLists(o, w, c)
    case Summarizes(c, outcome) => AfterSummarizes(w, c, outcome)
    case Stops(c) => Moved(w, c, Ended)
  }

  ghost predicate Step(o: Options, w: World, e: Event, w': World)
    requires Normalized(o)
  {
    Enabled(o, w, e) && w' == Apply(o, w, e)
  }

  /** A conversation that has not been compressed, and that nothing works on. */
  ghost predicate Start(w: World) {
    && w.entries == [] && w.calls == map[] && w.lost == {} && Ascending(w.msgs)
    && (forall id :: id in w.appended <==> Present(w.msgs, id)) && (forall id :: id in w.appended ==> id > 0)
  }

  /** A run: its states, and the events between them. */
  datatype Run = Run(states: seq<World>, events: seq<Event>)

  ghost predicate IsRun(o: Options, run: Run)
    requires Normalized(o)
  {
    && |run.states| == |run.events| + 1 && Start(run.states[0])
    && forall i :: 0 <= i < |run.events| ==> Step(o, run.states[i], run.events[i], run.states[i + 1])
  }

  // --------------------------------------------------------------- the rows

  /** An error row stays at its cursor; a summary covers messages between its cursors,
      before the kept window. */
  predicate EntryOk(e: Entry, appended: set<int>) {
    && 0 <= e.record.cursorBefore && (e.record.cursorAfter == 0 || e.record.cursorAfter in appended)
    && (if e.record.failed then e.record.cursorAfter == e.record.cursorBefore && e.ids == []
        else e.record.cursorBefore < e.record.cursorAfter < e.record.keepFrom && e.ids != [])
    && forall k | k in e.ids :: e.record.cursorBefore < k <= e.record.cursorAfter
  }

  predicate EntriesOk(entries: Entries, appended: set<int>) {
    forall i | 0 <= i < |entries| :: EntryOk(entries[i], appended)
  }

  /** Each row starts at the cursor that the one before it left. */
  predicate Clean(entries: Entries) {
    entries == [] ||
    (Clean(entries[..|entries| - 1])
     && entries[|entries| - 1].record.cursorBefore == CursorOf(entries[..|entries| - 1]))
  }

  lemma CleanSnoc(entries: Entries, e: Entry)
    ensures Clean(entries + [e]) <==> Clean(entries) && e.record.cursorBefore == CursorOf(entries)
  {
    assert (entries + [e])[..|entries|] == entries;
  }

  lemma CursorSnoc(entries: Entries, e: Entry, appended: set<int>)
    requires EntryOk(e, appended)
    ensures CursorOf(entries + [e]) == e.record.cursorAfter >= 0
  {
  }

  /** The cursor of a call: that of its own latest row since it began, or what it read. */
  function OwnCursor(entries: Entries, since: nat, c: nat): int {
    if |entries| <= since then CursorOf(entries)
    else if entries[|entries| - 1].call == c then entries[|entries| - 1].record.cursorAfter
    else OwnCursor(entries[..|entries| - 1], since, c)
  }

  /** Its rows each start at its cursor then. */
  predicate OwnStarts(entries: Entries, since: nat, c: nat) {
    |entries| <= since ||
    (OwnStarts(entries[..|entries| - 1], since, c)
     && (entries[|entries| - 1].call == c ==>
         entries[|entries| - 1].record.cursorBefore == OwnCursor(entries[..|entries| - 1], since, c)))
  }

  /** The row is a summary that another call has appended since this one began. */
  predicate ForeignSummary(entries: Entries, since: nat, c: nat, j: nat)
    requires j < |entries|
  {
    since <= j && entries[j].call != c && !entries[j].record.failed
  }

  predicate OthersSucceeded(entries: Entries, since: nat, c: nat) {
    exists j | 0 <= j < |entries| :: ForeignSummary(entries, since, c, j)
  }

  lemma OthersSnoc(entries: Entries, e: Entry, since: nat, c: nat)
    ensures OthersSucceeded(entries + [e], since, c)
       <==> OthersSucceeded(entries, since, c) || (since <= |entries| && e.call != c && !e.record.failed)
  {
    var all := entries + [e];
    if OthersSucceeded(entries, since, c) {
      var j :| 0 <= j < |entries| && ForeignSummary(entries, since, c, j);
      assert ForeignSummary(all, since, c, j);
    }
    if since <= |entries| && e.call != c && !e.record.failed { assert ForeignSummary(all, since, c, |entries|); }
    if OthersSucceeded(all, since, c) {
      var j :| 0 <= j < |all| && ForeignSummary(all, since, c, j);
      if j < |entries| { assert ForeignSummary(entries, since, c, j); }
    }
  }

  lemma OkPrefix(entries: Entries, n: nat, appended: set<int>)
    requires EntriesOk(entries, appended) && n <= |entries|
    ensures EntriesOk(entries[..n], appended)
  {
  }

  /** Without disturbance a call's cursor is the latest one; a summary of another call
      leaves it behind. */
  lemma {:induction false} OwnIsLatestIff(entries: Entries, since: nat, c: nat, appended: set<int>)
    requires Clean(entries) && EntriesOk(entries, appended) && OwnStarts(entries, since, c) && since <= |entries|
    ensures OwnCursor(entries, since, c) <= CursorOf(entries)
    ensures OwnCursor(entries, since, c) == CursorOf(entries) <==> !OthersSucceeded(entries, since, c)
  {
    if since < |entries| {
      var n := |entries| - 1;
      var early, e := entries[..n], entries[n];
      assert entries == early + [e];
      OkPrefix(entries, n, appended);
      OwnIsLatestIff(early, since, c, appended);
      OthersSnoc(early, e, since, c);
      CursorSnoc(early, e, appended);
    }
  }

  /** What lies before its read, or is its own, ends at the call's cursor at the latest. */
  lemma {:induction false} OwnEndsBehind(entries: Entries, since: nat, c: nat, appended: set<int>, j: nat)
    requires Clean(entries) && EntriesOk(entries, appended) && OwnStarts(entries, since, c) && since <= |entries|
    requires j < |entries| && (j < since || entries[j].call == c)
    ensures entries[j].record.cursorAfter <= OwnCursor(entries, since, c)
  {
    if since == |entries| {
      CleanClimbs(entries, appended, j);
    } else {
      var n := |entries| - 1;
      OkPrefix(entries, n, appended);
      if j < n { OwnEndsBehind(entries[..n], since, c, appended, j); }
      assert EntryOk(entries[n], appended);
    }
  }

  lemma {:induction false} CleanClimbs(entries: Entries, appended: set<int>, j: nat)
    requires Clean(entries) && EntriesOk(entries, appended) && j < |entries|
    ensures entries[j].record.cursorAfter <= CursorOf(entries)
  {
    var n := |entries| - 1;
    assert EntryOk(entries[n], appended);
    if j < n {
      OkPrefix(entries, n, appended);
      CleanClimbs(entries[..n], appended, j);
    }
  }

  /** Two summaries cover a common stretch of the conversation. */
  predicate Overlap(a: Record, b: Record) {
    !a.failed && !b.failed && a.cursorBefore < b.cursorAfter && b.cursorBefore < a.cursorAfter
  }

  /** Some summary begins at or before any earlier cursor, and ends after it. */
  lemma {:induction false} Spanned(entries: Entries, appended: set<int>, x: int) returns (j: nat)
    requires Clean(entries) && EntriesOk(entries, appended) && 0 <= x < CursorOf(entries)
    ensures j < |entries| && !entries[j].record.failed
    ensures entries[j].record.cursorBefore <= x < entries[j].record.cursorAfter
  {
    var n := |entries| - 1;
    assert EntryOk(entries[n], appended);
    j := n;
    if x < entries[n].record.cursorBefore {
      OkPrefix(entries, n, appended);
      j := Spanned(entries[..n], appended, x);
    }
  }

  // ---------------------------------------------------------- the invariant

  /** The messages a call is about to summarize: behind its cursor, before the kept window. */
  predicate RunOk(run: seq<Message>, cursor: int, keepFrom: int, appended: set<int>) {
    && run != [] && (forall m | m in run :: cursor < m.id <= run[|run| - 1].id)
    && run[|run| - 1].id < keepFrom && run[|run| - 1].id in appended
  }

  predicate CallOk(call: Call, c: nat, entries: Entries, appended: set<int>) {
    && call.since <= |entries| && 0 <= call.cursor
    && (call.phase != Ended ==> call.cursor == OwnCursor(entries, call.since, c) && OwnStarts(entries, call.since, c))
    && (call.phase.Listed? ==> RunOk(call.phase.run, call.cursor, call.phase.keepFrom, appended))
  }

  ghost predicate Invariant(w: World) {
    && Ascending(w.msgs) && (forall m :: m in w.msgs ==> m.id in w.appended)
    && (forall id :: id in w.appended ==> id > 0)
    && EntriesOk(w.entries, w.appended) && (forall c :: c in w.calls ==> CallOk(w.calls[c], c, w.entries, w.appended))
  }

  lemma CursorIsNone(entries: Entries, appended: set<int>)
    requires EntriesOk(entries, appended)
    ensures CursorOf(entries) == 0 || CursorOf(entries) in appended
    ensures CursorOf(entries) >= 0
  {
    if entries != [] { assert EntryOk(entries[|entries| - 1], appended); }
  }

  lemma NewRowOk(c: nat, call: Call, outcome: Outcome, entries: Entries, appended: set<int>)
    requires CallOk(call, c, entries, appended) && call.phase.Listed? && outcome != NothingToSend
    requires call.cursor == 0 || call.cursor in appended
    ensures EntryOk(NewRow(c, call, outcome), appended)
  {
    var run := call.phase.run;
    forall k | k in Ids(run) ensures call.cursor < k <= run[|run| - 1].id {
      var i :| 0 <= i < |run| && Ids(run)[i] == k;
      assert run[i] in run;
    }
    assert run[0] in run;
  }

  lemma {:induction false} OwnCursorKnown(entries: Entries, since: nat, c: nat, appended: set<int>)
    requires EntriesOk(entries, appended)
    ensures OwnCursor(entries, since, c) == 0 || OwnCursor(entries, since, c) in appended
  {
    CursorIsNone(entries, appended);
    if since < |entries| {
      assert EntryOk(entries[|entries| - 1], appended);
      OkPrefix(entries, |entries| - 1, appended);
      OwnCursorKnown(entries[..|entries| - 1], since, c, appended);
    }
  }

  /** A row appended by another call leaves a call as it is. */
  lemma ForeignRow(call: Call, c: nat, entries: Entries, e: Entry, appended: set<int>)
    requires CallOk(call, c, entries, appended) && e.call != c
    ensures CallOk(call, c, entries + [e], appended)
  {
    assert (entries + [e])[..|entries|] == entries;
  }

  lemma OwnRow(call: Call, call': Call, c: nat, entries: Entries, e: Entry, appended: set<int>)
    requires CallOk(call, c, entries, appended) && call.phase != Ended && EntryOk(e, appended)
    requires e.call == c && e.record.cursorBefore == call.cursor
    requires call'.since == call.since && call'.cursor == e.record.cursorAfter
    requires call'.phase.Ready? || call'.phase.Ended?
    ensures CallOk(call', c, entries + [e], appended)
  {
    assert (entries + [e])[..|entries|] == entries;
  }

  lemma MoreAppended(call: Call, c: nat, entries: Entries, appended: set<int>, id: int)
    requires CallOk(call, c, entries, appended)
    ensures CallOk(call, c, entries, appended + {id})
  {
  }

  /** The listed run is the oldest part of what is behind the cursor. */
  lemma ListedRun(msgs: seq<Message>, cursor: int, max: nat, keepFrom: int, run: seq<Message>) returns (n: nat)
    requires Ascending(msgs) && run == Before(FirstOf(After(msgs, cursor), max), keepFrom)
    ensures n == |run| <= |After(msgs, cursor)| && run == After(msgs, cursor)[..n]
    ensures forall m :: m in run ==> m in msgs && m.id < keepFrom
    ensures n > 0 ==> forall m :: m in run <==> m in msgs && cursor < m.id <= run[n - 1].id
  {
    var rest := After(msgs, cursor);
    var head := FirstOf(rest, max);
    BeforeIsPrefix(head, keepFrom);
    n := |run|;
    assert run == rest[..n];
    AfterAscending(msgs, cursor);
    if n > 0 {
      RunMembers(msgs, cursor, rest, n);
      assert forall m :: m in run <==> m in msgs && Between(m, cursor, run[n - 1].id);
    }
  }

  lemma {:induction false} BeforeIsPrefix(head: seq<Message>, keepFrom: int)
    ensures Before(head, keepFrom) <= head && forall m :: m in Before(head, keepFrom) ==> m.id < keepFrom
  {
    if head != [] && head[0].id < keepFrom { BeforeIsPrefix(head[1..], keepFrom); }
  }

  lemma ListedRunOk(o: Options, w: World, cursor: int, keepFrom: int, run: seq<Message>)
    requires Normalized(o) && Invariant(w)
    requires run == Before(FirstOf(After(w.msgs, cursor), o.maxSummarize), keepFrom)
    ensures run != [] ==> RunOk(run, cursor, keepFrom, w.appended)
  {
    var n := ListedRun(w.msgs, cursor, o.maxSummarize, keepFrom, run);
    if n > 0 { assert run[n - 1] in run; }
  }

  lemma ListsKeepsCall(o: Options, w: World, c: nat)
    requires Normalized(o) && Invariant(w) && At(w, c).Tailed?
    ensures CallOk(AfterLists(o, w, c).calls[c], c, w.entries, w.appended)
  {
    var call := w.calls[c];
    assert CallOk(call, c, w.entries, w.appended);
    var run := Before(FirstOf(After(w.msgs, call.cursor), o.maxSummarize), call.phase.keepFrom);
    ListedRunOk(o, w, call.cursor, call.phase.keepFrom, run);
  }

  lemma SummarizesKeepsInvariant(w: World, c: nat, outcome: Outcome)
    requires Invariant(w) && At(w, c).Listed? && At(w, c).run != []
    ensures Invariant(AfterSummarizes(w, c, outcome))
  {
    assert CallOk(w.calls[c], c, w.entries, w.appended);
    if outcome != NothingToSend {
      OwnCursorKnown(w.entries, w.calls[c].since, c, w.appended);
      RowKeepsCalls(w, c, outcome, NewRow(c, w.calls[c], outcome), AfterSummarizes(w, c, outcome));
    }
  }

  lemma RowKeepsCalls(w: World, c: nat, outcome: Outcome, e: Entry, w': World)
    requires Invariant(w) && At(w, c).Listed? && At(w, c).run != [] && outcome != NothingToSend
    requires w.calls[c].cursor == 0 || w.calls[c].cursor in w.appended
    requires e == NewRow(c, w.calls[c], outcome) && w' == AfterSummarizes(w, c, outcome)
    ensures EntryOk(e, w.appended) && forall d :: d in w'.calls ==> CallOk(w'.calls[d], d, w'.entries, w'.appended)
  {
    assert CallOk(w.calls[c], c, w.entries, w.appended);
    NewRowOk(c, w.calls[c], outcome, w.entries, w.appended);
    OwnRow(w.calls[c], w'.calls[c], c, w.entries, e, w.appended);
    forall d | d in w.calls && d != c { ForeignRow(w.calls[d], d, w.entries, e, w.appended); }
  }

  lemma StepKeepsInvariant(o: Options, w: World, e: Event)
    requires Normalized(o) && Invariant(w) && Enabled(o, w, e)
    ensures Invariant(Apply(o, w, e))
  {
    match e
    case Posts(id, content) =>
      PostKeepsInvariant(w, id, content, Apply(o, w, e));
    case Prunes(cutoff) => AfterAscending(w.msgs, cutoff - 1);
    case Begins(c) => CursorIsNone(w.entries, w.appended);
    case Tails(c) => assert CallOk(w.calls[c], c, w.entries, w.appended);
    case Lists(c) => ListsKeepsCall(o, w, c);
    case Summarizes(c, outcome) => SummarizesKeepsInvariant(w, c, outcome);
    case Stops(c) => assert CallOk(w.calls[c], c, w.entries, w.appended);
  }

  lemma PostKeepsInvariant(w: World, id: int, content: string, w': World)
    requires Invariant(w) && id > 0 && forall i | i in w.appended :: i < id
    requires w' == w.(msgs := w.msgs + [Message(id, content)], appended := w.appended + {id})
    ensures Invariant(w')
  {
    forall i | 0 <= i < |w.msgs| ensures w.msgs[i].id < id { assert w.msgs[i] in w.msgs; }
    forall i | 0 <= i < |w.entries| ensures EntryOk(w.entries[i], w'.appended) {
      assert EntryOk(w.entries[i], w.appended);
    }
    forall c | c in w.calls { MoreAppended(w.calls[c], c, w.entries, w.appended, id); }
  }

  lemma StepAt(o: Options, run: Run, n: nat)
    requires Normalized(o) && IsRun(o, run) && 0 < n < |run.states|
    ensures Step(o, run.states[n - 1], run.events[n - 1], run.states[n])
  {
    assert Step(o, run.states[n - 1], run.events[n - 1], run.states[n - 1 + 1]);
  }

  lemma {:induction false} RunInvariant(o: Options, run: Run, i: nat)
    requires Normalized(o) && IsRun(o, run) && i < |run.states|
    ensures Invariant(run.states[i])
  {
    if i == 0 {
      StartIsOk(run.states[0]);
    } else {
      RunInvariant(o, run, i - 1);
      StepAt(o, run, i);
      StepKeepsInvariant(o, run.states[i - 1], run.events[i - 1]);
    }
  }

  lemma StartIsOk(w: World)
    requires Start(w)
    ensures Invariant(w)
  {
    forall m | m in w.msgs ensures m.id in w.appended { assert Present(w.msgs, m.id); }
  }

  // ------------------------------------------------- what overlapping calls do

  /** A row, in any reachable state, moves the cursor back exactly if the latest row was
      appended by another call since this one began, and ends behind it. */
  lemma MovesBackIff(w: World, c: nat, outcome: Outcome, e: Entry)
    requires Invariant(w) && At(w, c).Listed? && At(w, c).run != [] && outcome != NothingToSend
    requires e == NewRow(c, w.calls[c], outcome)
    ensures CursorOf(w.entries + [e]) < CursorOf(w.entries) <==>
      && |w.entries| > w.calls[c].since && w.entries[|w.entries| - 1].call != c
      && w.entries[|w.entries| - 1].record.cursorAfter > e.record.cursorAfter
  {
    var call := w.calls[c];
    assert CallOk(call, c, w.entries, w.appended);
    OwnCursorKnown(w.entries, call.since, c, w.appended);
    NewRowOk(c, call, outcome, w.entries, w.appended);
    CursorSnoc(w.entries, e, w.appended);
    if |w.entries| > call.since { assert EntryOk(w.entries[|w.entries| - 1], w.appended); }
  }

  /** As long as each row started where the one before it ended, the next one does so
      exactly if no other call has appended a summary since its call began. */
  lemma StaysCleanIff(w: World, c: nat, outcome: Outcome, e: Entry)
    requires Invariant(w) && At(w, c).Listed? && At(w, c).run != [] && outcome != NothingToSend
    requires e == NewRow(c, w.calls[c], outcome) && Clean(w.entries)
    ensures Clean(w.entries + [e]) <==> !OthersSucceeded(w.entries, w.calls[c].since, c)
  {
    assert CallOk(w.calls[c], c, w.entries, w.appended);
    CleanSnoc(w.entries, e);
    OwnIsLatestIff(w.entries, w.calls[c].since, c, w.appended);
  }

  /** If another has, a summary covers anew what a summary of another call covers, and an
      error moves the cursor back; otherwise neither happens. */
  lemma OverlapsIff(w: World, c: nat, outcome: Outcome, e: Entry)
    requires Invariant(w) && At(w, c).Listed? && At(w, c).run != [] && outcome != NothingToSend
    requires e == NewRow(c, w.calls[c], outcome) && Clean(w.entries)
    ensures (if e.record.failed then CursorOf(w.entries + [e]) < CursorOf(w.entries)
             else exists j :: 0 <= j < |w.entries| && Overlap(w.entries[j].record, e.record))
       <==> OthersSucceeded(w.entries, w.calls[c].since, c)
    ensures forall j :: 0 <= j < |w.entries| && Overlap(w.entries[j].record, e.record) ==>
      ForeignSummary(w.entries, w.calls[c].since, c, j)
  {
    var call := w.calls[c];
    assert CallOk(call, c, w.entries, w.appended);
    OwnCursorKnown(w.entries, call.since, c, w.appended);
    NewRowOk(c, call, outcome, w.entries, w.appended);
    CursorSnoc(w.entries, e, w.appended);
    OwnIsLatestIff(w.entries, call.since, c, w.appended);
    forall j | 0 <= j < |w.entries| && Overlap(w.entries[j].record, e.record)
      ensures ForeignSummary(w.entries, call.since, c, j)
    {
      if j < call.since || w.entries[j].call == c { OwnEndsBehind(w.entries, call.since, c, w.appended, j); }
    }
    if OthersSucceeded(w.entries, call.since, c) && !e.record.failed {
      var j := Spanned(w.entries, w.appended, call.cursor);
      assert Overlap(w.entries[j].record, e.record);
    }
  }

  // -------------------------------------------------------------- whole runs

  predicate Appends(e: Event) {
    e.Summarizes? && e.outcome != NothingToSend
  }

  /** The call appends a row although another has appended a summary since it began. */
  predicate Disturbed(w: World, e: Event) {
    Appends(e) && e.c in w.calls && OthersSucceeded(w.entries, w.calls[e.c].since, e.c)
  }

  ghost predicate Undisturbed(run: Run, n: nat)
    requires n <= |run.states| && n <= |run.events|
  {
    forall i :: 0 <= i < n ==> !Disturbed(run.states[i], run.events[i])
  }

  function CursorAt(run: Run, i: nat): int
    requires i < |run.states|
  {
    CursorOf(run.states[i].entries)
  }

  /** Over the first `n` events the cursor has never moved back, and no two summaries
      cover a common stretch. */
  ghost predicate Unharmed(run: Run, n: nat)
    requires n < |run.states|
  {
    (forall i :: 0 <= i < n ==> CursorAt(run, i) <= CursorAt(run, i + 1)) && NoOverlap(run.states[n].entries)
  }

  ghost predicate NoOverlap(entries: Entries) {
    forall i, j :: 0 <= i < j < |entries| ==> !Overlap(entries[i].record, entries[j].record)
  }

  lemma NoOverlapSnoc(entries: Entries, e: Entry)
    ensures NoOverlap(entries + [e])
       <==> NoOverlap(entries) && forall j :: 0 <= j < |entries| ==> !Overlap(entries[j].record, e.record)
  {
    var all := entries + [e];
    if NoOverlap(all) {
      forall i, j | 0 <= i < j < |entries| ensures !Overlap(entries[i].record, entries[j].record) {
        assert !Overlap(all[i].record, all[j].record);
      }
      forall j | 0 <= j < |entries| ensures !Overlap(entries[j].record, e.record) {
        assert !Overlap(all[j].record, all[|entries|].record);
      }
    }
  }

  lemma NonAppending(o: Options, w: World, e: Event)
    requires Normalized(o) && Enabled(o, w, e) && !Appends(e)
    ensures Apply(o, w, e).entries == w.entries
  {
  }

  lemma AppendingEvent(o: Options, w: World, e: Event) returns (row: Entry)
    requires Normalized(o) && Invariant(w) && Enabled(o, w, e) && Appends(e)
    ensures e.c in w.calls && At(w, e.c).Listed? && At(w, e.c).run != []
    ensures row == NewRow(e.c, w.calls[e.c], e.outcome) && EntryOk(row, w.appended)
    ensures Apply(o, w, e).entries == w.entries + [row]
  {
    row := NewRow(e.c, w.calls[e.c], e.outcome);
    assert CallOk(w.calls[e.c], e.c, w.entries, w.appended);
    OwnCursorKnown(w.entries, w.calls[e.c].since, e.c, w.appended);
    NewRowOk(e.c, w.calls[e.c], e.outcome, w.entries, w.appended);
  }

  /** One event, after which the rows are as clean and harmless as before it unless it is
      a disturbed append. */
  lemma HarmIff(o: Options, w: World, e: Event, w': World)
    requires Normalized(o) && Invariant(w) && Step(o, w, e, w') && Clean(w.entries) && NoOverlap(w.entries)
    ensures !Disturbed(w, e) ==> Clean(w'.entries)
    ensures CursorOf(w.entries) <= CursorOf(w'.entries) && NoOverlap(w'.entries) <==> !Disturbed(w, e)
  {
    if Appends(e) {
      var row := AppendingEvent(o, w, e);
      StaysCleanIff(w, e.c, e.outcome, row);
      OverlapsIff(w, e.c, e.outcome, row);
      CleanSnoc(w.entries, row);
      CursorSnoc(w.entries, row, w.appended);
      NoOverlapSnoc(w.entries, row);
    } else {
      NonAppending(o, w, e);
    }
  }

  lemma RowsGrow(o: Options, w: World, e: Event, w': World)
    requires Normalized(o) && Invariant(w) && Step(o, w, e, w')
    ensures w.entries <= w'.entries
  {
    if Appends(e) {
      var row := AppendingEvent(o, w, e);
    } else {
      NonAppending(o, w, e);
    }
  }

  lemma UnharmedBefore(o: Options, run: Run, n: nat)
    requires Normalized(o) && IsRun(o, run) && 0 < n < |run.states|
    ensures Unharmed(run, n) <==>
      Unharmed(run, n - 1) && CursorAt(run, n - 1) <= CursorAt(run, n) && NoOverlap(run.states[n].entries)
  {
    RunInvariant(o, run, n - 1);
    StepAt(o, run, n);
    RowsGrow(o, run.states[n - 1], run.events[n - 1], run.states[n]);
    SplitLast(run, n);
  }

  lemma SplitLast(run: Run, n: nat)
    requires 0 < n < |run.states| && run.states[n - 1].entries <= run.states[n].entries
    ensures Unharmed(run, n) <==>
      Unharmed(run, n - 1) && CursorAt(run, n - 1) <= CursorAt(run, n) && NoOverlap(run.states[n].entries)
  {
    var early, late := run.states[n - 1].entries, run.states[n].entries;
    if Unharmed(run, n) {
      forall i, j | 0 <= i < j < |early| ensures !Overlap(early[i].record, early[j].record) {
        assert early[i] == late[i] && early[j] == late[j];
      }
      assert CursorAt(run, n - 1) <= CursorAt(run, n - 1 + 1);
    }
  }

  /** In every run the cursor never moves back and no two summaries cover a common
      stretch exactly if no call appends a row after another call has appended a summary
      since the first one read its cursor. */
  lemma {:induction false} UnharmedIff(o: Options, run: Run, n: nat)
    requires Normalized(o) && IsRun(o, run) && n < |run.states|
    ensures Unharmed(run, n) <==> Undisturbed(run, n)
    ensures Undisturbed(run, n) ==> Clean(run.states[n].entries)
  {
    if n > 0 {
      UnharmedIff(o, run, n - 1);
      UnharmedBefore(o, run, n);
      UndisturbedBefore(run, n);
      if Undisturbed(run, n - 1) { LastEvent(o, run, n); }
    }
  }

  lemma LastEvent(o: Options, run: Run, n: nat)
    requires Normalized(o) && IsRun(o, run) && 0 < n < |run.states|
    requires Clean(run.states[n - 1].entries) && NoOverlap(run.states[n - 1].entries)
    ensures !Disturbed(run.states[n - 1], run.events[n - 1]) ==> Clean(run.states[n].entries)
    ensures CursorAt(run, n - 1) <= CursorAt(run, n) && NoOverlap(run.states[n].entries)
       <==> !Disturbed(run.states[n - 1], run.events[n - 1])
  {
    RunInvariant(o, run, n - 1);
    StepAt(o, run, n);
    HarmIff(o, run.states[n - 1], run.events[n - 1], run.states[n]);
  }

  lemma UndisturbedBefore(run: Run, n: nat)
    requires 0 < n <= |run.states| && n <= |run.events|
    ensures Undisturbed(run, n) <==> Undisturbed(run, n - 1) && !Disturbed(run.states[n - 1], run.events[n - 1])
  {
  }

  // ------------------------------------------------- runs without such an append

  ghost predicate InSummary(entries: Entries, id: int) {
    exists j :: 0 <= j < |entries| && id in entries[j].ids
  }

  /** Where a message that was ever appended, and not lost, is: in a summary if it lies up
      to the cursor, and still there if it lies behind it. */
  ghost predicate Kept(w: World, id: int) {
    if id <= CursorOf(w.entries) then InSummary(w.entries, id) else Present(w.msgs, id)
  }

  ghost predicate Accounted(w: World) {
    forall id :: id in w.appended && id !in w.lost ==> Kept(w, id)
  }

  /** A call that is about to summarize, and that no other has overtaken, has listed
      every such message up to where its run ends. */
  ghost predicate SeesAll(w: World, c: nat) {
    At(w, c).Listed? && At(w, c).run != [] && !OthersSucceeded(w.entries, w.calls[c].since, c) ==>
      ListsAll(w, w.calls[c].cursor, At(w, c).run)
  }

  ghost predicate ListsAll(w: World, cursor: int, run: seq<Message>)
    requires run != []
  {
    forall id :: id in w.appended && id !in w.lost && cursor < id <= run[|run| - 1].id ==> id in Ids(run)
  }

  ghost predicate Complete(w: World) {
    Accounted(w) && forall c :: c in w.calls ==> SeesAll(w, c)
  }

  lemma PostKeepsComplete(w: World, id: int, content: string, w': World)
    requires Invariant(w) && Complete(w) && id > 0 && forall i | i in w.appended :: i < id
    requires w' == w.(msgs := w.msgs + [Message(id, content)], appended := w.appended + {id})
    ensures Complete(w')
  {
    CursorIsNone(w.entries, w.appended);
    assert w'.msgs[|w.msgs|] == Message(id, content);
    assert Message(id, content) in w'.msgs;
    forall k | k in w'.appended && k !in w'.lost ensures Kept(w', k) {
      if k in w.appended && k > CursorOf(w.entries) {
        assert Kept(w, k);
        var m :| m in w.msgs && m.id == k;
        assert m in w'.msgs;
      }
    }
    forall c | c in w'.calls ensures SeesAll(w', c) {
      assert SeesAll(w, c) && CallOk(w.calls[c], c, w.entries, w.appended);
    }
  }

  lemma PruneKeeps(w: World, cutoff: int, w': World, id: int)
    requires Invariant(w) && w' == AfterPrunes(w, cutoff) && Kept(w, id) && id !in w'.lost
    ensures Kept(w', id)
  {
    AfterAscending(w.msgs, cutoff - 1);
    if id > CursorOf(w.entries) {
      var m :| m in w.msgs && m.id == id;
      assert m in w'.msgs;
    }
  }

  lemma PruneKeepsComplete(w: World, cutoff: int)
    requires Invariant(w) && Complete(w)
    ensures Complete(AfterPrunes(w, cutoff))
  {
    var w' := AfterPrunes(w, cutoff);
    forall id | id in w'.appended && id !in w'.lost ensures Kept(w', id) {
      assert Kept(w, id);
      PruneKeeps(w, cutoff, w', id);
    }
    forall c | c in w'.calls ensures SeesAll(w', c) { assert SeesAll(w, c); }
  }

  lemma ListsSeesAll(o: Options, w: World, c: nat, w': World)
    requires Normalized(o) && Invariant(w) && Complete(w) && Clean(w.entries) && At(w, c).Tailed?
    requires w' == AfterLists(o, w, c)
    ensures SeesAll(w', c)
  {
    var call := w.calls[c];
    assert CallOk(call, c, w.entries, w.appended);
    var run := Before(FirstOf(After(w.msgs, call.cursor), o.maxSummarize), call.phase.keepFrom);
    var n := ListedRun(w.msgs, call.cursor, o.maxSummarize, call.phase.keepFrom, run);
    OwnIsLatestIff(w.entries, call.since, c, w.appended);
    if n > 0 && !OthersSucceeded(w.entries, call.since, c) {
      forall id | id in w.appended && id !in w.lost && call.cursor < id <= run[n - 1].id ensures id in Ids(run) {
        assert Kept(w, id);
        var m :| m in w.msgs && m.id == id;
        var i :| 0 <= i < |run| && run[i] == m;
        assert Ids(run)[i] == id;
      }
    }
  }

  lemma InSummarySnoc(entries: Entries, e: Entry, id: int)
    ensures InSummary(entries + [e], id) <==> InSummary(entries, id) || id in e.ids
  {
    var all := entries + [e];
    if InSummary(entries, id) {
      var j :| 0 <= j < |entries| && id in entries[j].ids;
      assert id in all[j].ids;
    }
    if id in e.ids { assert id in all[|entries|].ids; }
  }

  /** An undisturbed row keeps the books. */
  lemma RowAccounts(w: World, c: nat, outcome: Outcome, e: Entry, w': World)
    requires Invariant(w) && Complete(w) && At(w, c).Listed? && At(w, c).run != [] && outcome != NothingToSend
    requires e == NewRow(c, w.calls[c], outcome) && EntryOk(e, w.appended)
    requires w' == AfterSummarizes(w, c, outcome)
    requires e.record.cursorBefore == CursorOf(w.entries) && !OthersSucceeded(w.entries, w.calls[c].since, c)
    ensures Accounted(w')
  {
    CursorSnoc(w.entries, e, w.appended);
    assert SeesAll(w, c);
    forall id | id in w'.appended && id !in w'.lost ensures Kept(w', id) {
      assert Kept(w, id);
      InSummarySnoc(w.entries, e, id);
    }
  }

  lemma RowKeepsSight(w: World, c: nat, outcome: Outcome, e: Entry, w': World, d: nat)
    requires Invariant(w) && Complete(w) && At(w, c).Listed? && At(w, c).run != [] && outcome != NothingToSend
    requires e == NewRow(c, w.calls[c], outcome) && w' == AfterSummarizes(w, c, outcome) && d in w'.calls
    ensures SeesAll(w', d)
  {
    if d != c {
      assert SeesAll(w, d);
      OthersSnoc(w.entries, e, w.calls[d].since, d);
    }
  }

  lemma RowKeepsComplete(o: Options, w: World, e: Event, w': World)
    requires Normalized(o) && Invariant(w) && Complete(w) && Clean(w.entries) && Step(o, w, e, w')
    requires Appends(e) && !Disturbed(w, e)
    ensures Complete(w')
  {
    var row := AppendingEvent(o, w, e);
    StaysCleanIff(w, e.c, e.outcome, row);
    CleanSnoc(w.entries, row);
    RowAccounts(w, e.c, e.outcome, row, w');
    forall d | d in w'.calls { RowKeepsSight(w, e.c, e.outcome, row, w', d); }
  }

  /** A step of a call that appends nothing. */
  lemma QueryKeepsComplete(o: Options, w: World, e: Event, w': World)
    requires Normalized(o) && Invariant(w) && Complete(w) && Clean(w.entries) && Step(o, w, e, w')
    requires !e.Posts? && !e.Prunes? && !Appends(e)
    ensures Complete(w')
  {
    assert w'.msgs == w.msgs && w'.appended == w.appended && w'.lost == w.lost && w'.entries == w.entries;
    forall id | id in w'.appended && id !in w'.lost ensures Kept(w', id) { assert Kept(w, id); }
    if e.Lists? { ListsSeesAll(o, w, e.c, w'); }
    forall d | d in w'.calls ensures SeesAll(w', d) {
      if d != e.c { assert SeesAll(w, d); }
    }
  }

  lemma StepKeepsComplete(o: Options, w: World, e: Event, w': World)
    requires Normalized(o) && Invariant(w) && Complete(w) && Clean(w.entries) && Step(o, w, e, w')
    requires !Disturbed(w, e)
    ensures Complete(w')
  {
    if Appends(e) {
      RowKeepsComplete(o, w, e, w');
    } else {
      match e
      case Posts(id, content) => PostKeepsComplete(w, id, content, w');
      case Prunes(cutoff) => PruneKeepsComplete(w, cutoff);
      case _ => QueryKeepsComplete(o, w, e, w');
    }
  }

  lemma {:induction false} UndisturbedIsComplete(o: Options, run: Run, n: nat)
    requires Normalized(o) && IsRun(o, run) && n < |run.states| && Undisturbed(run, n)
    ensures Complete(run.states[n])
  {
    if n > 0 {
      UndisturbedBefore(run, n);
      UndisturbedIsComplete(o, run, n - 1);
      UnharmedIff(o, run, n - 1);
      RunInvariant(o, run, n - 1);
      StepAt(o, run, n);
      StepKeepsComplete(o, run.states[n - 1], run.events[n - 1], run.states[n]);
    } else {
      forall id | id in run.states[0].appended ensures Kept(run.states[0], id) { }
    }
  }

  lemma {:induction false} CleanOrder(entries: Entries, appended: set<int>, i: nat, j: nat)
    requires Clean(entries) && EntriesOk(entries, appended) && i < j < |entries|
    ensures entries[i].record.cursorAfter <= entries[j].record.cursorBefore
  {
    var n := |entries| - 1;
    OkPrefix(entries, n, appended);
    if j < n { CleanOrder(entries[..n], appended, i, j); } else { CleanClimbs(entries[..n], appended, i); }
  }

  /** In a run without such an append, however the calls overlap otherwise, the summaries
      start where the rows before them end, no message is in two of them, and every
      message is in one, still there, or was pruned before any covered it. */
  lemma UndisturbedSummariesCover(o: Options, run: Run, n: nat, entries: Entries)
    requires Normalized(o) && IsRun(o, run) && n < |run.states| && Undisturbed(run, n)
    requires entries == run.states[n].entries
    ensures Clean(entries) && Accounted(run.states[n])
    ensures forall i, j, k :: 0 <= i < j < |entries| && k in entries[i].ids ==> k !in entries[j].ids
  {
    UnharmedIff(o, run, n);
    RunInvariant(o, run, n);
    UndisturbedIsComplete(o, run, n);
    forall i, j, k | 0 <= i < j < |entries| && k in entries[i].ids ensures k !in entries[j].ids {
      CleanOrder(entries, run.states[n].appended, i, j);
      assert EntryOk(entries[i], run.states[n].appended) && EntryOk(entries[j], run.states[n].appended);
    }
  }

  // ------------------------------------------------------ calls one at a time

  predicate Live(w: World, c: nat) {
    At(w, c) != Ended
  }

  /** A call begins only when no other is at work. */
  ghost predicate OneAtATime(run: Run, n: nat)
    requires n <= |run.states| && n <= |run.events|
  {
    forall i :: 0 <= i < n ==> BeginsAlone(run.states[i], run.events[i])
  }

  ghost predicate BeginsAlone(w: World, e: Event) {
    e.Begins? ==> forall c :: !Live(w, c)
  }

  predicate OnlyOwnSince(entries: Entries, since: nat, c: nat) {
    forall j | since <= j < |entries| :: entries[j].call == c
  }

  /** The call at work, if any, has all the rows since it began. */
  ghost predicate Alone(w: World) {
    && (forall c, d :: Live(w, c) && Live(w, d) ==> c == d)
    && (forall c :: Live(w, c) ==> OnlyOwnSince(w.entries, w.calls[c].since, c))
  }

  lemma AloneIsUndisturbed(o: Options, w: World, e: Event)
    requires Normalized(o) && Invariant(w) && Alone(w) && Enabled(o, w, e)
    ensures !Disturbed(w, e)
  {
    if Appends(e) { assert Live(w, e.c); }
  }

  lemma CallKeepsAlone(o: Options, w: World, e: Event, w': World)
    requires Normalized(o) && Invariant(w) && Alone(w) && Step(o, w, e, w')
    requires !e.Posts? && !e.Prunes? && !e.Begins?
    ensures Alone(w')
  {
    assert Live(w, e.c) && OnlyOwnSince(w.entries, w.calls[e.c].since, e.c);
    forall d | Live(w', d) ensures d == e.c && OnlyOwnSince(w'.entries, w'.calls[d].since, d) {
      assert d == e.c || Live(w, d);
      if Appends(e) { var row := AppendingEvent(o, w, e); }
    }
  }

  lemma StepKeepsAlone(o: Options, w: World, e: Event, w': World)
    requires Normalized(o) && Invariant(w) && Alone(w) && Step(o, w, e, w') && BeginsAlone(w, e)
    ensures Alone(w')
  {
    if e.Posts? || e.Prunes? {
      assert w'.calls == w.calls && w'.entries == w.entries;
      forall c ensures Live(w', c) == Live(w, c) { }
    } else if e.Begins? {
      forall d | Live(w', d) ensures d == e.c { assert d == e.c || Live(w, d); }
    } else {
      CallKeepsAlone(o, w, e, w');
    }
  }

  lemma {:induction false} OneAtATimeIsAlone(o: Options, run: Run, n: nat)
    requires Normalized(o) && IsRun(o, run) && n < |run.states| && OneAtATime(run, n)
    ensures Alone(run.states[n])
  {
    if n > 0 {
      OneAtATimeIsAlone(o, run, n - 1);
      RunInvariant(o, run, n - 1);
      StepAt(o, run, n);
      assert BeginsAlone(run.states[n - 1], run.events[n - 1]);
      StepKeepsAlone(o, run.states[n - 1], run.events[n - 1], run.states[n]);
    }
  }

  /** Calls that do not overlap disturb none. */
  lemma OneAtATimeIsUndisturbed(o: Options, run: Run, n: nat)
    requires Normalized(o) && IsRun(o, run) && n < |run.states| && OneAtATime(run, n)
    ensures Undisturbed(run, n)
  {
    forall i | 0 <= i < n ensures !Disturbed(run.states[i], run.events[i]) {
      OneAtATimeIsAlone(o, run, i);
      RunInvariant(o, run, i);
      StepAt(o, run, i + 1);
      AloneIsUndisturbed(o, run.states[i], run.events[i]);
    }
  }

  function Records(entries: Entries): seq<Record> {
    seq(|entries|, i requires 0 <= i < |entries| => entries[i].record)
  }

  /** Where a call stands, as the loop of one call sees it. */
  function Position(w: World, c: nat): Progress
    requires c in w.calls
  {
    Progress(Records(w.entries), w.calls[c].cursor, w.calls[c].summary)
  }

  /** One iteration without a step of anything else in between. */
  function Iteration(o: Options, w: World, c: nat, outcome: Outcome): World
    requires Normalized(o) && Enabled(o, w, Tails(c))
  {
    var tailed := Apply(o, w, Tails(c));
    if Enabled(o, tailed, Lists(c)) then
      var listed := Apply(o, tailed, Lists(c));
      if Enabled(o, listed, Summarizes(c, outcome)) then Apply(o, listed, Summarizes(c, outcome)) else listed
    else tailed
  }

  predicate Iterates(o: Options, w: World, c: nat, outcome: Outcome, next: World)
    requires Normalized(o)
  {
    Enabled(o, w, Tails(c)) && next == Iteration(o, w, c, outcome)
  }

  /** The states of a whole call, from its beginning, without a step of anything else in
      between. */
  ghost predicate Uninterrupted(o: Options, c: nat, outcomes: nat -> Outcome, ws: seq<World>)
    requires Normalized(o)
  {
    && |ws| > 0 && At(ws[0], c).Ready? && ws[0].calls[c].iterations == 0
    && (forall k :: 0 <= k < |ws| - 1 ==> Iterates(o, ws[k], c, outcomes(k), ws[k + 1]))
    && !Enabled(o, ws[|ws| - 1], Tails(c))
  }

  lemma RecordsSnoc(entries: Entries, e: Entry)
    ensures Records(entries + [e]) == Records(entries) + [e.record]
  {
  }

  /** An uninterrupted iteration is one of the loop of a single call. */
  lemma UninterruptedIteration(o: Options, w: World, c: nat, outcome: Outcome, next: World, q: Progress, more: bool)
    requires Normalized(o) && Enabled(o, w, Tails(c)) && next == Iteration(o, w, c, outcome)
    requires (q, more) == Compression.Step(w.msgs, o, Position(w, c), outcome)
    ensures next.msgs == w.msgs && c in next.calls && Position(next, c) == q
    ensures if more then At(next, c).Ready? && next.calls[c].iterations == w.calls[c].iterations + 1
            else At(next, c) == Ended
  {
    var rest := After(w.msgs, w.calls[c].cursor);
    var run := RunOf(rest, o);
    if run != [] && outcome != NothingToSend {
      var listed := w.calls[c].(phase := Listed(KeepFrom(rest, o), run));
      RecordsSnoc(w.entries, NewRow(c, listed, outcome));
    }
  }

  lemma IterationOf(o: Options, c: nat, outcomes: nat -> Outcome, ws: seq<World>, k: nat, q: Progress, more: bool)
    requires Normalized(o) && Uninterrupted(o, c, outcomes, ws) && k < |ws| - 1 && c in ws[k].calls
    requires (q, more) == Compression.Step(ws[k].msgs, o, Position(ws[k], c), outcomes(k))
    ensures At(ws[k], c).Ready? && ws[k].calls[c].iterations < o.steps
    ensures ws[k + 1].msgs == ws[k].msgs && c in ws[k + 1].calls && Position(ws[k + 1], c) == q
    ensures if more then At(ws[k + 1], c).Ready? && ws[k + 1].calls[c].iterations == ws[k].calls[c].iterations + 1
            else At(ws[k + 1], c) == Ended
  {
    assert Iterates(o, ws[k], c, outcomes(k), ws[k + 1]);
    UninterruptedIteration(o, ws[k], c, outcomes(k), ws[k + 1], q, more);
  }

  lemma {:induction false} Counts(o: Options, c: nat, outcomes: nat -> Outcome, ws: seq<World>, k: nat)
    requires Normalized(o) && Uninterrupted(o, c, outcomes, ws) && k < |ws|
    ensures ws[k].msgs == ws[0].msgs && c in ws[k].calls
    ensures At(ws[k], c) == Ended || (At(ws[k], c).Ready? && ws[k].calls[c].iterations == k)
  {
    if k > 0 {
      Counts(o, c, outcomes, ws, k - 1);
      var step := Compression.Step(ws[k - 1].msgs, o, Position(ws[k - 1], c), outcomes(k - 1));
      IterationOf(o, c, outcomes, ws, k - 1, step.0, step.1);
    }
  }

  lemma {:induction false} StepsFrom(o: Options, c: nat, outcomes: nat -> Outcome, ws: seq<World>, k: nat, last: World)
    requires Normalized(o) && Uninterrupted(o, c, outcomes, ws) && k < |ws| && last == ws[|ws| - 1]
    requires c in ws[k].calls && At(ws[k], c).Ready? && ws[k].calls[c].iterations == k
    ensures c in last.calls
    ensures Position(last, c) == Steps(ws[k].msgs, o, Position(ws[k], c), outcomes, k)
    decreases |ws| - k
  {
    if k < |ws| - 1 {
      assert Iterates(o, ws[k], c, outcomes(k), ws[k + 1]);
      var q, more := OneStep(ws[k].msgs, o, Position(ws[k], c), outcomes, k);
      IterationOf(o, c, outcomes, ws, k, q, more);
      if more {
        StepsFrom(o, c, outcomes, ws, k + 1, last);
      } else if k + 1 < |ws| - 1 {
        StillAtWork(o, c, outcomes, ws, k + 1);
      }
    }
  }

  lemma StillAtWork(o: Options, c: nat, outcomes: nat -> Outcome, ws: seq<World>, k: nat)
    requires Normalized(o) && Uninterrupted(o, c, outcomes, ws) && k < |ws| - 1
    ensures At(ws[k], c) != Ended
  {
    assert Iterates(o, ws[k], c, outcomes(k), ws[k + 1]);
  }

  /** So an uninterrupted call ends where the loop of a single call ends. */
  lemma UninterruptedCall(o: Options, c: nat, outcomes: nat -> Outcome, ws: seq<World>, last: World)
    requires Normalized(o) && Uninterrupted(o, c, outcomes, ws) && last == ws[|ws| - 1]
    ensures last.msgs == ws[0].msgs && c in last.calls
    ensures Position(last, c) == Steps(ws[0].msgs, o, Position(ws[0], c), outcomes, 0)
    ensures At(last, c) == Ended || Enabled(o, last, Stops(c))
  {
    Counts(o, c, outcomes, ws, |ws| - 1);
    StepsFrom(o, c, outcomes, ws, 0, last);
  }

  lemma OneStep(msgs: seq<Message>, o: Options, p: Progress, outcomes: nat -> Outcome, i: nat)
    returns (q: Progress, more: bool)
    requires Normalized(o) && i < o.steps
    ensures (q, more) == Compression.Step(msgs, o, p, outcomes(i))
    ensures Steps(msgs, o, p, outcomes, i) == if more then Steps(msgs, o, q, outcomes, i + 1) else q
  {
    var step := Compression.Step(msgs, o, p, outcomes(i));
    q, more := step.0, step.1;
  }

  /** It begins where the latest row says. */
  lemma BeginsAtLatest(o: Options, w: World, c: nat)
    requires Normalized(o) && Enabled(o, w, Begins(c))
    ensures Position(Apply(o, w, Begins(c)), c) == Compression.Start(Records(w.entries))
  {
  }

  // --------------------------------------------------------- a failing run

  /** A kept window of one message, and two at most in a summary. */
  const SMALL := Options(1, 2, 2)

  const ONE := Message(1, "a")
  const TWO := Message(2, "b")
  const THREE := Message(3, "c")

  lemma AllAfter(msgs: seq<Message>)
    requires Ascending(msgs) && msgs != [] && msgs[0].id > 0
    ensures After(msgs, 0) == msgs
  {
    var k := AfterIsSuffix(msgs, 0);
    assert msgs[0].id > 0 && k == 0;
  }

  /** What the two queries of a call that starts at the beginning find. */
  lemma FirstQueries(msgs: seq<Message>)
    requires msgs == [ONE, TWO] || msgs == [ONE, TWO, THREE]
    ensures After(msgs, 0) == msgs && KeepFrom(msgs, SMALL) == msgs[|msgs| - 1].id
    ensures Before(FirstOf(msgs, 2), msgs[|msgs| - 1].id) == msgs[..|msgs| - 1]
  {
    AllAfter(msgs);
    RunIsPrefix(msgs, SMALL);
  }

  function Waiting(phase: Phase): Call {
    Call(0, 0, "", 0, phase)
  }

  /** While the slow call, 0, lists, and after a third message has come. */
  function Slow(phase: Phase): World {
    World.World([ONE, TWO], [], map[0 := Waiting(phase)], {1, 2}, {})
  }

  function Quick(phase: Phase): World {
    World.World([ONE, TWO, THREE], [], map[0 := Waiting(Listed(2, [ONE])), 1 := Waiting(phase)], {1, 2, 3}, {})
  }

  lemma SlowLists()
    ensures Step(SMALL, Slow(Ready), Tails(0), Slow(Tailed(2)))
    ensures Step(SMALL, Slow(Tailed(2)), Lists(0), Slow(Listed(2, [ONE])))
  {
    FirstQueries([ONE, TWO]);
    assert [ONE, TWO][..1] == [ONE];
  }

  lemma QuickLists()
    ensures Step(SMALL, Quick(Ready), Tails(1), Quick(Tailed(3)))
    ensures Step(SMALL, Quick(Tailed(3)), Lists(1), Quick(Listed(3, [ONE, TWO])))
  {
    FirstQueries([ONE, TWO, THREE]);
    assert [ONE, TWO, THREE][..2] == [ONE, TWO];
  }

  lemma QuickSummarizes(text: string, w: World, w': World)
    requires Trim(text) != "" && w == Quick(Listed(3, [ONE, TWO])) && w' == AfterSummarizes(w, 1, Text(text))
    ensures w'.entries == [Entry(1, Record(0, 2, 3, text, false), [1, 2])]
    ensures 0 in w'.calls && w'.calls[0] == Waiting(Listed(2, [ONE]))
  {
    assert Ids([ONE, TWO]) == [1, 2];
  }

  lemma SlowAppends(outcome: Outcome, w: World, w': World)
    requires outcome != NothingToSend && At(w, 0).Listed? && w.calls[0] == Waiting(Listed(2, [ONE]))
    requires w' == AfterSummarizes(w, 0, outcome)
    ensures |w'.entries| == |w.entries| + 1 && w'.entries[..|w.entries|] == w.entries
    ensures CursorOf(w'.entries) == if Fails(outcome) then 0 else 1
    ensures Fails(outcome) || w'.entries[|w.entries|].ids == [1]
  {
  }

  /** A tick's call reads the cursor 0 and lists message 1; a third message arrives; a
      chat request's call summarizes messages 1 and 2; then the slow one appends its row:
      the cursor moves back, and message 1 has been summarized twice unless the row is
      an error. */
  lemma OverlappingCallsGoWrong(text: string, outcome: Outcome) returns (run: Run)
    requires Trim(text) != "" && outcome != NothingToSend
    ensures IsRun(SMALL, run) && |run.states| == 10
    ensures CursorAt(run, 8) == 2 && CursorAt(run, 9) == if Fails(outcome) then 0 else 1
    ensures |run.states[9].entries| == 2 && 1 in run.states[9].entries[0].ids
    ensures Fails(outcome) || 1 in run.states[9].entries[1].ids
  {
    var quick := AfterSummarizes(Quick(Listed(3, [ONE, TWO])), 1, Text(text));
    var slow := AfterSummarizes(quick, 0, outcome);
    QuickSummarizes(text, Quick(Listed(3, [ONE, TWO])), quick);
    SlowAppends(outcome, quick, slow);
    run := Run(States(quick, slow), Events(text, outcome));
    forall i | 0 <= i < |run.events| ensures Step(SMALL, run.states[i], run.events[i], run.states[i + 1]) {
      if i < 4 {
        SlowPart(i, quick, slow, text, outcome);
      } else if i < 7 {
        QuickPart(i, quick, slow, text, outcome);
      } else {
        LastPart(i, quick, slow, text, outcome);
      }
    }
  }

  /** Two messages, and nothing at work on them yet. */
  function Fresh(): (w: World)
    ensures Start(w)
  {
    var w := World.World([ONE, TWO], [], map[], {1, 2}, {});
    assert ONE in w.msgs && TWO in w.msgs;
    w
  }

  /** The third message has come. */
  function Third(): World {
    World.World([ONE, TWO, THREE], [], map[0 := Waiting(Listed(2, [ONE]))], {1, 2, 3}, {})
  }

  function States(quick: World, slow: World): seq<World> {
    [Fresh(), Slow(Ready), Slow(Tailed(2)), Slow(Listed(2, [ONE])), Third(),
     Quick(Ready), Quick(Tailed(3)), Quick(Listed(3, [ONE, TWO])), quick, slow]
  }

  function Events(text: string, outcome: Outcome): seq<Event> {
    [Begins(0), Tails(0), Lists(0), Posts(3, "c"), Begins(1), Tails(1), Lists(1),
     Summarizes(1, Text(text)), Summarizes(0, outcome)]
  }

  lemma SlowPart(i: nat, quick: World, slow: World, text: string, outcome: Outcome)
    requires i < 4
    ensures Step(SMALL, States(quick, slow)[i], Events(text, outcome)[i], States(quick, slow)[i + 1])
  {
    SlowLists();
    assert i == 0 || i == 1 || i == 2 || i == 3;
  }

  lemma QuickPart(i: nat, quick: World, slow: World, text: string, outcome: Outcome)
    requires 4 <= i < 7
    ensures Step(SMALL, States(quick, slow)[i], Events(text, outcome)[i], States(quick, slow)[i + 1])
  {
    QuickLists();
    assert i == 4 || i == 5 || i == 6;
  }

  lemma LastPart(i: nat, quick: World, slow: World, text: string, outcome: Outcome)
    requires i == 7 || i == 8
    requires quick == AfterSummarizes(Quick(Listed(3, [ONE, TWO])), 1, Text(text))
    requires At(quick, 0) == Listed(2, [ONE]) && slow == AfterSummarizes(quick, 0, outcome)
    ensures Step(SMALL, States(quick, slow)[i], Events(text, outcome)[i], States(quick, slow)[i + 1])
  {
  }
}
