/** Backfilling conversation ids and moving session-keyed state to conversation keys
    (internal/tasks/conversation_id.go, acceptance.go, session_meta.go,
    session_workspaces.go). */
module ConversationIds {
  import opened Wrappers
  import opened Text

  datatype Task = Task(session: string, conversation: string, createdAt: int)

  datatype Meta = Meta(title: string, deletedAt: Option<int>, updatedAt: int)

  datatype Workspace = Workspace(runRoot: string, updatedAt: int)

  datatype Acceptance = Acceptance(
    status: string, iteration: int, maxIterations: int, gate: string, summary: string,
    plan: string, report: string, runId: string, updatedAt: int)

  type Tasks = map<string, Task>
  type Table<V> = map<string, V>

  function SessionKey(taskId: string, session: string): string {
    if session != "" then "s:" + session else "t:" + taskId
  }

  /** Empty for an empty id. */
  function ConversationKey(conversation: string): string {
    if conversation == "" then "" else "c:" + conversation
  }

  // ------------------------------------------------------- moving one key

  function FirstNonBlank(a: string, b: string): string {
    if Trim(a) == "" && Trim(b) != "" then b else a
  }

  function MergeMeta(from: Meta, to: Meta, now: int): Meta {
    var takesTitle := Trim(to.title) == "" && Trim(from.title) != "";
    var takesDeletion := to.deletedAt.None? && from.deletedAt.Some?;
    Meta(if takesTitle then Trim(from.title) else to.title,
         if takesDeletion then from.deletedAt else to.deletedAt,
         if takesTitle || takesDeletion then now else to.updatedAt)
  }

  function Max(a: int, b: int): int {
    if a < b then b else a
  }

  /** The row updated last wins, gaps are filled from the other, counters take the maximum. */
  function MergeAcceptance(from: Acceptance, to: Acceptance, now: int): Acceptance {
    var merged := if from.updatedAt > to.updatedAt then from else to;
    var other := if merged == from then to else from;
    Acceptance(
      Trim(FirstNonBlank(merged.status, other.status)),
      Max(merged.iteration, other.iteration),
      Max(merged.maxIterations, other.maxIterations),
      Trim(FirstNonBlank(merged.gate, other.gate)),
      Trim(FirstNonBlank(merged.summary, other.summary)),
      Trim(FirstNonBlank(merged.plan, other.plan)),
      Trim(FirstNonBlank(merged.report, other.report)),
      Trim(FirstNonBlank(merged.runId, other.runId)),
      now)
  }

  datatype Move = Move(from: string, to: string)

  predicate Applies<V>(table: Table<V>, mv: Move) {
    mv.from != "" && mv.to != "" && mv.from != mv.to && mv.from in table
  }

  function MoveMeta(table: Table<Meta>, mv: Move, now: int): Table<Meta> {
    if !Applies(table, mv) then table
    else if mv.to !in table then (table - {mv.from})[mv.to := table[mv.from].(updatedAt := now)]
    else (table - {mv.from})[mv.to := MergeMeta(table[mv.from], table[mv.to], now)]
  }

  function MoveWorkspace(table: Table<Workspace>, mv: Move, now: int): Table<Workspace> {
    if !Applies(table, mv) then table
    else if mv.to !in table then (table - {mv.from})[mv.to := table[mv.from].(updatedAt := now)]
    else table - {mv.from}
  }

  function MoveAcceptance(table: Table<Acceptance>, mv: Move, now: int): Table<Acceptance> {
    if !Applies(table, mv) then table
    else if mv.to !in table then (table - {mv.from})[mv.to := table[mv.from].(updatedAt := now)]
    else (table - {mv.from})[mv.to := MergeAcceptance(table[mv.from], table[mv.to], now)]
  }

  datatype TextField = Status | Gate | Summary | Plan | Report | RunId

  function TextOf(a: Acceptance, f: TextField): string {
    match f
    case Status => a.status
    case Gate => a.gate
    case Summary => a.summary
    case Plan => a.plan
    case Report => a.report
    case RunId => a.runId
  }

  /** Merging acceptance rows keeps the larger counts, and of each text that of the row
      updated last, unless it is blank. */
  lemma MergeLosesNothing(a: Acceptance, b: Acceptance, now: int, f: TextField)
    ensures var m := MergeAcceptance(a, b, now);
      && m.iteration >= a.iteration && m.iteration >= b.iteration && m.iteration in {a.iteration, b.iteration}
      && m.maxIterations >= a.maxIterations && m.maxIterations >= b.maxIterations
      && m.maxIterations in {a.maxIterations, b.maxIterations} && m.updatedAt == now
    ensures var (last, first) := if a.updatedAt > b.updatedAt then (a, b) else (b, a);
      TextOf(MergeAcceptance(a, b, now), f)
      == if Trim(TextOf(last, f)) != "" then Trim(TextOf(last, f)) else Trim(TextOf(first, f))
  {
  }

  /** Merging meta rows into `y` loses no deletion and no title, and changes its time only
      if it changes something else. */
  lemma MergeKeepsMeta(x: Meta, y: Meta, now: int)
    ensures var m := MergeMeta(x, y, now);
      && m.deletedAt == (if y.deletedAt.Some? then y.deletedAt else x.deletedAt)
      && (Trim(y.title) != "" || Trim(x.title) == "" ==> m.title == y.title)
      && (Trim(y.title) == "" && Trim(x.title) != "" ==> m.title == Trim(x.title))
      && m.updatedAt == if m.title == y.title && m.deletedAt == y.deletedAt then y.updatedAt else now
  {
    TrimIsTrimmed(x.title);
    TrimIsTrimmed(Trim(x.title));
    TrimIsTrimmed(y.title);
  }

  // -------------------------------------------------------- moving many keys

  function MoveAllMeta(table: Table<Meta>, moves: seq<Move>, now: int): Table<Meta> {
    if moves == [] then table else MoveMeta(MoveAllMeta(table, moves[..|moves| - 1], now), moves[|moves| - 1], now)
  }

  function MoveAllWorkspaces(table: Table<Workspace>, moves: seq<Move>, now: int): Table<Workspace> {
    if moves == [] then table
    else MoveWorkspace(MoveAllWorkspaces(table, moves[..|moves| - 1], now), moves[|moves| - 1], now)
  }

  function MoveAllAcceptance(table: Table<Acceptance>, moves: seq<Move>, now: int): Table<Acceptance> {
    if moves == [] then table
    else MoveAcceptance(MoveAllAcceptance(table, moves[..|moves| - 1], now), moves[|moves| - 1], now)
  }

  /** Keys are moved away from session and task keys onto conversation keys, each
      always to the same place. */
  predicate WellDirected(moves: seq<Move>, target: map<string, string>) {
    && (forall i :: 0 <= i < |moves| ==> moves[i].from in target && target[moves[i].from] == moves[i].to)
    && (forall k | k in target :: k != "" && k[0] != 'c' && target[k] != "" && target[k][0] == 'c')
  }

  ghost predicate MovedFrom(moves: seq<Move>, k: string) {
    exists i :: 0 <= i < |moves| && moves[i].from == k
  }

  /** The keys whose rows end up at `to`. */
  ghost predicate Feeds(moves: seq<Move>, target: map<string, string>, k: string, to: string) {
    k == to || (MovedFrom(moves, k) && k in target && target[k] == to)
  }

  lemma MovedFromGrows(moves: seq<Move>, mv: Move, k: string)
    ensures MovedFrom(moves + [mv], k) <==> MovedFrom(moves, k) || k == mv.from
  {
    if MovedFrom(moves, k) {
      var i :| 0 <= i < |moves| && moves[i].from == k;
      assert (moves + [mv])[i].from == k;
    }
    if k == mv.from { assert (moves + [mv])[|moves|].from == k; }
  }

  /** Which rows exist afterwards: none at a key moved from, one at a target exactly
      when some row fed it, all others untouched. */
  ghost predicate Relocated<V>(before: Table<V>, after: Table<V>, moves: seq<Move>, target: map<string, string>) {
    && (forall k :: MovedFrom(moves, k) ==> k !in after)
    && (forall c :: c != "" && c[0] == 'c' ==> (c in after <==> exists k :: k in before && Feeds(moves, target, k, c)))
    && (forall k :: !MovedFrom(moves, k) && (k == "" || k[0] != 'c') ==>
         (k in after <==> k in before) && (k in before ==> after[k] == before[k]))
  }

  predicate DeletedAt(table: Table<Meta>, k: string) {
    k in table && table[k].deletedAt.Some?
  }

  /** `after` differs from `table` by one move, whatever becomes of the moved row. */
  predicate Moved<V>(table: Table<V>, after: Table<V>, mv: Move) {
    && after.Keys == (if mv.from in table then table.Keys - {mv.from} + {mv.to} else table.Keys)
    && (forall k | k in table :: k != mv.from && k != mv.to ==> k in after)
  }

  lemma FeedsGrows(moves: seq<Move>, mv: Move, target: map<string, string>, k: string, c: string)
    requires WellDirected(moves + [mv], target)
    ensures Feeds(moves + [mv], target, k, c) <==> Feeds(moves, target, k, c) || (k == mv.from && c == mv.to)
  {
    assert (moves + [mv])[|moves|] == mv;
    MovedFromGrows(moves, mv, k);
  }

  /** A row not moved from yet is still what it was. */
  lemma StillThere<V>(before: Table<V>, table: Table<V>, moves: seq<Move>, mv: Move, target: map<string, string>)
    requires WellDirected(moves + [mv], target) && Relocated(before, table, moves, target) && mv.from in table
    ensures !MovedFrom(moves, mv.from) && mv.from in before && table[mv.from] == before[mv.from]
  {
    assert (moves + [mv])[|moves|] == mv;
  }

  lemma OneMoveTarget<V>(before: Table<V>, table: Table<V>, after: Table<V>, moves: seq<Move>, mv: Move,
                         target: map<string, string>, c: string)
    requires WellDirected(moves + [mv], target) && Relocated(before, table, moves, target) && Moved(table, after, mv)
    requires c != "" && c[0] == 'c'
    ensures c in after <==> exists k :: k in before && Feeds(moves + [mv], target, k, c)
  {
    assert (moves + [mv])[|moves|] == mv;
    assert c in after <==> c in table || (c == mv.to && mv.from in table);
    if mv.from in table { StillThere(before, table, moves, mv, target); }
    if c in table {
      var k :| k in before && Feeds(moves, target, k, c);
      FeedsGrows(moves, mv, target, k, c);
    } else if c == mv.to && mv.from in table {
      FeedsGrows(moves, mv, target, mv.from, c);
    }
    if k :| k in before && Feeds(moves + [mv], target, k, c) {
      FeedsGrows(moves, mv, target, k, c);
    }
  }

  lemma OneMoveSource<V>(before: Table<V>, table: Table<V>, after: Table<V>, moves: seq<Move>, mv: Move,
                         target: map<string, string>, k: string)
    requires WellDirected(moves + [mv], target) && Relocated(before, table, moves, target) && Moved(table, after, mv)
    requires forall j :: j in table && j != mv.from && j != mv.to ==> after[j] == table[j]
    ensures MovedFrom(moves + [mv], k) ==> k !in after
    ensures !MovedFrom(moves + [mv], k) && (k == "" || k[0] != 'c') ==>
      (k in after <==> k in before) && (k in before ==> after[k] == before[k])
  {
    assert (moves + [mv])[|moves|] == mv;
    MovedFromGrows(moves, mv, k);
    if MovedFrom(moves, k) { MovedIsNotTarget(moves, mv, target, k); }
  }

  lemma MovedIsNotTarget(moves: seq<Move>, mv: Move, target: map<string, string>, k: string)
    requires WellDirected(moves + [mv], target) && MovedFrom(moves, k)
    ensures k != mv.to
  {
    var i :| 0 <= i < |moves| && moves[i].from == k;
    assert (moves + [mv])[i] == moves[i] && (moves + [mv])[|moves|] == mv;
  }

  lemma OneMove<V>(before: Table<V>, table: Table<V>, after: Table<V>, moves: seq<Move>, mv: Move,
                   target: map<string, string>)
    requires WellDirected(moves + [mv], target) && Relocated(before, table, moves, target) && Moved(table, after, mv)
    requires forall k :: k in table && k != mv.from && k != mv.to ==> after[k] == table[k]
    ensures Relocated(before, after, moves + [mv], target)
  {
    forall k
      ensures MovedFrom(moves + [mv], k) ==> k !in after
      ensures !MovedFrom(moves + [mv], k) && (k == "" || k[0] != 'c') ==>
        (k in after <==> k in before) && (k in before ==> after[k] == before[k])
    {
      OneMoveSource(before, table, after, moves, mv, target, k);
    }
    forall c | c != "" && c[0] == 'c'
      ensures c in after <==> exists k :: k in before && Feeds(moves + [mv], target, k, c)
    {
      OneMoveTarget(before, table, after, moves, mv, target, c);
    }
  }

  lemma NothingMoved<V>(table: Table<V>, moves: seq<Move>, target: map<string, string>)
    requires moves == []
    ensures Relocated(table, table, moves, target)
  {
    forall c | c in table ensures Feeds(moves, target, c, c) { }
  }

  lemma Front(moves: seq<Move>, target: map<string, string>) returns (early: seq<Move>, mv: Move)
    requires moves != [] && WellDirected(moves, target)
    ensures early == moves[..|moves| - 1] && mv == moves[|moves| - 1] && early + [mv] == moves
    ensures WellDirected(early, target) && mv.from in target && target[mv.from] == mv.to
  {
    early, mv := moves[..|moves| - 1], moves[|moves| - 1];
  }

  lemma {:induction false} MetaRelocated(table: Table<Meta>, moves: seq<Move>, target: map<string, string>, now: int)
    requires WellDirected(moves, target)
    ensures Relocated(table, MoveAllMeta(table, moves, now), moves, target)
  {
    if moves == [] {
      NothingMoved(table, moves, target);
    } else {
      var early, mv := Front(moves, target);
      MetaRelocated(table, early, target, now);
      OneMove(table, MoveAllMeta(table, early, now), MoveAllMeta(table, moves, now), early, mv, target);
    }
  }

  lemma {:induction false} WorkspacesRelocated(table: Table<Workspace>, moves: seq<Move>, target: map<string, string>,
                                               now: int)
    requires WellDirected(moves, target)
    ensures Relocated(table, MoveAllWorkspaces(table, moves, now), moves, target)
  {
    if moves == [] {
      NothingMoved(table, moves, target);
    } else {
      var early, mv := Front(moves, target);
      WorkspacesRelocated(table, early, target, now);
      OneMove(table, MoveAllWorkspaces(table, early, now), MoveAllWorkspaces(table, moves, now), early, mv, target);
    }
  }

  lemma {:induction false} AcceptanceRelocated(table: Table<Acceptance>, moves: seq<Move>,
                                               target: map<string, string>, now: int)
    requires WellDirected(moves, target)
    ensures Relocated(table, MoveAllAcceptance(table, moves, now), moves, target)
  {
    if moves == [] {
      NothingMoved(table, moves, target);
    } else {
      var early, mv := Front(moves, target);
      AcceptanceRelocated(table, early, target, now);
      OneMove(table, MoveAllAcceptance(table, early, now), MoveAllAcceptance(table, moves, now), early, mv, target);
    }
  }

  /** Some row that fed `c` was deleted. */
  ghost predicate SomeDeleted(table: Table<Meta>, moves: seq<Move>, target: map<string, string>, c: string) {
    exists k :: DeletedAt(table, k) && Feeds(moves, target, k, c)
  }

  lemma SomeDeletedGrows(table: Table<Meta>, moves: seq<Move>, mv: Move, target: map<string, string>, c: string)
    requires WellDirected(moves + [mv], target)
    ensures SomeDeleted(table, moves + [mv], target, c)
      <==> SomeDeleted(table, moves, target, c) || (c == mv.to && DeletedAt(table, mv.from))
  {
    if SomeDeleted(table, moves, target, c) {
      var k :| DeletedAt(table, k) && Feeds(moves, target, k, c);
      FeedsGrows(moves, mv, target, k, c);
    }
    if SomeDeleted(table, moves + [mv], target, c) {
      var k :| DeletedAt(table, k) && Feeds(moves + [mv], target, k, c);
      FeedsGrows(moves, mv, target, k, c);
    }
    FeedsGrows(moves, mv, target, mv.from, c);
  }

  lemma MoveKeepsDeletion(table: Table<Meta>, mv: Move, now: int, c: string)
    requires mv.from != c && mv.from != "" && mv.to != "" && mv.from != mv.to
    ensures DeletedAt(MoveMeta(table, mv, now), c) <==> DeletedAt(table, c) || (mv.to == c && DeletedAt(table, mv.from))
  {
  }

  /** Deletions survive: a conversation is deleted afterwards exactly when it was
      before, or one of the sessions or tasks moved into it was. */
  lemma {:induction false} DeletionsSurvive(table: Table<Meta>, moves: seq<Move>, target: map<string, string>,
                                            now: int, c: string)
    requires WellDirected(moves, target) && c != "" && c[0] == 'c'
    ensures DeletedAt(MoveAllMeta(table, moves, now), c) <==> SomeDeleted(table, moves, target, c)
  {
    if moves == [] {
      assert Feeds(moves, target, c, c);
    } else {
      var n := |moves| - 1;
      var early, mv := moves[..n], moves[n];
      var mid := MoveAllMeta(table, early, now);
      assert early + [mv] == moves;
      DeletionsSurvive(table, early, target, now, c);
      MetaRelocated(table, early, target, now);
      MoveKeepsDeletion(mid, mv, now, c);
      SomeDeletedGrows(table, early, mv, target, c);
      if mv.from in mid {
        StillThere(table, mid, early, mv, target);
      } else if c == mv.to && DeletedAt(table, mv.from) {
        assert MovedFrom(early, mv.from);
        assert Feeds(early, target, mv.from, c);
      }
    }
  }

  datatype Counter = Iteration | MaxIterations

  function CountOf(a: Acceptance, counter: Counter): int {
    if counter == Iteration then a.iteration else a.maxIterations
  }

  /** Row `c`'s count is the maximum over the rows that feed it, and there is a row exactly
      when there is one that does. */
  ghost predicate IsMaximum(table: Table<Acceptance>, after: Table<Acceptance>, moves: seq<Move>,
                            target: map<string, string>, c: string, counter: Counter) {
    && (forall k :: k in table && Feeds(moves, target, k, c) ==>
         c in after && CountOf(table[k], counter) <= CountOf(after[c], counter))
    && (c in after ==> exists k :: FeedsWith(table, moves, target, k, c, counter, CountOf(after[c], counter)))
  }

  ghost predicate FeedsWith(table: Table<Acceptance>, moves: seq<Move>, target: map<string, string>, k: string,
                            c: string, counter: Counter, count: int) {
    k in table && Feeds(moves, target, k, c) && CountOf(table[k], counter) == count
  }

  /** What one move does to the counts at `c`. */
  lemma MoveCount(mid: Table<Acceptance>, mv: Move, now: int, c: string, counter: Counter)
    requires mv.from != "" && mv.to != "" && mv.from != mv.to && mv.from != c
    ensures var after := MoveAcceptance(mid, mv, now);
      if mv.to == c && mv.from in mid then
        c in after && CountOf(after[c], counter) ==
          if c in mid then Max(CountOf(mid[mv.from], counter), CountOf(mid[c], counter))
          else CountOf(mid[mv.from], counter)
      else (c in after <==> c in mid) && (c in mid ==> after[c] == mid[c])
  {
  }

  lemma MaximumStep(table: Table<Acceptance>, early: seq<Move>, mv: Move, mid: Table<Acceptance>,
                    target: map<string, string>, now: int, c: string, counter: Counter)
    requires WellDirected(early + [mv], target) && c != "" && c[0] == 'c'
    requires IsMaximum(table, mid, early, target, c, counter) && Relocated(table, mid, early, target)
    ensures IsMaximum(table, MoveAcceptance(mid, mv, now), early + [mv], target, c, counter)
  {
    var after := MoveAcceptance(mid, mv, now);
    assert (early + [mv])[|early|] == mv;
    MoveCount(mid, mv, now, c, counter);
    if mv.from in mid { StillThere(table, mid, early, mv, target); }
    forall k | k in table && Feeds(early + [mv], target, k, c)
      ensures c in after && CountOf(table[k], counter) <= CountOf(after[c], counter)
    {
      FeedsGrows(early, mv, target, k, c);
      if k == mv.from && mv.from !in mid { assert MovedFrom(early, k) && Feeds(early, target, k, c); }
    }
    if c in mid {
      var k :| FeedsWith(table, early, target, k, c, counter, CountOf(mid[c], counter));
      FeedsGrows(early, mv, target, k, c);
      assert CountOf(after[c], counter) == CountOf(mid[c], counter) ==>
        FeedsWith(table, early + [mv], target, k, c, counter, CountOf(after[c], counter));
    }
    if mv.to == c && mv.from in mid {
      FeedsGrows(early, mv, target, mv.from, c);
      assert CountOf(after[c], counter) == CountOf(mid[mv.from], counter) ==>
        FeedsWith(table, early + [mv], target, mv.from, c, counter, CountOf(after[c], counter));
    }
  }

  /** Both counts afterwards are the maximum over all rows that fed the conversation. */
  lemma {:induction false} IterationIsMaximum(table: Table<Acceptance>, moves: seq<Move>, target: map<string, string>,
                                              now: int, c: string, counter: Counter)
    requires WellDirected(moves, target) && c != "" && c[0] == 'c'
    ensures IsMaximum(table, MoveAllAcceptance(table, moves, now), moves, target, c, counter)
  {
    if moves == [] {
      assert Feeds(moves, target, c, c);
      assert c in table ==> FeedsWith(table, moves, target, c, c, counter, CountOf(table[c], counter));
    } else {
      var n := |moves| - 1;
      var mid := MoveAllAcceptance(table, moves[..n], now);
      assert moves[..n] + [moves[n]] == moves;
      IterationIsMaximum(table, moves[..n], target, now, c, counter);
      AcceptanceRelocated(table, moves[..n], target, now);
      MaximumStep(table, moves[..n], moves[n], mid, target, now, c, counter);
    }
  }

  // --------------------------------------------- what the rows say afterwards

  /** A row that ends up at `c`. */
  ghost predicate FeedsRow<V>(table: Table<V>, moves: seq<Move>, target: map<string, string>, k: string, c: string) {
    k in table && Feeds(moves, target, k, c)
  }

  /** The text at `c` is that of a row that fed it, and blank only if all of these are. */
  ghost predicate TextArrives<V>(table: Table<V>, after: Table<V>, moves: seq<Move>, target: map<string, string>,
                                 c: string, text: V -> string) {
    c in after ==>
      && (exists k :: FeedsRow(table, moves, target, k, c) && text(table[k]) == text(after[c]))
      && (text(after[c]) == "" ==> forall k :: FeedsRow(table, moves, target, k, c) ==> text(table[k]) == "")
  }

  /** What one move does to the text at `c`. */
  ghost predicate TextMoves<V>(mid: Table<V>, after: Table<V>, mv: Move, c: string, text: V -> string) {
    if mv.to == c && mv.from in mid then
      && c in after
      && (if c !in mid then text(after[c]) == text(mid[mv.from])
          else (text(after[c]) == text(mid[mv.from]) || text(after[c]) == text(mid[c]))
               && (text(after[c]) == "" ==> text(mid[mv.from]) == text(mid[c]) == ""))
    else (c in after <==> c in mid) && (c in mid ==> after[c] == mid[c])
  }

  lemma FeedsRowGrows<V>(table: Table<V>, mid: Table<V>, early: seq<Move>, mv: Move, target: map<string, string>,
                         k: string, c: string)
    requires WellDirected(early + [mv], target) && Relocated(table, mid, early, target) && c != "" && c[0] == 'c'
    ensures FeedsRow(table, early + [mv], target, k, c)
       <==> FeedsRow(table, early, target, k, c) || (k == mv.from && c == mv.to && mv.from in mid)
    ensures k == mv.from && mv.from in mid ==> k in table && mid[k] == table[k]
  {
    assert (early + [mv])[|early|] == mv;
    FeedsGrows(early, mv, target, k, c);
    if mv.from in mid { StillThere(table, mid, early, mv, target); }
    if k == mv.from && c == mv.to && k in table && k !in mid {
      assert MovedFrom(early, k) && Feeds(early, target, k, c);
    }
  }

  lemma TextStep<V>(table: Table<V>, mid: Table<V>, after: Table<V>, early: seq<Move>, mv: Move,
                    target: map<string, string>, c: string, text: V -> string)
    requires WellDirected(early + [mv], target) && Relocated(table, mid, early, target) && c != "" && c[0] == 'c'
    requires TextArrives(table, mid, early, target, c, text) && TextMoves(mid, after, mv, c, text)
    ensures TextArrives(table, after, early + [mv], target, c, text)
  {
    forall k
      ensures FeedsRow(table, early + [mv], target, k, c)
         <==> FeedsRow(table, early, target, k, c) || (k == mv.from && c == mv.to && mv.from in mid)
      ensures k == mv.from && mv.from in mid ==> k in table && mid[k] == table[k]
    {
      FeedsRowGrows(table, mid, early, mv, target, k, c);
    }
    if c in after && c in mid {
      var k :| FeedsRow(table, early, target, k, c) && text(table[k]) == text(mid[c]);
      assert FeedsRow(table, early + [mv], target, k, c);
    }
  }

  lemma NothingMovedText<V>(table: Table<V>, moves: seq<Move>, target: map<string, string>, c: string,
                            text: V -> string)
    requires moves == []
    ensures TextArrives(table, table, moves, target, c, text)
  {
    if c in table { assert FeedsRow(table, moves, target, c, c); }
  }

  /** The title that arrives, white space aside. */
  function TrimmedTitle(): Meta -> string {
    (m: Meta) => Trim(m.title)
  }

  function TrimmedText(f: TextField): Acceptance -> string {
    (a: Acceptance) => Trim(TextOf(a, f))
  }

  lemma MoveTitle(mid: Table<Meta>, mv: Move, now: int, c: string)
    requires mv.from != "" && mv.to != "" && mv.from != mv.to && mv.from != c
    ensures TextMoves(mid, MoveMeta(mid, mv, now), mv, c, TrimmedTitle())
    ensures c in mid && Trim(mid[c].title) != "" ==> MoveMeta(mid, mv, now)[c].title == mid[c].title
  {
    if mv.to == c && mv.from in mid && c in mid {
      MergeKeepsMeta(mid[mv.from], mid[c], now);
      TrimIsTrimmed(Trim(mid[mv.from].title));
      TrimIsTrimmed(mid[mv.from].title);
    }
  }

  /** A title at the conversation stays unless it is blank; otherwise it comes from a row
      that was moved there, if any has one. */
  lemma {:induction false} TitleArrives(table: Table<Meta>, moves: seq<Move>, target: map<string, string>, now: int,
                                        c: string)
    requires WellDirected(moves, target) && c != "" && c[0] == 'c'
    ensures TextArrives(table, MoveAllMeta(table, moves, now), moves, target, c, TrimmedTitle())
    ensures c in table && Trim(table[c].title) != "" ==>
      c in MoveAllMeta(table, moves, now) && MoveAllMeta(table, moves, now)[c].title == table[c].title
  {
    if moves == [] {
      NothingMovedText(table, moves, target, c, TrimmedTitle());
    } else {
      var early, mv := Front(moves, target);
      var mid := MoveAllMeta(table, early, now);
      TitleArrives(table, early, target, now, c);
      MetaRelocated(table, early, target, now);
      MoveTitle(mid, mv, now, c);
      TextStep(table, mid, MoveAllMeta(table, moves, now), early, mv, target, c, TrimmedTitle());
    }
  }

  lemma MoveText(mid: Table<Acceptance>, mv: Move, now: int, c: string, f: TextField)
    requires mv.from != "" && mv.to != "" && mv.from != mv.to && mv.from != c
    ensures TextMoves(mid, MoveAcceptance(mid, mv, now), mv, c, TrimmedText(f))
  {
    if mv.to == c && mv.from in mid && c in mid {
      MergeLosesNothing(mid[mv.from], mid[c], now, f);
      TrimIsTrimmed(TextOf(mid[mv.from], f));
      TrimIsTrimmed(TextOf(mid[c], f));
      TrimIsTrimmed(Trim(TextOf(mid[mv.from], f)));
      TrimIsTrimmed(Trim(TextOf(mid[c], f)));
    }
  }

  /** Every text of the acceptance row comes from a row that fed the conversation, and is
      blank only if it is in all of them. */
  lemma {:induction false} TextsArrive(table: Table<Acceptance>, moves: seq<Move>, target: map<string, string>,
                                       now: int, c: string, f: TextField)
    requires WellDirected(moves, target) && c != "" && c[0] == 'c'
    ensures TextArrives(table, MoveAllAcceptance(table, moves, now), moves, target, c, TrimmedText(f))
  {
    if moves == [] {
      NothingMovedText(table, moves, target, c, TrimmedText(f));
    } else {
      var early, mv := Front(moves, target);
      var mid := MoveAllAcceptance(table, early, now);
      TextsArrive(table, early, target, now, c, f);
      AcceptanceRelocated(table, early, target, now);
      MoveText(mid, mv, now, c, f);
      TextStep(table, mid, MoveAllAcceptance(table, moves, now), early, mv, target, c, TrimmedText(f));
    }
  }

  /** Some move brings a row to `c`. */
  ghost predicate Brings(table: Table<Workspace>, moves: seq<Move>, c: string) {
    exists i :: 0 <= i < |moves| && moves[i].to == c && moves[i].from in table
  }

  /** The first move that brings a row to `c` brings that of `k`. */
  ghost predicate BringsFirst(table: Table<Workspace>, moves: seq<Move>, c: string, k: string) {
    exists i :: 0 <= i < |moves| && moves[i] == Move(k, c) && k in table && !Brings(table, moves[..i], c)
  }

  lemma BringsGrows(table: Table<Workspace>, moves: seq<Move>, mv: Move, c: string)
    ensures Brings(table, moves + [mv], c) <==> Brings(table, moves, c) || (mv.to == c && mv.from in table)
  {
    var all := moves + [mv];
    if Brings(table, moves, c) {
      var i :| 0 <= i < |moves| && moves[i].to == c && moves[i].from in table;
      assert all[i] == moves[i];
    }
    assert all[|moves|] == mv;
  }

  lemma BringsFirstGrows(table: Table<Workspace>, moves: seq<Move>, mv: Move, c: string, k: string)
    requires BringsFirst(table, moves, c, k) || (!Brings(table, moves, c) && mv == Move(k, c) && k in table)
    ensures BringsFirst(table, moves + [mv], c, k)
  {
    var all := moves + [mv];
    if BringsFirst(table, moves, c, k) {
      var i :| 0 <= i < |moves| && moves[i] == Move(k, c) && k in table && !Brings(table, moves[..i], c);
      assert all[i] == moves[i] && all[..i] == moves[..i];
    } else {
      assert all[|moves|] == mv && all[..|moves|] == moves;
    }
  }

  /** A workspace at the conversation stays as it is; otherwise the row moved there first
      arrives, with its run root. */
  ghost predicate WorkspaceArrives(table: Table<Workspace>, after: Table<Workspace>, moves: seq<Move>, now: int,
                                   c: string) {
    if c in table then c in after && after[c] == table[c]
    else if c in after then
      exists k :: BringsFirst(table, moves, c, k) && k in table && after[c] == Workspace(table[k].runRoot, now)
    else !Brings(table, moves, c)
  }

  /** What one move does to the workspace at `c`. */
  predicate WorkspaceMoves(mid: Table<Workspace>, after: Table<Workspace>, mv: Move, now: int, c: string) {
    if mv.to == c && mv.from in mid && c !in mid then c in after && after[c] == Workspace(mid[mv.from].runRoot, now)
    else (c in after <==> c in mid) && (c in mid ==> after[c] == mid[c])
  }

  lemma WorkspaceStep(table: Table<Workspace>, mid: Table<Workspace>, after: Table<Workspace>, early: seq<Move>,
                      mv: Move, now: int, c: string)
    requires WorkspaceArrives(table, mid, early, now, c) && WorkspaceMoves(mid, after, mv, now, c)
    requires mv.from in mid ==> mv.from in table && mid[mv.from] == table[mv.from]
    requires mv.to == c && mv.from in table && mv.from !in mid ==> Brings(table, early, c)
    ensures WorkspaceArrives(table, after, early + [mv], now, c)
  {
    BringsGrows(table, early, mv, c);
    if c !in table && c in mid {
      var k :| BringsFirst(table, early, c, k) && k in table && mid[c] == Workspace(table[k].runRoot, now);
      BringsFirstGrows(table, early, mv, c, k);
    } else if c !in table && mv.to == c && mv.from in mid {
      BringsFirstGrows(table, early, mv, c, mv.from);
    }
  }

  lemma MoveWorkspaceAt(mid: Table<Workspace>, mv: Move, now: int, c: string)
    requires mv.from != "" && mv.to != "" && mv.from != mv.to && mv.from != c
    ensures WorkspaceMoves(mid, MoveWorkspace(mid, mv, now), mv, now, c)
  {
  }

  /** A row that is no longer at its key has been moved to its target. */
  lemma MovedThere(table: Table<Workspace>, mid: Table<Workspace>, early: seq<Move>, mv: Move,
                   target: map<string, string>, c: string)
    requires WellDirected(early + [mv], target) && Relocated(table, mid, early, target)
    requires mv.to == c && mv.from in table && mv.from !in mid
    ensures Brings(table, early, c)
  {
    assert (early + [mv])[|early|] == mv;
    assert MovedFrom(early, mv.from);
    var j :| 0 <= j < |early| && early[j].from == mv.from;
    assert (early + [mv])[j] == early[j];
  }

  lemma {:induction false} WorkspacesArrive(table: Table<Workspace>, moves: seq<Move>, target: map<string, string>,
                                            now: int, c: string)
    requires WellDirected(moves, target) && c != "" && c[0] == 'c'
    ensures WorkspaceArrives(table, MoveAllWorkspaces(table, moves, now), moves, now, c)
  {
    if moves != [] {
      var early, mv := Front(moves, target);
      WorkspacesArrive(table, early, target, now, c);
      WorkspacesRelocated(table, early, target, now);
      var mid := MoveAllWorkspaces(table, early, now);
      MoveWorkspaceAt(mid, mv, now, c);
      if mv.from in mid {
        StillThere(table, mid, early, mv, target);
      } else if mv.to == c && mv.from in table {
        MovedThere(table, mid, early, mv, target, c);
      }
      WorkspaceStep(table, mid, MoveAllWorkspaces(table, moves, now), early, mv, now, c);
    }
  }

  /** No other row goes where `k` goes, and none was there before. */
  predicate Alone<V>(table: Table<V>, target: map<string, string>, k: string, c: string) {
    && k in table && k in target && target[k] == c && c !in table && c != "" && c[0] == 'c'
    && forall j | j in table :: j in target && target[j] == c ==> j == k
  }

  /** The row is at `c` once it has been moved, and is not there before. */
  ghost predicate RowArrives<V>(after: Table<V>, moves: seq<Move>, k: string, c: string, row: V) {
    if MovedFrom(moves, k) then c in after && after[c] == row else c !in after
  }

  lemma AloneStep<V>(table: Table<V>, mid: Table<V>, after: Table<V>, early: seq<Move>, mv: Move,
                     target: map<string, string>, k: string, c: string, row: V)
    requires WellDirected(early + [mv], target) && Relocated(table, mid, early, target) && Alone(table, target, k, c)
    requires RowArrives(mid, early, k, c, row)
    requires mv.from in mid && mv.to == c && mv.from == k && c !in mid ==> c in after && after[c] == row
    requires mv.from !in mid || mv.to != c ==> (c in after <==> c in mid) && (c in mid ==> after[c] == mid[c])
    ensures RowArrives(after, early + [mv], k, c, row)
  {
    assert (early + [mv])[|early|] == mv;
    MovedFromGrows(early, mv, k);
    if mv.from in mid {
      StillThere(table, mid, early, mv, target);
    } else if mv.from == k {
      assert MovedFrom(early, k);
    }
  }

  lemma {:induction false} MetaArrivesAsItWas(table: Table<Meta>, moves: seq<Move>, target: map<string, string>,
                                              now: int, k: string, c: string)
    requires WellDirected(moves, target) && Alone(table, target, k, c)
    ensures RowArrives(MoveAllMeta(table, moves, now), moves, k, c, Meta(table[k].title, table[k].deletedAt, now))
  {
    if moves != [] {
      var early, mv := Front(moves, target);
      var mid := MoveAllMeta(table, early, now);
      MetaArrivesAsItWas(table, early, target, now, k, c);
      MetaRelocated(table, early, target, now);
      if mv.from in mid { StillThere(table, mid, early, mv, target); }
      AloneStep(table, mid, MoveAllMeta(table, moves, now), early, mv, target, k, c,
                Meta(table[k].title, table[k].deletedAt, now));
    }
  }

  lemma {:induction false} WorkspaceArrivesAsItWas(table: Table<Workspace>, moves: seq<Move>,
                                                   target: map<string, string>, now: int, k: string, c: string)
    requires WellDirected(moves, target) && Alone(table, target, k, c)
    ensures RowArrives(MoveAllWorkspaces(table, moves, now), moves, k, c, Workspace(table[k].runRoot, now))
  {
    if moves != [] {
      var early, mv := Front(moves, target);
      var mid := MoveAllWorkspaces(table, early, now);
      WorkspaceArrivesAsItWas(table, early, target, now, k, c);
      WorkspacesRelocated(table, early, target, now);
      if mv.from in mid { StillThere(table, mid, early, mv, target); }
      AloneStep(table, mid, MoveAllWorkspaces(table, moves, now), early, mv, target, k, c,
                Workspace(table[k].runRoot, now));
    }
  }

  /** The row with another time. */
  function Restamped(a: Acceptance, now: int): Acceptance {
    Acceptance(a.status, a.iteration, a.maxIterations, a.gate, a.summary, a.plan, a.report, a.runId, now)
  }

  lemma {:induction false} AcceptanceArrivesAsItWas(table: Table<Acceptance>, moves: seq<Move>,
                                                    target: map<string, string>, now: int, k: string, c: string)
    requires WellDirected(moves, target) && Alone(table, target, k, c)
    ensures RowArrives(MoveAllAcceptance(table, moves, now), moves, k, c, Restamped(table[k], now))
  {
    if moves != [] {
      var early, mv := Front(moves, target);
      var mid := MoveAllAcceptance(table, early, now);
      AcceptanceArrivesAsItWas(table, early, target, now, k, c);
      AcceptanceRelocated(table, early, target, now);
      if mv.from in mid { StillThere(table, mid, early, mv, target); }
      AloneStep(table, mid, MoveAllAcceptance(table, moves, now), early, mv, target, k, c, Restamped(table[k], now));
    }
  }

  // ---------------------------------------------------------------- the run

  /** A session's conversation is that of its latest task that has one. */
  ghost predicate LatestKnown(tasks: Tasks, existing: map<string, string>) {
    && (forall s :: s in existing <==> s != "" && exists id :: HasConversation(tasks, id, s))
    && (forall s :: s in existing ==> LatestSays(tasks, s, existing[s]))
  }

  predicate HasConversation(tasks: Tasks, id: string, s: string) {
    id in tasks && tasks[id].session == s && tasks[id].conversation != ""
  }

  ghost predicate LatestSays(tasks: Tasks, s: string, conversation: string) {
    exists id :: Latest(tasks, id, s) && tasks[id].conversation == conversation
  }

  predicate Latest(tasks: Tasks, id: string, session: string) {
    && id in tasks && tasks[id].session == session && tasks[id].conversation != ""
    && forall k | k in tasks ::
         tasks[k].session == session && tasks[k].conversation != "" ==> tasks[k].createdAt <= tasks[id].createdAt
  }

  function ConversationOf(existing: map<string, string>, newId: string -> string, session: string): string {
    if session in existing then existing[session] else newId(session)
  }

  function Filled(id: string, t: Task, existing: map<string, string>, newId: string -> string): Task {
    if t.conversation != "" then t
    else if t.session != "" then t.(conversation := ConversationOf(existing, newId, t.session))
    else t.(conversation := id)
  }

  function Backfilled(tasks: Tasks, existing: map<string, string>, newId: string -> string): Tasks {
    map id | id in tasks :: Filled(id, tasks[id], existing, newId)
  }

  function Sessions(tasks: Tasks): set<string> {
    set id | id in tasks && tasks[id].session != "" :: tasks[id].session
  }

  function Legacy(tasks: Tasks): set<string> {
    set id | id in tasks && tasks[id].conversation == ""
  }

  /** Where every migrated key goes: each session's key to the session's conversation,
      the key of each task without a conversation to the one it gets. */
  function TargetMap(tasks: Tasks, existing: map<string, string>, newId: string -> string): map<string, string> {
    (map k | k in set s | s in Sessions(tasks) :: SessionKey("", s) ::
       ConversationKey(ConversationOf(existing, newId, k[2..])))
    + (map k | k in set id | id in Legacy(tasks) && id != "" :: SessionKey(id, "") ::
       ConversationKey(if k[2..] in tasks then Filled(k[2..], tasks[k[2..]], existing, newId).conversation else ""))
  }

  ghost predicate Ids(tasks: Tasks, existing: map<string, string>, newId: string -> string) {
    "" !in tasks && (forall s :: newId(s) != "") && LatestKnown(tasks, existing)
  }

  lemma SessionTarget(tasks: Tasks, existing: map<string, string>, newId: string -> string, s: string)
    requires s in Sessions(tasks)
    ensures var target := TargetMap(tasks, existing, newId);
      SessionKey("", s) in target && target[SessionKey("", s)] == ConversationKey(ConversationOf(existing, newId, s))
  {
    var key := SessionKey("", s);
    assert key[2..] == s && key[0] == 's';
    forall id | id in Legacy(tasks) && id != "" ensures SessionKey(id, "") != key {
      assert SessionKey(id, "")[0] == 't';
    }
  }

  lemma TaskTarget(tasks: Tasks, existing: map<string, string>, newId: string -> string, id: string)
    requires id in Legacy(tasks) && id != ""
    ensures var target := TargetMap(tasks, existing, newId);
      && SessionKey(id, "") in target
      && target[SessionKey(id, "")] == ConversationKey(Filled(id, tasks[id], existing, newId).conversation)
  {
    assert SessionKey(id, "")[2..] == id;
  }

  lemma ConversationGiven(tasks: Tasks, existing: map<string, string>, newId: string -> string, s: string, id: string)
    requires Ids(tasks, existing, newId)
    ensures ConversationOf(existing, newId, s) != ""
    ensures id in tasks ==> Filled(id, tasks[id], existing, newId).conversation != ""
  {
    if s in existing {
      assert LatestSays(tasks, s, existing[s]);
    }
    if id in tasks && tasks[id].session in existing {
      assert LatestSays(tasks, tasks[id].session, existing[tasks[id].session]);
    }
  }

  lemma TargetDirected(tasks: Tasks, existing: map<string, string>, newId: string -> string, k: string)
    requires Ids(tasks, existing, newId) && k in TargetMap(tasks, existing, newId)
    ensures var to := TargetMap(tasks, existing, newId)[k]; k != "" && k[0] != 'c' && to != "" && to[0] == 'c'
    ensures OfSession(tasks, k) || OfTask(tasks, k)
  {
    if s :| s in Sessions(tasks) && k == SessionKey("", s) {
      SessionTarget(tasks, existing, newId, s);
      ConversationGiven(tasks, existing, newId, s, "");
    } else {
      var id :| id in Legacy(tasks) && id != "" && k == SessionKey(id, "");
      TaskTarget(tasks, existing, newId, id);
      ConversationGiven(tasks, existing, newId, "", id);
    }
  }

  /** `target` says where every migrated key goes: each session's key to the session's
      conversation, the key of a task without a conversation to the one it gets. */
  ghost predicate Targets(target: map<string, string>, tasks: Tasks, existing: map<string, string>,
                          newId: string -> string) {
    && WellDirected([], target)
    && (forall s :: s in Sessions(tasks) ==> TargetIs(target, SessionKey("", s), ConversationOf(existing, newId, s)))
    && (forall id :: id in Legacy(tasks) ==>
         TargetIs(target, SessionKey(id, ""), Filled(id, tasks[id], existing, newId).conversation))
    && (forall k :: k in target ==> OfSession(tasks, k) || OfTask(tasks, k))
  }

  predicate TargetIs(target: map<string, string>, k: string, conversation: string) {
    k in target && target[k] == ConversationKey(conversation)
  }

  ghost predicate OfSession(tasks: Tasks, k: string) {
    exists s :: s in Sessions(tasks) && k == SessionKey("", s)
  }

  ghost predicate OfTask(tasks: Tasks, k: string) {
    exists id :: id in Legacy(tasks) && k == SessionKey(id, "")
  }

  lemma TargetsExist(tasks: Tasks, existing: map<string, string>, newId: string -> string)
    returns (target: map<string, string>)
    requires Ids(tasks, existing, newId)
    ensures Targets(target, tasks, existing, newId)
  {
    target := TargetMap(tasks, existing, newId);
    forall k | k in target
      ensures k != "" && k[0] != 'c' && target[k] != "" && target[k][0] == 'c'
      ensures OfSession(tasks, k) || OfTask(tasks, k)
    {
      TargetDirected(tasks, existing, newId, k);
    }
    forall s | s in Sessions(tasks) ensures TargetIs(target, SessionKey("", s), ConversationOf(existing, newId, s)) {
      SessionTarget(tasks, existing, newId, s);
    }
    forall id | id in Legacy(tasks)
      ensures TargetIs(target, SessionKey(id, ""), Filled(id, tasks[id], existing, newId).conversation)
    {
      TaskTarget(tasks, existing, newId, id);
    }
  }

  datatype Tables = Tables(meta: Table<Meta>, workspaces: Table<Workspace>, acceptance: Table<Acceptance>)

  function MoveAll(t: Tables, moves: seq<Move>, now: int): Tables {
    Tables(MoveAllMeta(t.meta, moves, now), MoveAllWorkspaces(t.workspaces, moves, now),
           MoveAllAcceptance(t.acceptance, moves, now))
  }

  lemma MoveAllSnoc(t: Tables, moves: seq<Move>, mv: Move, now: int)
    ensures var u := MoveAll(t, moves, now);
      MoveAll(t, moves + [mv], now)
      == Tables(MoveMeta(u.meta, mv, now), MoveWorkspace(u.workspaces, mv, now), MoveAcceptance(u.acceptance, mv, now))
  {
    assert (moves + [mv])[..|moves|] == moves;
  }

  class Store {
    var tasks: Tasks
    var tables: Tables

    constructor (tasks: Tasks, tables: Tables)
      ensures this.tasks == tasks && this.tables == tables
    {
      this.tasks, this.tables := tasks, tables;
    }

    /** The rows come newest first; the first one seen of a session decides. */
    method LatestMappings() returns (existing: map<string, string>)
      ensures LatestKnown(tasks, existing)
    {
      existing := map[];
      var todo := set id | id in tasks && tasks[id].session != "" && tasks[id].conversation != "";
      ghost var all := todo;
      while todo != {}
        invariant todo <= all
        invariant forall s :: s in existing <==> Seen(tasks, all - todo, s)
        invariant forall s :: s in existing ==> LatestSays(tasks, s, existing[s])
        decreases todo
      {
        ghost var newest := NewestExists(tasks, todo);
        var id :| id in todo && forall k | k in todo :: tasks[k].createdAt <= tasks[id].createdAt;
        var s := tasks[id].session;
        if s !in existing {
          FirstSeenIsLatest(tasks, all, todo, id);
          existing := existing[s := tasks[id].conversation];
        }
        ghost var seen := all - todo;
        todo := todo - {id};
        assert all - todo == seen + {id};
        forall x { OneMoreSeen(tasks, seen, id, x); }
      }
      AllSeen(tasks, all, existing);
    }

    method Migrate(mv: Move, now: int, ghost start: Tables, ghost moves: seq<Move>)
      requires tables == MoveAll(start, moves, now)
      modifies this`tables
      ensures tables == MoveAll(start, moves + [mv], now)
    {
      MoveAllSnoc(start, moves, mv, now);
      tables := Tables(MoveMeta(tables.meta, mv, now), MoveWorkspace(tables.workspaces, mv, now),
                       MoveAcceptance(tables.acceptance, mv, now));
    }

    /** Migrates session or task keys to one conversation, in any order. */
    method MigrateKeys(keys: set<string>, toKey: string, now: int,
                       ghost start: Tables, ghost moves: seq<Move>, ghost target: map<string, string>)
      returns (ghost moves': seq<Move>)
      requires Progress(start, tables, moves, now, target) && AllTo(target, keys, toKey)
      modifies this`tables
      ensures Progress(start, tables, moves', now, target)
      ensures Grows(moves, moves') && KeysMoved(moves', keys)
    {
      moves' := moves;
      var todo := keys;
      while todo != {}
        invariant todo <= keys && Progress(start, tables, moves', now, target)
        invariant Grows(moves, moves') && KeysMoved(moves', keys - todo)
        decreases todo
      {
        var k :| k in todo;
        ghost var before, done := moves', keys - todo;
        todo := todo - {k};
        Migrate(Move(k, toKey), now, start, before);
        moves' := OneMoreMove(moves, before, Move(k, toKey), target, done);
        assert keys - todo == done + {k};
      }
      assert keys - todo == keys;
    }

    /** First loop: keys of sessions whose conversation is known. */
    method MigrateKnown(known: map<string, string>, newId: string -> string, now: int,
                        ghost start: Tables, ghost target: map<string, string>)
      returns (ghost moves: seq<Move>)
      requires Ids(tasks, known, newId) && Targets(target, tasks, known, newId) && tables == start
      modifies this`tables
      ensures Progress(start, tables, moves, now, target)
      ensures forall s :: s in known ==> MovedFrom(moves, SessionKey("", s))
    {
      moves := [];
      var todo := known.Keys;
      while todo != {}
        invariant todo <= known.Keys && Progress(start, tables, moves, now, target)
        invariant forall s :: s in known.Keys - todo ==> MovedFrom(moves, SessionKey("", s))
        decreases todo
      {
        var s :| s in todo;
        todo := todo - {s};
        KnownTarget(target, tasks, known, newId, s);
        moves := MigrateKeys({SessionKey("", s)}, ConversationKey(known[s]), now, start, moves, target);
      }
    }

    /** The loop body for one session: its tasks get the conversation, its own key and
        its tasks' keys are migrated. */
    method BackfillSession(s: string, known: map<string, string>, newId: string -> string, now: int,
                           ghost start: Tables, ghost moves: seq<Move>, ghost tasks0: Tasks,
                           ghost target: map<string, string>)
      returns (ghost moves': seq<Move>)
      requires GroupTo(target, tasks0, s, ConversationOf(known, newId, s))
      requires Progress(start, tables, moves, now, target)
      requires tasks.Keys == tasks0.Keys && Untouched(tasks, tasks0, s)
      modifies this
      ensures tasks == Assigned(old(tasks), s, ConversationOf(known, newId, s))
      ensures Progress(start, tables, moves', now, target)
      ensures Grows(moves, moves')
      ensures MovedFrom(moves', SessionKey("", s))
      ensures GroupReached(moves', tasks0, s)
    {
      var cid := if s in known then known[s] else newId(s);
      assert cid == ConversationOf(known, newId, s);
      var group := set id | id in tasks && tasks[id].conversation == "" && tasks[id].session == s;
      var keys := set id | id in group :: SessionKey(id, "");
      GroupKeys(target, tasks0, s, cid, group, keys);
      tasks := Assigned(tasks, s, cid);
      moves' := MigrateKeys({SessionKey("", s)}, ConversationKey(cid), now, start, moves, target);
      ghost var own := moves';
      moves' := MigrateKeys(keys, ConversationKey(cid), now, start, moves', target);
      GrowsTwice(moves, own, moves');
    }

    /** Second loop: tasks without a conversation, session by session. */
    method BackfillSessions(known: map<string, string>, newId: string -> string, now: int,
                            ghost start: Tables, ghost moves: seq<Move>, ghost rest: set<string>,
                            ghost target: map<string, string>)
      returns (ghost moves': seq<Move>)
      requires SessionTargets(target, tasks, known, newId) && Progress(start, tables, moves, now, target)
      requires rest == Sessionless(tasks)
      modifies this
      ensures tasks == Partly(old(tasks), known, newId, {}, rest)
      ensures Progress(start, tables, moves', now, target)
      ensures Grows(moves, moves')
      ensures forall id :: id in Legacy(old(tasks)) && old(tasks)[id].session != "" ==>
        TaskReached(moves', old(tasks), id)
    {
      ghost var tasks0 := tasks;
      moves' := moves;
      var todo := set id | id in tasks && tasks[id].conversation == "" && tasks[id].session != "" :: tasks[id].session;
      ghost var all := todo;
      NothingFilledYet(tasks, known, newId, todo, rest);
      while todo != {}
        invariant todo <= all && tasks == Partly(tasks0, known, newId, todo, rest)
        invariant Progress(start, tables, moves', now, target)
        invariant Grows(moves, moves')
        invariant SessionsReached(moves', tasks0, all - todo)
        decreases todo
      {
        var s :| s in todo;
        assert s in Sessions(tasks0);
        AssignedIsPartly(tasks0, known, newId, todo, rest, s);
        PartlyUntouched(tasks0, known, newId, todo, rest, s);
        ghost var before, done := moves', all - todo;
        moves' := BackfillSession(s, known, newId, now, start, moves', tasks0, target);
        todo := todo - {s};
        GrowsTwice(moves, before, moves');
        OneMoreReached(before, moves', tasks0, done, s);
        assert all - todo == done + {s};
      }
      assert all - todo == all;
    }

    /** The loop body for a task without a session. */
    method BackfillTask(id: string, now: int, ghost start: Tables, ghost moves: seq<Move>,
                        ghost target: map<string, string>)
      returns (ghost moves': seq<Move>)
      requires id in tasks && Progress(start, tables, moves, now, target) && TargetIs(target, SessionKey(id, ""), id)
      modifies this
      ensures tasks == old(tasks)[id := old(tasks)[id].(conversation := id)]
      ensures Progress(start, tables, moves', now, target)
      ensures Grows(moves, moves') && MovedFrom(moves', SessionKey(id, ""))
    {
      tasks := tasks[id := tasks[id].(conversation := id)];
      moves' := MigrateKeys({SessionKey(id, "")}, ConversationKey(id), now, start, moves, target);
    }

    /** Third loop: tasks without a session become conversations of their own. */
    method BackfillRest(rest: set<string>, known: map<string, string>, newId: string -> string, now: int,
                        ghost start: Tables, ghost moves: seq<Move>, ghost tasks0: Tasks,
                        ghost target: map<string, string>)
      returns (ghost moves': seq<Move>)
      requires SelfTargets(target, rest) && Progress(start, tables, moves, now, target)
      requires rest == Sessionless(tasks0) && tasks == Partly(tasks0, known, newId, {}, rest)
      modifies this
      ensures tasks == Partly(tasks0, known, newId, {}, {})
      ensures Progress(start, tables, moves', now, target)
      ensures Grows(moves, moves')
      ensures TasksReached(moves', rest)
    {
      moves' := moves;
      var todo := rest;
      while todo != {}
        invariant todo <= rest && tasks == Partly(tasks0, known, newId, {}, todo)
        invariant Progress(start, tables, moves', now, target)
        invariant Grows(moves, moves')
        invariant TasksReached(moves', rest - todo)
        decreases todo
      {
        var id :| id in todo;
        SelfIsPartly(tasks0, known, newId, todo, id);
        ghost var before, done := moves', rest - todo;
        todo := todo - {id};
        assert TargetIs(target, SessionKey(id, ""), id);
        moves' := BackfillTask(id, now, start, before, target);
        OneMoreTask(moves, before, moves', done, id);
        assert rest - todo == done + {id};
      }
      assert rest - todo == rest;
    }

    /** The three loops, once the known conversations are read. */
    method Backfill(known: map<string, string>, newId: string -> string, now: int,
                    ghost tasks0: Tasks, ghost start: Tables, ghost target: map<string, string>)
      returns (ghost moves: seq<Move>)
      requires tasks == tasks0 && tables == start
      requires Ids(tasks0, known, newId) && Targets(target, tasks0, known, newId)
      modifies this
      ensures tasks == Partly(tasks0, known, newId, {}, {})
      ensures Progress(start, tables, moves, now, target) && Reached(moves, tasks0, known)
    {
      moves := MigrateKnown(known, newId, now, start, target);
      var rest := Sessionless(tasks);
      SessionTargetsExist(target, tasks0, known, newId);
      moves := BackfillSessions(known, newId, now, start, moves, rest, target);
      SelfTargetsExist(target, tasks0, known, newId, rest);
      moves := BackfillRest(rest, known, newId, now, start, moves, tasks0, target);
    }

    /** `newId` supplies a fresh random id for each session. */
    method EnsureConversationIDs(newId: string -> string, now: int)
      returns (ghost existing: map<string, string>, ghost moves: seq<Move>, ghost target: map<string, string>)
      requires "" !in tasks && forall s :: newId(s) != ""
      modifies this
      ensures LatestKnown(old(tasks), existing)
      ensures tasks == Backfilled(old(tasks), existing, newId)
      ensures tables == MoveAll(old(tables), moves, now)
      ensures Targets(target, old(tasks), existing, newId) && Complete(moves, target)
    {
      var known := LatestMappings();
      existing := known;
      target := TargetsExist(tasks, known, newId);
      moves := Backfill(known, newId, now, tasks, tables, target);
      AllMoved(moves, target, old(tasks), known, newId);
      NothingLeft(old(tasks), known, newId);
    }
  }

  ghost predicate SessionsReached(moves: seq<Move>, tasks: Tasks, done: set<string>) {
    forall id :: id in Legacy(tasks) && tasks[id].session in done ==> TaskReached(moves, tasks, id)
  }

  ghost predicate Grows(moves: seq<Move>, moves': seq<Move>) {
    forall k :: MovedFrom(moves, k) ==> MovedFrom(moves', k)
  }

  ghost predicate KeysMoved(moves: seq<Move>, keys: set<string>) {
    forall k :: k in keys ==> MovedFrom(moves, k)
  }

  lemma OneMoreMove(moves: seq<Move>, before: seq<Move>, mv: Move, target: map<string, string>, done: set<string>)
    returns (moves': seq<Move>)
    requires Grows(moves, before) && KeysMoved(before, done) && WellDirected(before, target)
    requires mv.from in target && target[mv.from] == mv.to
    ensures moves' == before + [mv] && Grows(moves, moves') && WellDirected(moves', target)
    ensures KeysMoved(moves', done + {mv.from})
  {
    moves' := before + [mv];
    forall k ensures MovedFrom(moves', k) <==> MovedFrom(before, k) || k == mv.from { MovedFromGrows(before, mv, k); }
  }

  predicate AllTo(target: map<string, string>, keys: set<string>, toKey: string) {
    forall k | k in keys :: k in target && target[k] == toKey
  }

  lemma GrowsTwice(a: seq<Move>, b: seq<Move>, c: seq<Move>)
    requires Grows(a, b) && Grows(b, c)
    ensures Grows(a, c)
  {
  }

  /** The keys of a task's session and of the task itself have been moved. */
  ghost predicate TaskReached(moves: seq<Move>, tasks: Tasks, id: string)
    requires id in tasks
  {
    MovedFrom(moves, SessionKey("", tasks[id].session)) && MovedFrom(moves, SessionKey(id, ""))
  }

  ghost predicate GroupReached(moves: seq<Move>, tasks: Tasks, s: string) {
    forall id :: id in Legacy(tasks) && tasks[id].session == s ==> MovedFrom(moves, SessionKey(id, ""))
  }

  ghost predicate TasksReached(moves: seq<Move>, ids: set<string>) {
    forall id :: id in ids ==> MovedFrom(moves, SessionKey(id, ""))
  }

  lemma OneMoreTask(moves: seq<Move>, before: seq<Move>, moves': seq<Move>, done: set<string>, id: string)
    requires Grows(moves, before) && TasksReached(before, done) && Grows(before, moves')
    requires MovedFrom(moves', SessionKey(id, ""))
    ensures Grows(moves, moves') && TasksReached(moves', done + {id})
  {
  }

  /** The tasks of a session are still as they were. */
  ghost predicate Untouched(tasks: Tasks, tasks0: Tasks, s: string)
    requires tasks.Keys == tasks0.Keys
  {
    forall id :: id in tasks && (tasks0[id].session == s || tasks[id].session == s) ==> tasks[id] == tasks0[id]
  }

  lemma PartlyUntouched(tasks: Tasks, existing: map<string, string>, newId: string -> string,
                        todo: set<string>, rest: set<string>, s: string)
    requires s in todo
    ensures Untouched(Partly(tasks, existing, newId, todo, rest), tasks, s)
  {
  }

  lemma OneMoreReached(before: seq<Move>, moves: seq<Move>, tasks: Tasks, done: set<string>, s: string)
    requires SessionsReached(before, tasks, done) && Grows(before, moves)
    requires MovedFrom(moves, SessionKey("", s)) && GroupReached(moves, tasks, s)
    ensures SessionsReached(moves, tasks, done + {s})
  {
  }

  lemma NothingLeft(tasks: Tasks, existing: map<string, string>, newId: string -> string)
    ensures Partly(tasks, existing, newId, {}, {}) == Backfilled(tasks, existing, newId)
  {
  }

  /** The keys the three loops go over. */
  ghost predicate Reached(moves: seq<Move>, tasks: Tasks, existing: map<string, string>) {
    && (forall s :: s in existing ==> MovedFrom(moves, SessionKey("", s)))
    && (forall id :: id in Legacy(tasks) && tasks[id].session != "" ==> TaskReached(moves, tasks, id))
    && TasksReached(moves, Sessionless(tasks))
  }

  function Sessionless(tasks: Tasks): set<string> {
    set id | id in tasks && tasks[id].conversation == "" && tasks[id].session == ""
  }

  /** Every key with a target has been moved there. */
  ghost predicate Complete(moves: seq<Move>, target: map<string, string>) {
    WellDirected(moves, target) && forall k :: k in target ==> MovedFrom(moves, k)
  }

  lemma AllMoved(moves: seq<Move>, target: map<string, string>, tasks: Tasks, existing: map<string, string>,
                 newId: string -> string)
    requires Ids(tasks, existing, newId) && Targets(target, tasks, existing, newId) && WellDirected(moves, target)
    requires Reached(moves, tasks, existing)
    ensures Complete(moves, target)
  {
    forall k | k in target ensures MovedFrom(moves, k) {
      if OfSession(tasks, k) {
        var s :| s in Sessions(tasks) && k == SessionKey("", s);
        var id :| id in tasks && tasks[id].session == s && s != "";
        if tasks[id].conversation != "" {
          assert HasConversation(tasks, id, s) && s in existing;
        } else {
          assert id in Legacy(tasks) && TaskReached(moves, tasks, id);
        }
      } else {
        assert OfTask(tasks, k);
      }
    }
  }

  /** The keys of a session and of its tasks without a conversation go to `cid`. */
  ghost predicate GroupTo(target: map<string, string>, tasks: Tasks, s: string, cid: string) {
    && TargetIs(target, SessionKey("", s), cid)
    && forall id :: id in Legacy(tasks) && tasks[id].session == s ==> TargetIs(target, SessionKey(id, ""), cid)
  }

  ghost predicate SessionTargets(target: map<string, string>, tasks: Tasks, existing: map<string, string>,
                                 newId: string -> string) {
    forall s :: s in Sessions(tasks) ==> GroupTo(target, tasks, s, ConversationOf(existing, newId, s))
  }

  lemma SessionTargetsExist(target: map<string, string>, tasks: Tasks, existing: map<string, string>,
                            newId: string -> string)
    requires Targets(target, tasks, existing, newId)
    ensures SessionTargets(target, tasks, existing, newId)
  {
    forall s | s in Sessions(tasks) ensures GroupTo(target, tasks, s, ConversationOf(existing, newId, s)) {
      assert TargetIs(target, SessionKey("", s), ConversationOf(existing, newId, s));
    }
  }

  lemma GroupKeys(target: map<string, string>, tasks: Tasks, s: string, cid: string, group: set<string>,
                  keys: set<string>)
    requires GroupTo(target, tasks, s, cid)
    requires group == set id | id in tasks && tasks[id].conversation == "" && tasks[id].session == s
    requires keys == set id | id in group :: SessionKey(id, "")
    ensures AllTo(target, keys, ConversationKey(cid))
    ensures forall id :: id in Legacy(tasks) && tasks[id].session == s ==> SessionKey(id, "") in keys
  {
    forall k | k in keys ensures TargetIs(target, k, cid) {
      var id :| id in group && k == SessionKey(id, "");
      assert id in Legacy(tasks);
    }
    forall id | id in Legacy(tasks) && tasks[id].session == s ensures SessionKey(id, "") in keys {
      assert id in group;
    }
  }

  lemma NothingFilledYet(tasks: Tasks, existing: map<string, string>, newId: string -> string, todo: set<string>,
                         rest: set<string>)
    requires rest == Sessionless(tasks)
    requires todo ==
      set id | id in tasks && tasks[id].conversation == "" && tasks[id].session != "" :: tasks[id].session
    ensures Partly(tasks, existing, newId, todo, rest) == tasks
  {
  }

  lemma SelfIsPartly(tasks: Tasks, existing: map<string, string>, newId: string -> string, todo: set<string>,
                     id: string)
    requires id in todo && todo <= Sessionless(tasks)
    ensures var partly := Partly(tasks, existing, newId, {}, todo);
      id in partly && partly[id := partly[id].(conversation := id)] == Partly(tasks, existing, newId, {}, todo - {id})
  {
  }

  lemma KnownTarget(target: map<string, string>, tasks: Tasks, known: map<string, string>, newId: string -> string,
                    s: string)
    requires Ids(tasks, known, newId) && Targets(target, tasks, known, newId) && s in known
    ensures TargetIs(target, SessionKey("", s), known[s])
  {
    var id :| HasConversation(tasks, id, s);
    assert s in Sessions(tasks);
    assert TargetIs(target, SessionKey("", s), ConversationOf(known, newId, s));
  }

  /** Tasks without a session are their own conversation. */
  predicate SelfTargets(target: map<string, string>, rest: set<string>) {
    forall id | id in rest :: TargetIs(target, SessionKey(id, ""), id)
  }

  lemma SelfTargetsExist(target: map<string, string>, tasks: Tasks, existing: map<string, string>,
                         newId: string -> string,
                         rest: set<string>)
    requires Targets(target, tasks, existing, newId) && rest == Sessionless(tasks)
    ensures SelfTargets(target, rest)
  {
    forall id | id in rest ensures TargetIs(target, SessionKey(id, ""), id) { assert id in Legacy(tasks); }
  }

  predicate Progress(start: Tables, tables: Tables, moves: seq<Move>, now: int, target: map<string, string>) {
    tables == MoveAll(start, moves, now) && WellDirected(moves, target)
  }

  /** UPDATE tasks SET conversation_id = ? WHERE session_id = ? AND conversation_id = '' */
  function Assigned(tasks: Tasks, s: string, cid: string): Tasks {
    map id | id in tasks ::
      if tasks[id].session == s && tasks[id].conversation == "" then tasks[id].(conversation := cid) else tasks[id]
  }

  /** The tasks while the sessions `todo` and the tasks `rest` without a session are
      still to be filled. */
  function Partly(tasks: Tasks, existing: map<string, string>, newId: string -> string,
                  todo: set<string>, rest: set<string>): Tasks {
    map id | id in tasks ::
      if tasks[id].session in todo || id in rest then tasks[id] else Filled(id, tasks[id], existing, newId)
  }

  lemma AssignedIsPartly(tasks: Tasks, existing: map<string, string>, newId: string -> string,
                         todo: set<string>, rest: set<string>, s: string)
    requires s != "" && s in todo && forall id :: id in rest ==> id in tasks && tasks[id].session == ""
    ensures Assigned(Partly(tasks, existing, newId, todo, rest), s, ConversationOf(existing, newId, s))
         == Partly(tasks, existing, newId, todo - {s}, rest)
  {
  }

  ghost predicate Seen(tasks: Tasks, ids: set<string>, s: string) {
    exists id :: id in ids && id in tasks && tasks[id].session == s
  }

  lemma OneMoreSeen(tasks: Tasks, ids: set<string>, id: string, s: string)
    requires id in tasks
    ensures Seen(tasks, ids + {id}, s) <==> Seen(tasks, ids, s) || tasks[id].session == s
  {
    if tasks[id].session == s { assert id in ids + {id}; }
    if Seen(tasks, ids, s) {
      var k :| k in ids && k in tasks && tasks[k].session == s;
      assert k in ids + {id};
    }
  }

  /** The newest of those left, when no other of its session was seen. */
  lemma FirstSeenIsLatest(tasks: Tasks, all: set<string>, todo: set<string>, id: string)
    requires all == set k | k in tasks && tasks[k].session != "" && tasks[k].conversation != ""
    requires todo <= all && id in todo && !Seen(tasks, all - todo, tasks[id].session)
    requires forall k | k in todo :: tasks[k].createdAt <= tasks[id].createdAt
    ensures LatestSays(tasks, tasks[id].session, tasks[id].conversation)
  {
    var s := tasks[id].session;
    forall k | HasConversation(tasks, k, s) ensures tasks[k].createdAt <= tasks[id].createdAt {
      assert k in all;
      assert k in todo;
    }
    assert Latest(tasks, id, s);
  }

  lemma AllSeen(tasks: Tasks, all: set<string>, existing: map<string, string>)
    requires all == set k | k in tasks && tasks[k].session != "" && tasks[k].conversation != ""
    requires forall s :: s in existing <==> Seen(tasks, all, s)
    requires forall s :: s in existing ==> LatestSays(tasks, s, existing[s])
    ensures LatestKnown(tasks, existing)
  {
    forall s ensures s in existing <==> s != "" && exists id :: HasConversation(tasks, id, s) {
      if s in existing {
        var id :| id in all && id in tasks && tasks[id].session == s;
        assert HasConversation(tasks, id, s);
      }
      if s != "" && exists id :: HasConversation(tasks, id, s) {
        var id :| HasConversation(tasks, id, s);
        assert id in all;
      }
    }
  }

  lemma {:induction false} NewestExists(tasks: Tasks, ids: set<string>) returns (id: string)
    requires ids != {} && forall k :: k in ids ==> k in tasks
    ensures id in ids && forall k :: k in ids ==> tasks[k].createdAt <= tasks[id].createdAt
    decreases ids
  {
    id :| id in ids;
    if ids != {id} {
      var k := NewestExists(tasks, ids - {id});
      if tasks[k].createdAt > tasks[id].createdAt { id := k; }
    }
  }

  // --------------------------------------------------- what a run achieves

  /** Every task ends with a conversation, one that had one keeps it, and tasks without
      one that share a session share it afterwards: that of the session's latest task
      that had one, if any. */
  lemma EveryTaskHasAConversation(tasks: Tasks, existing: map<string, string>, newId: string -> string, after: Tasks)
    requires Ids(tasks, existing, newId) && after == Backfilled(tasks, existing, newId)
    ensures after.Keys == tasks.Keys && Legacy(after) == {}
    ensures forall id :: id in tasks && tasks[id].conversation != "" ==> after[id] == tasks[id]
    ensures forall id :: id in tasks ==> after[id] == tasks[id].(conversation := after[id].conversation)
    ensures forall a, b :: a in Legacy(tasks) && b in Legacy(tasks) && tasks[a].session == tasks[b].session != "" ==>
      after[a].conversation == after[b].conversation
    ensures forall a, b ::
      a in Legacy(tasks) && tasks[a].session != "" && HasConversation(tasks, b, tasks[a].session) ==>
      LatestSays(tasks, tasks[a].session, after[a].conversation)
    ensures forall a ::
      a in Legacy(tasks) && tasks[a].session != "" && (forall b :: !HasConversation(tasks, b, tasks[a].session)) ==>
      after[a].conversation == newId(tasks[a].session)
    ensures forall a :: a in Legacy(tasks) && tasks[a].session == "" ==> after[a].conversation == a
  {
    forall id | id in tasks ensures after[id].conversation != "" { ConversationGiven(tasks, existing, newId, "", id); }
  }

  /** The conversation that a task gets through its session is that of the session's newest
      task that has one. */
  lemma NewestConversationWins(tasks: Tasks, existing: map<string, string>, newId: string -> string, a: string,
                               b: string)
    returns (c: string)
    requires Ids(tasks, existing, newId) && a in tasks && tasks[a].conversation == ""
    requires b in tasks && tasks[b].session == tasks[a].session != "" && tasks[b].conversation != ""
    ensures c in tasks && tasks[c].session == tasks[a].session && tasks[b].createdAt <= tasks[c].createdAt
    ensures Backfilled(tasks, existing, newId)[a].conversation == tasks[c].conversation != ""
  {
    var s := tasks[a].session;
    assert HasConversation(tasks, b, s) && LatestSays(tasks, s, existing[s]);
    c :| Latest(tasks, c, s) && tasks[c].conversation == existing[s];
  }

  /** What was kept at `from` is found at `to`, with what was there before. */
  ghost predicate MetaFound(start: Table<Meta>, after: Table<Meta>, from: string, to: string) {
    from in start ==>
      && to in after && (start[from].deletedAt.Some? ==> after[to].deletedAt.Some?)
      && (Trim(start[from].title) != "" ==> Trim(after[to].title) != "")
  }

  ghost predicate AcceptanceFound(start: Table<Acceptance>, after: Table<Acceptance>, from: string, to: string) {
    from in start ==>
      && to in after && start[from].iteration <= after[to].iteration
      && start[from].maxIterations <= after[to].maxIterations
      && forall f :: Trim(TextOf(start[from], f)) != "" ==> Trim(TextOf(after[to], f)) != ""
  }

  /** All that was kept under one key is found under the other: no row, deletion, title or
      text is lost, and counts do not go down; what was there already wins. */
  ghost predicate StateArrives(start: Tables, after: Tables, from: string, to: string) {
    && from !in after.meta && from !in after.workspaces && from !in after.acceptance
    && MetaFound(start.meta, after.meta, from, to) && MetaFound(start.meta, after.meta, to, to)
    && (to in start.meta && Trim(start.meta[to].title) != "" ==> after.meta[to].title == start.meta[to].title)
    && (from in start.workspaces || to in start.workspaces ==> to in after.workspaces)
    && (to in start.workspaces ==> after.workspaces[to] == start.workspaces[to])
    && AcceptanceFound(start.acceptance, after.acceptance, from, to)
    && AcceptanceFound(start.acceptance, after.acceptance, to, to)
  }

  /** If no other row goes there, and none was there, the rows are as they were. */
  ghost predicate RowsAsTheyWere(start: Tables, after: Tables, now: int, target: map<string, string>, from: string,
                                 to: string) {
    && (Alone(start.meta, target, from, to) ==>
         to in after.meta && after.meta[to] == Meta(start.meta[from].title, start.meta[from].deletedAt, now))
    && (Alone(start.workspaces, target, from, to) ==>
         to in after.workspaces && after.workspaces[to] == Workspace(start.workspaces[from].runRoot, now))
    && (Alone(start.acceptance, target, from, to) ==>
         to in after.acceptance && after.acceptance[to] == Restamped(start.acceptance[from], now))
  }

  lemma MetaIsFound(table: Table<Meta>, moves: seq<Move>, now: int, target: map<string, string>, from: string,
                    to: string)
    requires WellDirected(moves, target) && Feeds(moves, target, from, to) && to != "" && to[0] == 'c'
    ensures MetaFound(table, MoveAllMeta(table, moves, now), from, to)
  {
    MetaRelocated(table, moves, target, now);
    DeletionsSurvive(table, moves, target, now, to);
    TitleArrives(table, moves, target, now, to);
    if from in table { assert FeedsRow(table, moves, target, from, to); }
  }

  lemma AcceptanceIsFound(table: Table<Acceptance>, moves: seq<Move>, now: int, target: map<string, string>,
                          from: string, to: string)
    requires WellDirected(moves, target) && Feeds(moves, target, from, to) && to != "" && to[0] == 'c'
    ensures AcceptanceFound(table, MoveAllAcceptance(table, moves, now), from, to)
  {
    AcceptanceRelocated(table, moves, target, now);
    IterationIsMaximum(table, moves, target, now, to, Iteration);
    IterationIsMaximum(table, moves, target, now, to, MaxIterations);
    if from in table {
      assert FeedsRow(table, moves, target, from, to);
      forall f | Trim(TextOf(table[from], f)) != ""
        ensures Trim(TextOf(MoveAllAcceptance(table, moves, now)[to], f)) != ""
      {
        TextsArrive(table, moves, target, now, to, f);
        assert TrimmedText(f)(table[from]) != "";
      }
    }
  }

  lemma KeyStateArrives(start: Tables, moves: seq<Move>, now: int, target: map<string, string>, from: string,
                        to: string)
    requires Complete(moves, target) && from in target && target[from] == to
    ensures StateArrives(start, MoveAll(start, moves, now), from, to)
    ensures RowsAsTheyWere(start, MoveAll(start, moves, now), now, target, from, to)
  {
    assert MovedFrom(moves, from) && Feeds(moves, target, from, to) && Feeds(moves, target, to, to);
    SourcesAreGone(start, moves, target, now, from);
    MetaIsFound(start.meta, moves, now, target, from, to);
    MetaIsFound(start.meta, moves, now, target, to, to);
    TitleArrives(start.meta, moves, target, now, to);
    WorkspacesRelocated(start.workspaces, moves, target, now);
    WorkspacesArrive(start.workspaces, moves, target, now, to);
    AcceptanceIsFound(start.acceptance, moves, now, target, from, to);
    AcceptanceIsFound(start.acceptance, moves, now, target, to, to);
    AloneArrives(start, moves, now, target, from, to);
  }

  lemma AloneArrives(start: Tables, moves: seq<Move>, now: int, target: map<string, string>, from: string, to: string)
    requires Complete(moves, target) && from in target && target[from] == to && MovedFrom(moves, from)
    ensures RowsAsTheyWere(start, MoveAll(start, moves, now), now, target, from, to)
  {
    if Alone(start.meta, target, from, to) { MetaArrivesAsItWas(start.meta, moves, target, now, from, to); }
    if Alone(start.workspaces, target, from, to) {
      WorkspaceArrivesAsItWas(start.workspaces, moves, target, now, from, to);
    }
    if Alone(start.acceptance, target, from, to) {
      AcceptanceArrivesAsItWas(start.acceptance, moves, target, now, from, to);
    }
  }

  /** Whatever was kept for a session, and for the conversation it belongs to, is found
      under the conversation afterwards, and the session's own key is gone. */
  lemma SessionStateArrives(tasks: Tasks, existing: map<string, string>, newId: string -> string,
                            start: Tables, moves: seq<Move>, now: int, target: map<string, string>, s: string,
                            after: Tables, from: string, to: string)
    requires Ids(tasks, existing, newId) && Targets(target, tasks, existing, newId) && Complete(moves, target)
    requires s in Sessions(tasks) && after == MoveAll(start, moves, now)
    requires from == "s:" + s && to == "c:" + ConversationOf(existing, newId, s)
    ensures StateArrives(start, after, from, to) && RowsAsTheyWere(start, after, now, target, from, to)
  {
    ConversationGiven(tasks, existing, newId, s, "");
    assert TargetIs(target, SessionKey("", s), ConversationOf(existing, newId, s));
    KeyStateArrives(start, moves, now, target, from, to);
  }

  /** The same for a task that had no conversation, with the one it gets. */
  lemma TaskStateArrives(tasks: Tasks, existing: map<string, string>, newId: string -> string,
                         start: Tables, moves: seq<Move>, now: int, target: map<string, string>, id: string,
                         after: Tables, from: string, to: string)
    requires Ids(tasks, existing, newId) && Targets(target, tasks, existing, newId) && Complete(moves, target)
    requires id in tasks && tasks[id].conversation == "" && after == MoveAll(start, moves, now)
    requires from == "t:" + id && to == "c:" + Backfilled(tasks, existing, newId)[id].conversation
    ensures StateArrives(start, after, from, to) && RowsAsTheyWere(start, after, now, target, from, to)
  {
    ConversationGiven(tasks, existing, newId, "", id);
    assert id in Legacy(tasks);
    KeyStateArrives(start, moves, now, target, from, to);
  }

  /** Nothing is kept under any of the keys. */
  predicate Vacant(t: Tables, moves: seq<Move>) {
    forall i | 0 <= i < |moves| ::
      moves[i].from !in t.meta && moves[i].from !in t.workspaces && moves[i].from !in t.acceptance
  }

  lemma {:induction false} VacantMovesNothing(t: Tables, moves: seq<Move>, now: int)
    requires Vacant(t, moves)
    ensures MoveAll(t, moves, now) == t
  {
    if moves != [] {
      VacantMovesNothing(t, moves[..|moves| - 1], now);
    }
  }

  lemma SourcesAreGone(start: Tables, moves: seq<Move>, target: map<string, string>, now: int, k: string)
    requires Complete(moves, target) && k in target
    ensures var after := MoveAll(start, moves, now);
      k !in after.meta && k !in after.workspaces && k !in after.acceptance
  {
    MetaRelocated(start.meta, moves, target, now);
    WorkspacesRelocated(start.workspaces, moves, target, now);
    AcceptanceRelocated(start.acceptance, moves, target, now);
  }

  /** Once all tasks have a conversation, only keys already migrated remain to migrate. */
  lemma NoNewKeys(tasks: Tasks, existing: map<string, string>, newId: string -> string, target: map<string, string>,
                  after: Tasks, existing2: map<string, string>, newId2: string -> string,
                  target2: map<string, string>, k: string)
    requires Ids(tasks, existing, newId) && Targets(target, tasks, existing, newId)
    requires after == Backfilled(tasks, existing, newId) && Targets(target2, after, existing2, newId2)
    requires k in target2
    ensures k in target
  {
    EveryTaskHasAConversation(tasks, existing, newId, after);
    assert OfSession(after, k);
    var s :| s in Sessions(after) && k == SessionKey("", s);
    assert s in Sessions(tasks);
    assert TargetIs(target, k, ConversationOf(existing, newId, s));
  }

  lemma VacantAfterwards(start: Tables, moves: seq<Move>, target: map<string, string>, now: int,
                         moves2: seq<Move>, target2: map<string, string>, end: Tables)
    requires Complete(moves, target) && WellDirected(moves2, target2) && target2.Keys <= target.Keys
    requires end == MoveAll(start, moves, now)
    ensures Vacant(end, moves2)
  {
    forall i | 0 <= i < |moves2|
      ensures moves2[i].from !in end.meta && moves2[i].from !in end.workspaces && moves2[i].from !in end.acceptance
    {
      SourcesAreGone(start, moves, target, now, moves2[i].from);
    }
  }

  /** A second run changes neither a task nor a row, whatever identifiers it would draw
      and in whatever order it goes. */
  lemma SecondRunChangesNothing(
      tasks: Tasks, start: Tables,
      existing: map<string, string>, newId: string -> string, moves: seq<Move>, now: int, target: map<string, string>,
      after: Tasks, end: Tables,
      existing2: map<string, string>, newId2: string -> string, moves2: seq<Move>, now2: int,
      target2: map<string, string>)
    requires Ids(tasks, existing, newId) && Targets(target, tasks, existing, newId) && Complete(moves, target)
    requires after == Backfilled(tasks, existing, newId) && end == MoveAll(start, moves, now)
    requires LatestKnown(after, existing2) && Targets(target2, after, existing2, newId2) && Complete(moves2, target2)
    ensures Backfilled(after, existing2, newId2) == after && MoveAll(end, moves2, now2) == end
  {
    EveryTaskHasAConversation(tasks, existing, newId, after);
    NothingToFill(after, existing2, newId2);
    forall k | k in target2 { NoNewKeys(tasks, existing, newId, target, after, existing2, newId2, target2, k); }
    VacantAfterwards(start, moves, target, now, moves2, target2, end);
    VacantMovesNothing(end, moves2, now2);
  }

  lemma NothingToFill(tasks: Tasks, existing: map<string, string>, newId: string -> string)
    requires Legacy(tasks) == {}
    ensures Backfilled(tasks, existing, newId) == tasks
  {
    forall id | id in tasks ensures tasks[id].conversation != "" { assert id !in Legacy(tasks); }
  }
}
