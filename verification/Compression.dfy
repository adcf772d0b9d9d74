/** Rolling compression of a secretary conversation (internal/secretary/compression.go,
    compression_store.go) over its chat rows (internal/chat/store.go). */
module Compression {
  import opened Wrappers
  import opened Text

  /** A row of one conversation. Row ids are handed out by one counter for all
      conversations, so they grow but need not be consecutive. */
  datatype Message = Message(id: int, content: string)

  predicate Ascending(msgs: seq<Message>) {
    forall i, j :: 0 <= i < j < |msgs| ==> msgs[i].id < msgs[j].id
  }

  /** WHERE id > cursor */
  function After(msgs: seq<Message>, cursor: int): seq<Message> {
    if msgs == [] then []
    else (if msgs[0].id > cursor then [msgs[0]] else []) + After(msgs[1..], cursor)
  }

  function Min(a: nat, b: nat): nat {
    if a < b then a else b
  }

  function FirstOf(list: seq<Message>, n: nat): seq<Message> {
    list[..Min(n, |list|)]
  }

  function LastOf(list: seq<Message>, n: nat): seq<Message> {
    list[|list| - Min(n, |list|)..]
  }

  function Reversed(list: seq<Message>): (r: seq<Message>)
    ensures |r| == |list| && forall i :: 0 <= i < |list| ==> r[i] == list[|list| - 1 - i]
  {
    seq(|list|, i requires 0 <= i < |list| => list[|list| - 1 - i])
  }

  lemma {:induction false} AfterIsSuffix(msgs: seq<Message>, cursor: int) returns (k: nat)
    requires Ascending(msgs)
    ensures k <= |msgs| && After(msgs, cursor) == msgs[k..]
    ensures forall i :: 0 <= i < |msgs| ==> (msgs[i].id > cursor <==> i >= k)
  {
    if msgs == [] {
      k := 0;
    } else if msgs[0].id > cursor {
      var j := AfterIsSuffix(msgs[1..], cursor);
      assert forall i :: 0 <= i < |msgs| - 1 ==> msgs[1..][i].id > cursor;
      assert j == 0;
      k := 0;
    } else {
      var j := AfterIsSuffix(msgs[1..], cursor);
      k := j + 1;
      forall i | 0 <= i < |msgs| ensures msgs[i].id > cursor <==> i >= k {
        if i > 0 { assert msgs[i] == msgs[1..][i - 1]; }
      }
    }
  }

  /** The oldest `n` messages behind the cursor: as many as there are up to `n`, in the
      order of their ids, and every other message behind the cursor is younger. */
  lemma ListIsTheOldest(msgs: seq<Message>, cursor: int, n: nat)
    requires Ascending(msgs)
    ensures var list, after := FirstOf(After(msgs, cursor), n), (set m | m in msgs && m.id > cursor);
      && Ascending(list) && (forall m :: m in list ==> m in after) && |list| == Min(n, |after|)
      && forall m, x :: m in after && m !in list && x in list ==> x.id < m.id
  {
    var rest := After(msgs, cursor);
    var after := set m | m in msgs && m.id > cursor;
    AfterAscending(msgs, cursor);
    AscendingCount(rest, after);
    forall m, x | m in after && m !in FirstOf(rest, n) && x in FirstOf(rest, n) ensures x.id < m.id {
      assert m in rest;
      BehindFirst(rest, Min(n, |rest|), m, x);
    }
  }

  lemma BehindFirst(rest: seq<Message>, k: nat, m: Message, x: Message)
    requires Ascending(rest) && k <= |rest| && m in rest && m !in rest[..k] && x in rest[..k]
    ensures x.id < m.id
  {
    assert rest == rest[..k] + rest[k..];
    assert m in rest[k..];
    var i :| 0 <= i < |rest[k..]| && rest[k..][i] == m;
    var j :| 0 <= j < |rest[..k]| && rest[..k][j] == x;
    assert rest[k + i] == m && rest[j] == x;
  }

  lemma {:induction false} AscendingCount(list: seq<Message>, members: set<Message>)
    requires Ascending(list) && forall m :: m in list <==> m in members
    ensures |list| == |members|
  {
    if list == [] {
      assert members == {};
    } else {
      var rest, others := list[1..], members - {list[0]};
      forall m ensures m in rest <==> m in others {
        assert m in list <==> m == list[0] || m in rest;
      }
      AscendingCount(rest, others);
    }
  }

  lemma AfterAscending(msgs: seq<Message>, cursor: int)
    requires Ascending(msgs)
    ensures Ascending(After(msgs, cursor))
    ensures forall m :: m in After(msgs, cursor) <==> m in msgs && m.id > cursor
  {
    var k := AfterIsSuffix(msgs, cursor);
    forall m ensures m in After(msgs, cursor) <==> m in msgs && m.id > cursor {
      if m in msgs && m.id > cursor {
        var i :| 0 <= i < |msgs| && msgs[i] == m;
        assert msgs[k..][i - k] == m;
      }
    }
  }

  /** Limits outside 1..500 mean 200. */
  function EffectiveLimit(limit: int): nat {
    if limit <= 0 || limit > 500 then 200 else limit
  }

  /** The newest `n` messages behind the cursor: as many as there are up to `n`, in the
      order of their ids, and every other message behind the cursor is older. */
  lemma TailIsTheNewest(msgs: seq<Message>, cursor: int, n: nat)
    requires Ascending(msgs)
    ensures var list, after := LastOf(After(msgs, cursor), n), (set m | m in msgs && m.id > cursor);
      && Ascending(list) && (forall m :: m in list ==> m in after) && |list| == Min(n, |after|)
      && forall m, x :: m in after && m !in list && x in list ==> m.id < x.id
  {
    var rest := After(msgs, cursor);
    var after := set m | m in msgs && m.id > cursor;
    AfterAscending(msgs, cursor);
    AscendingCount(rest, after);
    forall m, x | m in after && m !in LastOf(rest, n) && x in LastOf(rest, n) ensures m.id < x.id {
      assert m in rest;
      BeforeLast(rest, |rest| - Min(n, |rest|), m, x);
    }
  }

  lemma BeforeLast(rest: seq<Message>, k: nat, m: Message, x: Message)
    requires Ascending(rest) && k <= |rest| && m in rest && m !in rest[k..] && x in rest[k..]
    ensures m.id < x.id
  {
    assert rest == rest[..k] + rest[k..];
    assert m in rest[..k];
    var i :| 0 <= i < |rest[..k]| && rest[..k][i] == m;
    var j :| 0 <= j < |rest[k..]| && rest[k..][j] == x;
    assert rest[i] == m && rest[k + j] == x;
  }

  class ChatStore {
    var messages: seq<Message>

    constructor ()
      ensures messages == []
    {
      messages := [];
    }

    /** `id` is what the shared counter hands out. */
    method Append(id: int, content: string)
      modifies this
      ensures messages == old(messages) + [Message(id, content)]
    {
      messages := messages + [Message(id, content)];
    }

    method List(afterId: int, limit: int) returns (out: seq<Message>)
      ensures out == FirstOf(After(messages, afterId), if 1 <= limit <= 500 then limit else 200)
    {
      out := FirstOf(After(messages, afterId), EffectiveLimit(limit));
    }

    /** The query returns the newest rows newest first; they are reversed in place. */
    method TailAfter(afterId: int, limit: int) returns (out: seq<Message>)
      ensures out == LastOf(After(messages, afterId), if 1 <= limit <= 500 then limit else 200)
    {
      var newest := LastOf(After(messages, afterId), EffectiveLimit(limit));
      var rows := new Message[|newest|](i requires 0 <= i < |newest| => newest[|newest| - 1 - i]);
      assert rows[..] == Reversed(newest);
      ReverseRows(rows);
      out := rows[..];
      assert out == newest;
    }

    /** Keeps the most recent `keep` rows. */
    method PruneKeepLast(keep: int)
      modifies this
      ensures messages == if keep <= 0 then [] else LastOf(old(messages), keep)
    {
      if keep <= 0 {
        messages := [];
      } else if |messages| >= keep {
        messages := messages[|messages| - keep..];
      }
    }
  }

  method ReverseRows(rows: array<Message>)
    modifies rows
    ensures rows[..] == Reversed(old(rows[..]))
  {
    var i, j := 0, rows.Length - 1;
    while i < j
      invariant 0 <= i && i + j == rows.Length - 1 && i <= j + 1
      invariant forall k :: 0 <= k < i || j < k < rows.Length ==> rows[k] == old(rows[rows.Length - 1 - k])
      invariant forall k :: i <= k <= j ==> rows[k] == old(rows[k])
    {
      rows[i], rows[j] := rows[j], rows[i];
      i, j := i + 1, j - 1;
    }
  }

  // ------------------------------------------------------------- compressing

  datatype Options = Options(keep: int, maxSummarize: int, steps: int)

  /** Limits that are not positive mean the default, larger ones the maximum of 500. */
  function Normalize(o: Options): (r: Options)
    ensures 1 <= r.keep <= 500 && 1 <= r.maxSummarize <= 500 && 1 <= r.steps
    ensures Normalized(o) ==> r == o
    ensures o.keep <= 0 ==> r.keep == 40
    ensures o.maxSummarize <= 0 ==> r.maxSummarize == 500
    ensures o.steps <= 0 ==> r.steps == 2
    ensures o.keep > 500 ==> r.keep == 500
    ensures o.maxSummarize > 500 ==> r.maxSummarize == 500
  {
    Options(
      if o.keep <= 0 then 40 else if o.keep > 500 then 500 else o.keep,
      if o.maxSummarize <= 0 then 500 else if o.maxSummarize > 500 then 500 else o.maxSummarize,
      if o.steps <= 0 then 2 else o.steps)
  }

  predicate Normalized(o: Options) {
    1 <= o.keep <= 500 && 1 <= o.maxSummarize <= 500 && 1 <= o.steps
  }

  datatype Record = Record(cursorBefore: int, cursorAfter: int, keepFrom: int, summary: string, failed: bool)

  /** What the summarizer makes of a run of messages: nothing worth sending, an error,
      or a text (which still counts as an error when it is blank). */
  datatype Outcome = NothingToSend | Error | Text(summary: string)

  /** The messages of `head` before the first one of the kept window. */
  function Before(head: seq<Message>, keepFrom: int): seq<Message> {
    if head == [] || head[0].id >= keepFrom then [] else [head[0]] + Before(head[1..], keepFrom)
  }

  method CollectBefore(head: seq<Message>, keepFrom: int) returns (out: seq<Message>)
    ensures out == Before(head, keepFrom)
  {
    out := [];
    var i := 0;
    while i < |head|
      invariant 0 <= i <= |head|
      invariant Before(head, keepFrom) == out + Before(head[i..], keepFrom)
    {
      if head[i].id >= keepFrom { break; }
      assert head[i..][1..] == head[i + 1..];
      out := out + [head[i]];
      i := i + 1;
    }
    assert head[i..] == [] || head[i..][0].id >= keepFrom;
  }

  predicate Blank(m: Message) {
    Trim(m.content) == ""
  }

  function PromptText(m: Message): Message {
    Message(m.id, Trim(m.content))
  }

  /** What the prompt shows of a list: the trimmed messages that are not blank. */
  function Shown(list: seq<Message>): seq<Message> {
    if list == [] then [] else
    var last, early := list[|list| - 1], Shown(list[..|list| - 1]);
    if Blank(last) then early else early + [PromptText(last)]
  }

  /** chatMessagesToPromptHistory */
  method ToPromptHistory(history: seq<Message>) returns (out: seq<Message>)
    ensures out == Shown(history)
  {
    out := [];
    for i := 0 to |history|
      invariant out == Shown(history[..i])
    {
      assert history[..i + 1][..i] == history[..i];
      var content := Trim(history[i].content);
      if content == "" { continue; }
      out := out + [Message(history[i].id, content)];
    }
    assert history[..|history|] == history;
  }

  /** Where a call stands: rows of the compression table, cursor and summary. */
  datatype Progress = Progress(records: seq<Record>, cursor: int, summary: string)

  /** Of the messages behind the cursor, the run the next step would summarize. */
  function RunOf(rest: seq<Message>, o: Options): seq<Message>
    requires Normalized(o)
  {
    if rest == [] then [] else Before(FirstOf(rest, o.maxSummarize), KeepFrom(rest, o))
  }

  /** The id of the first message of the kept window. */
  function KeepFrom(rest: seq<Message>, o: Options): int
    requires Normalized(o) && rest != []
  {
    LastOf(rest, o.keep)[0].id
  }

  /** One iteration; the flag says whether the loop goes on. */
  function Step(msgs: seq<Message>, o: Options, p: Progress, outcome: Outcome): (Progress, bool)
    requires Normalized(o)
  {
    var rest := After(msgs, p.cursor);
    var run := RunOf(rest, o);
    if run == [] || outcome == NothingToSend then (p, false)
    else
      var keepFrom := KeepFrom(rest, o);
      if outcome == Error || Trim(outcome.summary) == "" then
        (p.(records := p.records + [Record(p.cursor, p.cursor, keepFrom, p.summary, true)]), false)
      else
        var next := run[|run| - 1].id;
        (Progress(p.records + [Record(p.cursor, next, keepFrom, outcome.summary, false)], next, outcome.summary), true)
  }

  /** The remaining iterations from the i-th on. */
  function Steps(msgs: seq<Message>, o: Options, p: Progress, outcomes: nat -> Outcome, i: nat): Progress
    requires Normalized(o)
    decreases o.steps - i
  {
    if i >= o.steps then p
    else
      var (q, more) := Step(msgs, o, p, outcomes(i));
      if more then Steps(msgs, o, q, outcomes, i + 1) else q
  }

  function Start(records: seq<Record>): Progress {
    if records == [] then Progress(records, 0, "")
    else
      var last := records[|records| - 1];
      Progress(records, if last.cursorAfter < 0 then 0 else last.cursorAfter, last.summary)
  }

  class Compressor {
    const chat: ChatStore
    const options: Options
    var records: seq<Record>

    constructor (chat: ChatStore, options: Options)
      ensures this.chat == chat && this.options == Normalize(options) && records == []
    {
      this.chat, this.options := chat, Normalize(options);
      records := [];
    }

    method MaybeCompress(outcomes: nat -> Outcome) returns (summary: string, cursor: int)
      requires Normalized(options)
      modifies this
      ensures Progress(records, cursor, summary) == Steps(chat.messages, options, Start(old(records)), outcomes, 0)
    {
      cursor, summary := 0, "";
      if |records| > 0 {
        cursor, summary := records[|records| - 1].cursorAfter, records[|records| - 1].summary;
      }
      if cursor < 0 { cursor := 0; }
      var i, more := 0, true;
      while more && i < options.steps
        invariant 0 <= i <= options.steps
        invariant Steps(chat.messages, options, Start(old(records)), outcomes, 0)
               == if more then Steps(chat.messages, options, Progress(records, cursor, summary), outcomes, i)
                  else Progress(records, cursor, summary)
        decreases options.steps - i
      {
        summary, cursor, more := CompressOnce(summary, cursor, outcomes(i));
        i := i + 1;
      }
    }

    /** The loop body; `more` is false where it breaks. */
    method CompressOnce(summary: string, cursor: int, outcome: Outcome)
      returns (summary': string, cursor': int, more: bool)
      requires Normalized(options)
      modifies this
      ensures (Progress(records, cursor', summary'), more)
           == Step(chat.messages, options, Progress(old(records), cursor, summary), outcome)
    {
      summary', cursor', more := summary, cursor, false;
      var tail := chat.TailAfter(cursor, options.keep);
      if |tail| == 0 { return; }
      var keepFrom := tail[0].id;
      var head := chat.List(cursor, options.maxSummarize);
      var run := CollectBefore(head, keepFrom);
      if |run| == 0 { return; }
      if outcome == NothingToSend { return; }
      if outcome == Error || Trim(outcome.summary) == "" {
        records := records + [Record(cursor, cursor, keepFrom, summary, true)];
        return;
      }
      cursor' := run[|run| - 1].id;
      records := records + [Record(cursor, cursor', keepFrom, outcome.summary, false)];
      summary' := outcome.summary;
      more := true;
    }

    /** The summary and the unsummarized tail that make up the prompt. */
    method PromptHistory(outcomes: nat -> Outcome) returns (summary: string, tail: seq<Message>)
      requires Normalized(options)
      modifies this
      ensures var p := Steps(chat.messages, options, Start(old(records)), outcomes, 0);
        && records == p.records && summary == p.summary
        && tail == Shown(LastOf(After(chat.messages, p.cursor), options.keep))
    {
      var cursor;
      summary, cursor := MaybeCompress(outcomes);
      var list := chat.TailAfter(cursor, options.keep);
      tail := ToPromptHistory(list);
    }
  }

  // --------------------------------------------------------------- one call

  lemma {:induction false} BeforePrefix(head: seq<Message>, keepFrom: int, n: nat)
    requires n <= |head| && (forall i :: 0 <= i < n ==> head[i].id < keepFrom)
    requires n < |head| ==> head[n].id >= keepFrom
    ensures Before(head, keepFrom) == head[..n]
  {
    if n > 0 {
      BeforePrefix(head[1..], keepFrom, n - 1);
    }
  }

  /** The run consists of the oldest messages behind the cursor: as many as allowed,
      but none of the kept window. */
  lemma RunIsPrefix(rest: seq<Message>, o: Options)
    requires Normalized(o) && Ascending(rest)
    ensures RunOf(rest, o) == if |rest| <= o.keep then [] else rest[..Min(o.maxSummarize, |rest| - o.keep)]
  {
    if rest != [] {
      var head := FirstOf(rest, o.maxSummarize);
      var n := if |rest| <= o.keep then 0 else Min(o.maxSummarize, |rest| - o.keep);
      assert KeepFrom(rest, o) == rest[|rest| - Min(o.keep, |rest|)].id;
      BeforePrefix(head, KeepFrom(rest, o), n);
      assert head[..n] == rest[..n];
    }
  }

  /** Moving the cursor onto the n-th message behind it drops just those n. */
  lemma CursorPastRun(msgs: seq<Message>, cursor: int, n: nat)
    requires Ascending(msgs) && 0 < n <= |After(msgs, cursor)|
    ensures var next := After(msgs, cursor)[n - 1].id;
      next > cursor && After(msgs, next) == After(msgs, cursor)[n..]
  {
    var k := AfterIsSuffix(msgs, cursor);
    var last := k + n - 1;
    assert After(msgs, cursor)[n - 1] == msgs[last];
    var l := AfterIsSuffix(msgs, msgs[last].id);
    assert l > last;
    if last + 1 < |msgs| { assert msgs[last + 1].id > msgs[last].id; }
    assert l == last + 1;
    assert msgs[l..] == msgs[k..][n..];
  }

  predicate Between(m: Message, from: int, to: int) {
    from < m.id <= to
  }

  /** The first `n` messages behind the cursor are those up to the n-th one's id. */
  lemma RunMembers(msgs: seq<Message>, cursor: int, rest: seq<Message>, n: nat)
    requires Ascending(msgs) && rest == After(msgs, cursor) && 0 < n <= |rest|
    ensures forall m :: m in rest[..n] <==> m in msgs && Between(m, cursor, rest[n - 1].id)
  {
    AfterAscending(msgs, cursor);
    forall m ensures m in rest[..n] <==> m in rest && m.id <= rest[n - 1].id { PrefixMembers(rest, n, m); }
  }

  lemma PrefixMembers(rest: seq<Message>, n: nat, m: Message)
    requires Ascending(rest) && 0 < n <= |rest|
    ensures m in rest[..n] <==> m in rest && m.id <= rest[n - 1].id
  {
    if m in rest {
      var i :| 0 <= i < |rest| && rest[i] == m;
      if i < n { assert rest[..n][i] == m; }
    }
    if m in rest[..n] {
      var i :| 0 <= i < n && rest[..n][i] == m;
      assert rest[i] == m;
    }
  }

  /** A successful step summarizes exactly the messages between old and new cursor:
      at least one, all before the kept window, and the rest behind stays. */
  lemma StepSummarizesARun(msgs: seq<Message>, o: Options, p: Progress, outcome: Outcome, rest: seq<Message>,
                           run: seq<Message>, q: Progress)
    requires Normalized(o) && Ascending(msgs) && (q, true) == Step(msgs, o, p, outcome)
    requires rest == After(msgs, p.cursor) && run == RunOf(rest, o)
    ensures run != [] && p.cursor < q.cursor && outcome.Text? && q.summary == outcome.summary
    ensures rest != [] && q.cursor < KeepFrom(rest, o)
    ensures q.records == p.records + [Record(p.cursor, q.cursor, KeepFrom(rest, o), q.summary, false)]
    ensures |rest| > o.keep && |run| == Min(o.maxSummarize, |rest| - o.keep) && After(msgs, q.cursor) == rest[|run|..]
    ensures forall m :: m in run <==> m in msgs && Between(m, p.cursor, q.cursor)
  {
    StepShape(msgs, o, p, outcome, rest, run, q);
    RunFacts(msgs, o, p.cursor, rest, run, run[|run| - 1].id);
  }

  lemma RunFacts(msgs: seq<Message>, o: Options, cursor: int, rest: seq<Message>, run: seq<Message>, next: int)
    requires Normalized(o) && Ascending(msgs) && rest == After(msgs, cursor) && run == RunOf(rest, o) && run != []
    requires next == run[|run| - 1].id
    ensures rest != [] && cursor < next < KeepFrom(rest, o)
    ensures |rest| > o.keep && |run| == Min(o.maxSummarize, |rest| - o.keep) && After(msgs, next) == rest[|run|..]
    ensures forall m :: m in run <==> m in msgs && Between(m, cursor, next)
  {
    AfterAscending(msgs, cursor);
    RunIsPrefix(rest, o);
    LastOfRun(rest, o);
    CursorPastRun(msgs, cursor, |run|);
    RunMembers(msgs, cursor, rest, |run|);
  }

  lemma StepShape(msgs: seq<Message>, o: Options, p: Progress, outcome: Outcome, rest: seq<Message>,
                  run: seq<Message>, q: Progress)
    requires Normalized(o) && (q, true) == Step(msgs, o, p, outcome)
    requires rest == After(msgs, p.cursor) && run == RunOf(rest, o)
    ensures run != [] && rest != [] && q.cursor == run[|run| - 1].id && outcome.Text? && q.summary == outcome.summary
    ensures q.records == p.records + [Record(p.cursor, q.cursor, KeepFrom(rest, o), q.summary, false)]
  {
  }

  lemma LastOfRun(rest: seq<Message>, o: Options)
    requires Normalized(o) && Ascending(rest) && RunOf(rest, o) != []
    ensures var run := RunOf(rest, o);
      |run| <= |rest| && run[|run| - 1] == rest[|run| - 1] && rest[|run| - 1].id < KeepFrom(rest, o)
  {
    RunIsPrefix(rest, o);
    assert KeepFrom(rest, o) == rest[|rest| - o.keep].id;
  }

  /** A step with nothing behind the cursor to summarize, or nothing worth sending, leaves
      everything as it is; one whose summary fails or is blank leaves an error row, with
      cursor and summary unmoved. Neither goes on. */
  lemma StepStops(msgs: seq<Message>, o: Options, p: Progress, outcome: Outcome, rest: seq<Message>, q: Progress,
                  more: bool)
    requires Normalized(o) && Ascending(msgs) && rest == After(msgs, p.cursor)
    requires (q, more) == Step(msgs, o, p, outcome)
    ensures more <==> |rest| > o.keep && outcome.Text? && !White(outcome.summary)
    ensures !more ==> q.cursor == p.cursor && q.summary == p.summary
    ensures !more && (|rest| <= o.keep || outcome == NothingToSend) ==> q == p
    ensures !more && |rest| > o.keep && outcome != NothingToSend ==>
      q.records == p.records + [Record(p.cursor, p.cursor, rest[|rest| - o.keep].id, p.summary, true)]
  {
    AfterAscending(msgs, p.cursor);
    RunIsPrefix(rest, o);
    if outcome.Text? { TrimEmptyIsWhite(outcome.summary); }
    if |rest| > o.keep {
      KeptWindow(rest, o);
      StepOn(msgs, o, p, outcome, rest, q, more);
    }
  }

  lemma StepOn(msgs: seq<Message>, o: Options, p: Progress, outcome: Outcome, rest: seq<Message>, q: Progress,
               more: bool)
    requires Normalized(o) && rest == After(msgs, p.cursor) && rest != [] && RunOf(rest, o) != []
    requires (q, more) == Step(msgs, o, p, outcome)
    ensures more <==> outcome.Text? && Trim(outcome.summary) != ""
    ensures outcome == NothingToSend ==> q == p
    ensures !more && outcome != NothingToSend ==>
      q == Progress(p.records + [Record(p.cursor, p.cursor, KeepFrom(rest, o), p.summary, true)], p.cursor, p.summary)
  {
  }

  /** Where the kept window begins. */
  lemma KeptWindow(rest: seq<Message>, o: Options)
    requires Normalized(o) && |rest| > o.keep
    ensures KeepFrom(rest, o) == rest[|rest| - o.keep].id
  {
  }

  /** Where a call begins: behind the latest row, or at the very beginning. */
  lemma StartIs(records: seq<Record>)
    ensures records == [] ==> Start(records).cursor == 0 && Start(records).summary == ""
    ensures records != [] ==>
      && Start(records).summary == records[|records| - 1].summary
      && Start(records).cursor
         == if records[|records| - 1].cursorAfter > 0 then records[|records| - 1].cursorAfter else 0
    ensures Start(records).records == records
  {
  }

  /** All summaries succeed with text. */
  ghost predicate AllSucceed(outcomes: nat -> Outcome) {
    forall i {:trigger Succeeds(outcomes(i))} :: Succeeds(outcomes(i))
  }

  predicate Succeeds(outcome: Outcome) {
    outcome.Text? && Trim(outcome.summary) != ""
  }

  /** How many messages so many summaries can cover. */
  function Room(o: Options, steps: nat): nat
    requires Normalized(o)
  {
    if steps == 0 then 0 else o.maxSummarize + Room(o, steps - 1)
  }

  lemma {:induction false} RoomIs(o: Options, steps: nat)
    requires Normalized(o)
    ensures Room(o, steps) == steps * o.maxSummarize
  {
    if steps > 0 { RoomIs(o, steps - 1); }
  }

  /** How many of `n` messages they do cover: none of the kept window. */
  function Covered(o: Options, steps: nat, n: nat): nat
    requires Normalized(o)
  {
    if n <= o.keep then 0 else Min(Room(o, steps), n - o.keep)
  }

  lemma CoveredStep(o: Options, steps: nat, n: nat, m: nat)
    requires Normalized(o) && steps > 0 && n > o.keep && m == Min(o.maxSummarize, n - o.keep)
    ensures Covered(o, steps, n) == m + Covered(o, steps - 1, n - m)
  {
  }

  /** How many messages are behind the cursor. */
  function Behind(msgs: seq<Message>, p: Progress): nat {
    |After(msgs, p.cursor)|
  }

  lemma SucceedingStep(msgs: seq<Message>, o: Options, p: Progress, outcome: Outcome, q: Progress, more: bool)
    requires Normalized(o) && Ascending(msgs) && Succeeds(outcome) && (q, more) == Step(msgs, o, p, outcome)
    ensures more <==> Behind(msgs, p) > o.keep
    ensures more ==> Behind(msgs, q) == Behind(msgs, p) - Min(o.maxSummarize, Behind(msgs, p) - o.keep)
    ensures !more ==> q == p
  {
    AfterAscending(msgs, p.cursor);
    RunIsPrefix(After(msgs, p.cursor), o);
    if more {
      StepSummarizesARun(msgs, o, p, outcome, After(msgs, p.cursor), RunOf(After(msgs, p.cursor), o), q);
    }
  }

  /** Where the steps from the i-th on end. */
  function EndOf(msgs: seq<Message>, o: Options, p: Progress, outcomes: nat -> Outcome, i: nat): Progress
    requires Normalized(o)
  {
    Steps(msgs, o, p, outcomes, i)
  }

  lemma FirstStepCovers(msgs: seq<Message>, o: Options, p: Progress, outcomes: nat -> Outcome, i: nat, b: nat)
    returns (q: Progress)
    requires Normalized(o) && Ascending(msgs) && AllSucceed(outcomes) && i < o.steps && b == Behind(msgs, p)
    ensures b <= o.keep ==> EndOf(msgs, o, p, outcomes, i) == p
    ensures b > o.keep ==>
      && EndOf(msgs, o, p, outcomes, i) == EndOf(msgs, o, q, outcomes, i + 1)
      && Behind(msgs, q) == b - Min(o.maxSummarize, b - o.keep)
  {
    var more;
    assert Succeeds(outcomes(i));
    q, more := Step(msgs, o, p, outcomes(i)).0, Step(msgs, o, p, outcomes(i)).1;
    SucceedingStep(msgs, o, p, outcomes(i), q, more);
  }

  /** The steps cover as much as there is room for. */
  lemma {:induction false} StepsCover(msgs: seq<Message>, o: Options, p: Progress, outcomes: nat -> Outcome,
                                      i: nat, left: nat, b: nat)
    requires Normalized(o) && Ascending(msgs) && AllSucceed(outcomes) && i + left == o.steps && b == Behind(msgs, p)
    ensures Behind(msgs, EndOf(msgs, o, p, outcomes, i)) == b - Covered(o, left, b)
    decreases left
  {
    if left > 0 {
      var q := FirstStepCovers(msgs, o, p, outcomes, i, b);
      if b > o.keep {
        var m := Min(o.maxSummarize, b - o.keep);
        CoveredStep(o, left, b, m);
        StepsCover(msgs, o, q, outcomes, i + 1, left - 1, b - m);
      }
    }
  }

  /** Fewer messages behind a later cursor are the younger ones. */
  lemma LaterIsSuffix(msgs: seq<Message>, from: int, to: int)
    requires Ascending(msgs) && |After(msgs, to)| <= |After(msgs, from)|
    ensures After(msgs, to) == After(msgs, from)[|After(msgs, from)| - |After(msgs, to)|..]
  {
    var k := AfterIsSuffix(msgs, from);
    var l := AfterIsSuffix(msgs, to);
    assert msgs[l..] == msgs[k..][l - k..];
  }

  /** The prompt shows every message the summary does not cover, blank ones apart. */
  ghost predicate OmitsNothing(msgs: seq<Message>, o: Options, cursor: int)
    requires Normalized(o)
  {
    ShowsAll(After(msgs, cursor), Shown(LastOf(After(msgs, cursor), o.keep)))
  }

  ghost predicate ShowsAll(rest: seq<Message>, shown: seq<Message>) {
    forall i :: 0 <= i < |rest| && !Blank(rest[i]) ==> PromptText(rest[i]) in shown
  }

  lemma {:induction false} ShownIff(list: seq<Message>, id: int)
    ensures forall x :: x in Shown(list) && x.id == id ==> HasText(list, id)
    ensures forall i :: 0 <= i < |list| && !Blank(list[i]) ==> PromptText(list[i]) in Shown(list)
  {
    if list != [] {
      var early, last := list[..|list| - 1], list[|list| - 1];
      ShownIff(early, id);
      assert list == early + [last];
      if HasText(early, id) {
        var i :| 0 <= i < |early| && early[i].id == id && !Blank(early[i]);
        assert list[i] == early[i];
      }
    }
  }

  /** What the prompt shows: the messages with text, trimmed. */
  lemma {:induction false} ShownIs(list: seq<Message>, x: Message)
    ensures x in Shown(list) <==> ShowsFrom(list, x)
  {
    if list != [] {
      var n := |list| - 1;
      ShownIs(list[..n], x);
      ShowsFromSnoc(list[..n], list[n], list, x);
      LastShown(list[n], x);
    }
  }

  ghost predicate ShowsFrom(list: seq<Message>, x: Message) {
    exists i :: 0 <= i < |list| && ShownAs(list[i], x)
  }

  lemma ShowsFromSnoc(early: seq<Message>, last: Message, list: seq<Message>, x: Message)
    requires list != [] && early == list[..|list| - 1] && last == list[|list| - 1]
    ensures ShowsFrom(list, x) <==> ShowsFrom(early, x) || ShownAs(last, x)
  {
    if i :| 0 <= i < |early| && ShownAs(early[i], x) { assert ShownAs(list[i], x); }
    if i :| 0 <= i < |list| && ShownAs(list[i], x) { assert i < |early| ==> ShownAs(early[i], x); }
  }

  lemma LastShown(last: Message, x: Message)
    ensures ShownAs(last, x) <==> !Blank(last) && x == PromptText(last)
  {
    TrimEmptyIsWhite(last.content);
  }

  /** They are shown in their order. */
  lemma {:induction false} ShownInOrder(list: seq<Message>)
    requires Ascending(list)
    ensures Ascending(Shown(list))
  {
    if list != [] {
      ShownInOrder(list[..|list| - 1]);
      ShownIsEarlier(list[..|list| - 1], list[|list| - 1].id);
    }
  }

  predicate ShownAs(m: Message, x: Message) {
    !White(m.content) && x == Message(m.id, Trim(m.content))
  }

  lemma {:induction false} ShownIsEarlier(list: seq<Message>, id: int)
    requires forall i :: 0 <= i < |list| ==> list[i].id < id
    ensures forall i :: 0 <= i < |Shown(list)| ==> Shown(list)[i].id < id
  {
    if list != [] { ShownIsEarlier(list[..|list| - 1], id); }
  }

  ghost predicate HasText(list: seq<Message>, id: int) {
    exists i :: 0 <= i < |list| && list[i].id == id && !Blank(list[i])
  }

  predicate AllBlank(list: seq<Message>, from: int, to: int) {
    forall i | 0 <= i < |list| && from <= i < to :: Blank(list[i])
  }

  lemma ShownInTail(rest: seq<Message>, tail: seq<Message>, k: nat, i: nat)
    requires Ascending(rest) && k <= |rest| && tail == rest[k..] && i < |rest| && !Blank(rest[i])
    ensures PromptText(rest[i]) in Shown(tail) <==> i >= k
  {
    ShownIff(tail, rest[i].id);
    if i >= k {
      assert tail[i - k] == rest[i];
    } else {
      forall j | 0 <= j < |tail| ensures tail[j].id != rest[i].id { assert tail[j] == rest[k + j]; }
      assert !HasText(tail, rest[i].id);
    }
  }

  lemma TailCoversIff(rest: seq<Message>, n: nat)
    requires Ascending(rest)
    ensures ShowsAll(rest, Shown(LastOf(rest, n))) <==> AllBlank(rest, 0, |rest| - n)
  {
    var tail := LastOf(rest, n);
    var k := |rest| - |tail|;
    forall i | 0 <= i < |rest| && !Blank(rest[i]) ensures PromptText(rest[i]) in Shown(tail) <==> i >= k {
      ShownInTail(rest, tail, k, i);
    }
  }

  lemma OmitsNothingIffGapIsBlank(msgs: seq<Message>, o: Options, start: Progress, end: Progress, rest: seq<Message>)
    requires Normalized(o) && Ascending(msgs) && rest == After(msgs, start.cursor)
    requires Behind(msgs, end) == |rest| - Covered(o, o.steps, |rest|)
    ensures OmitsNothing(msgs, o, end.cursor) <==> AllBlank(rest, o.steps * o.maxSummarize, |rest| - o.keep)
  {
    var n := Covered(o, o.steps, |rest|);
    LaterIsSuffix(msgs, start.cursor, end.cursor);
    OmitsNothingIff(msgs, o, end.cursor, rest[n..]);
    RoomIs(o, o.steps);
    GapIsBlank(rest, n, Room(o, o.steps), o.keep);
  }

  lemma OmitsNothingIff(msgs: seq<Message>, o: Options, cursor: int, rest: seq<Message>)
    requires Normalized(o) && Ascending(msgs) && rest == After(msgs, cursor)
    ensures OmitsNothing(msgs, o, cursor) <==> AllBlank(rest, 0, |rest| - o.keep)
  {
    AfterAscending(msgs, cursor);
    TailCoversIff(rest, o.keep);
  }

  /** When all summaries succeed, the prompt (summary and tail at the cursor the call
      ends with) omits no message that has text exactly when those behind the first
      steps * maxSummarize ones, and before the last `keep` ones, are all blank. */
  lemma PromptOmitsNothingIff(msgs: seq<Message>, o: Options, start: Progress, outcomes: nat -> Outcome, end: Progress,
                              rest: seq<Message>)
    requires Normalized(o) && Ascending(msgs) && AllSucceed(outcomes)
    requires rest == After(msgs, start.cursor) && end == Steps(msgs, o, start, outcomes, 0)
    ensures OmitsNothing(msgs, o, end.cursor) <==> AllBlank(rest, o.steps * o.maxSummarize, |rest| - o.keep)
  {
    StepsCover(msgs, o, start, outcomes, 0, o.steps, |rest|);
    OmitsNothingIffGapIsBlank(msgs, o, start, end, rest);
  }

  lemma GapIsBlank(rest: seq<Message>, covered: nat, room: nat, keep: nat)
    requires covered == (if |rest| <= keep then 0 else Min(room, |rest| - keep))
    ensures AllBlank(rest[covered..], 0, |rest[covered..]| - keep) <==> AllBlank(rest, room, |rest| - keep)
  {
    var left := rest[covered..];
    if AllBlank(left, 0, |left| - keep) {
      forall i | 0 <= i < |rest| && room <= i < |rest| - keep ensures Blank(rest[i]) {
        assert left[i - covered] == rest[i];
      }
    }
    if AllBlank(rest, room, |rest| - keep) {
      forall i | 0 <= i < |left| && 0 <= i < |left| - keep ensures Blank(left[i]) {
        assert left[i] == rest[covered + i];
      }
    }
  }

  // ------------------------------------- whole runs of calls that do not overlap

  /** What one successful summary covered. */
  datatype Summary = Summary(from: int, to: int, keepFrom: int, ids: seq<int>)

  /** The conversation over time, with one call at work at a time; ConcurrentCompression
      has the calls that overlap. `appended` collects every id ever appended, `lost` those
      pruned before any summary covered them. */
  datatype World = World(
    msgs: seq<Message>, records: seq<Record>, log: seq<Summary>, appended: set<int>, lost: set<int>)

  datatype Event =
    | Append(id: int, content: string)
    | Prune(keep: int)
    | Summarize(outcome: Outcome)

  function Ids(msgs: seq<Message>): (ids: seq<int>)
    ensures |ids| == |msgs| && forall i :: 0 <= i < |msgs| ==> ids[i] == msgs[i].id
  {
    seq(|msgs|, i requires 0 <= i < |msgs| => msgs[i].id)
  }

  function Pruned(msgs: seq<Message>, keep: int): seq<Message> {
    if keep <= 0 then [] else LastOf(msgs, keep)
  }

  predicate Enabled(w: World, e: Event) {
    e.Append? ==> e.id > 0 && (forall i | i in w.appended :: i < e.id)
  }

  function Apply(w: World, o: Options, e: Event): World
    requires Normalized(o)
  {
    match e
    case Append(id, content) => w.(msgs := w.msgs + [Message(id, content)], appended := w.appended + {id})
    case Prune(keep) =>
      w.(msgs := Pruned(w.msgs, keep),
         lost := w.lost + set m | m in w.msgs && m !in Pruned(w.msgs, keep) && m.id > Start(w.records).cursor :: m.id)
    case Summarize(outcome) =>
      var p := Start(w.records);
      var (q, more) := Step(w.msgs, o, p, outcome);
      var rest := After(w.msgs, p.cursor);
      w.(records := q.records,
         log := if more then w.log + [Summary(p.cursor, q.cursor, KeepFrom(rest, o), Ids(RunOf(rest, o)))] else w.log)
  }

  ghost predicate Next(o: Options, w: World, w': World)
    requires Normalized(o)
  {
    exists e :: Enabled(w, e) && w' == Apply(w, o, e)
  }

  ghost predicate Run(o: Options, ws: seq<World>)
    requires Normalized(o)
  {
    && |ws| > 0 && ws[0] == World([], [], [], {}, {})
    && forall i :: 0 <= i < |ws| - 1 ==> Next(o, ws[i], ws[i + 1])
  }

  /** The successful summaries follow one another without gap or overlap. */
  predicate Chained(log: seq<Summary>, cursor: int) {
    && (forall i :: 0 <= i < |log| ==> log[i].from < log[i].to < log[i].keepFrom && log[i].ids != [])
    && (forall i :: 0 <= i < |log| - 1 ==> log[i].to == log[i + 1].from)
    && (log == [] ==> cursor == 0)
    && (log != [] ==> log[0].from == 0 && log[|log| - 1].to == cursor)
    && (forall i, k :: 0 <= i < |log| && k in log[i].ids ==> log[i].from < k <= log[i].to)
  }

  ghost predicate Summarized(log: seq<Summary>, id: int) {
    exists i :: 0 <= i < |log| && id in log[i].ids
  }

  ghost predicate Present(msgs: seq<Message>, id: int) {
    exists m :: m in msgs && m.id == id
  }

  /** Every message ever appended was lost to pruning, was summarized if it lies up to
      the cursor, and is still there if it lies behind it. */
  ghost predicate Accounted(w: World) {
    forall id :: id in w.appended && id !in w.lost ==>
      if id <= Start(w.records).cursor then Summarized(w.log, id) else Present(w.msgs, id)
  }

  ghost predicate Invariant(w: World) {
    && Ascending(w.msgs) && Chained(w.log, Start(w.records).cursor) && Accounted(w)
    && (forall m :: m in w.msgs ==> m.id in w.appended)
    && (forall id :: id in w.appended ==> id > 0)
    && (Start(w.records).cursor == 0 || Start(w.records).cursor in w.appended)
  }

  /** A call runs its steps one after the other: each starts where the records of the
      previous one say, as the first one does. */
  lemma StepKeepsStart(msgs: seq<Message>, o: Options, records: seq<Record>, outcome: Outcome)
    requires Normalized(o) && Ascending(msgs)
    ensures var p := Start(records);
      var q := Step(msgs, o, p, outcome).0;
      p.cursor <= q.cursor && q == Start(q.records)
  {
    var p := Start(records);
    var rest := After(msgs, p.cursor);
    if Step(msgs, o, p, outcome).1 {
      StepSummarizesARun(msgs, o, p, outcome, rest, RunOf(rest, o), Step(msgs, o, p, outcome).0);
    }
  }

  lemma AppendStep(w: World, o: Options, e: Event)
    requires Normalized(o) && Invariant(w) && Enabled(w, e) && e.Append?
    ensures Invariant(Apply(w, o, e))
  {
    var w' := Apply(w, o, e);
    assert w'.msgs[|w.msgs|] == Message(e.id, e.content);
    forall i | 0 <= i < |w.msgs| ensures w.msgs[i].id < e.id { assert w.msgs[i] in w.msgs; }
    forall id | id in w.appended && Present(w.msgs, id) ensures Present(w'.msgs, id) {
      var m :| m in w.msgs && m.id == id;
      assert m in w'.msgs;
    }
  }

  lemma LastOfSuffix(msgs: seq<Message>, n: nat)
    requires Ascending(msgs)
    ensures Ascending(LastOf(msgs, n)) && forall m :: m in LastOf(msgs, n) ==> m in msgs
  {
  }

  lemma PruneStep(w: World, o: Options, e: Event)
    requires Normalized(o) && Invariant(w) && e.Prune?
    ensures Invariant(Apply(w, o, e))
  {
    var w' := Apply(w, o, e);
    if e.keep > 0 { LastOfSuffix(w.msgs, e.keep); }
    forall id | id in w.appended && id !in w'.lost && id > Start(w.records).cursor ensures Present(w'.msgs, id) {
      var m :| m in w.msgs && m.id == id;
      assert m in w'.msgs;
    }
  }

  lemma ExtendChain(log: seq<Summary>, cursor: int, added: Summary)
    requires Chained(log, cursor) && added.from == cursor < added.to < added.keepFrom && added.ids != []
    requires forall k :: k in added.ids ==> added.from < k <= added.to
    ensures Chained(log + [added], added.to)
  {
  }

  /** The run's ids are those of the messages between the cursors. */
  lemma RunIds(msgs: seq<Message>, run: seq<Message>, from: int, to: int)
    requires forall m :: m in run <==> m in msgs && Between(m, from, to)
    ensures forall k :: k in Ids(run) ==> from < k <= to
    ensures forall k :: from < k <= to && Present(msgs, k) ==> k in Ids(run)
  {
    forall k | k in Ids(run) ensures from < k <= to {
      var i :| 0 <= i < |run| && Ids(run)[i] == k;
      assert run[i] in run && Between(run[i], from, to);
    }
    forall k | from < k <= to && Present(msgs, k) ensures k in Ids(run) {
      var m :| m in msgs && m.id == k;
      assert Between(m, from, to) && m in run;
      var i :| 0 <= i < |run| && run[i] == m;
      assert Ids(run)[i] == k;
    }
  }

  lemma SummarizedGrows(log: seq<Summary>, added: Summary, id: int)
    ensures Summarized(log + [added], id) <==> Summarized(log, id) || id in added.ids
  {
    if Summarized(log, id) {
      var i :| 0 <= i < |log| && id in log[i].ids;
      assert (log + [added])[i] == log[i];
    }
    if id in added.ids { assert (log + [added])[|log|] == added; }
  }

  lemma SummarizeAccounts(w: World, o: Options, outcome: Outcome)
    requires Normalized(o) && Invariant(w) && Step(w.msgs, o, Start(w.records), outcome).1
    ensures var w' := Apply(w, o, Summarize(outcome));
      Accounted(w') && Chained(w'.log, Start(w'.records).cursor) && Start(w'.records).cursor in w.appended
  {
    var w', p := Apply(w, o, Summarize(outcome)), Start(w.records);
    var q, run := Step(w.msgs, o, p, outcome).0, RunOf(After(w.msgs, p.cursor), o);
    StepSummarizesARun(w.msgs, o, p, outcome, After(w.msgs, p.cursor), run, q);
    StepKeepsStart(w.msgs, o, w.records, outcome);
    RunIds(w.msgs, run, p.cursor, q.cursor);
    var added := w'.log[|w.log|];
    assert added.ids == Ids(run) && w'.log == w.log + [added];
    ExtendChain(w.log, p.cursor, added);
    forall id { SummarizedGrows(w.log, added, id); }
    assert run[|run| - 1] in run;
  }

  lemma SummarizeStep(w: World, o: Options, e: Event)
    requires Normalized(o) && Invariant(w) && e.Summarize?
    ensures Invariant(Apply(w, o, e))
  {
    StepKeepsStart(w.msgs, o, w.records, e.outcome);
    if Step(w.msgs, o, Start(w.records), e.outcome).1 {
      SummarizeAccounts(w, o, e.outcome);
    } else {
      StepWithoutSummary(w.msgs, o, w.records, e.outcome);
    }
  }

  lemma StepWithoutSummary(msgs: seq<Message>, o: Options, records: seq<Record>, outcome: Outcome)
    requires Normalized(o) && !Step(msgs, o, Start(records), outcome).1
    ensures Start(Step(msgs, o, Start(records), outcome).0.records).cursor == Start(records).cursor
  {
  }

  lemma {:induction false} RunInvariant(o: Options, ws: seq<World>, i: nat)
    requires Normalized(o) && Run(o, ws) && i < |ws|
    ensures Invariant(ws[i])
  {
    if i > 0 {
      RunInvariant(o, ws, i - 1);
      assert Next(o, ws[i - 1], ws[i]);
      var e :| Enabled(ws[i - 1], e) && ws[i] == Apply(ws[i - 1], o, e);
      match e
      case Append(_, _) => AppendStep(ws[i - 1], o, e);
      case Prune(_) => PruneStep(ws[i - 1], o, e);
      case Summarize(_) => SummarizeStep(ws[i - 1], o, e);
    }
  }

  lemma NextKeepsCursor(o: Options, w: World, w': World)
    requires Normalized(o) && Invariant(w) && Next(o, w, w')
    ensures Start(w.records).cursor <= Start(w'.records).cursor
  {
    var e :| Enabled(w, e) && w' == Apply(w, o, e);
    if e.Summarize? { StepKeepsStart(w.msgs, o, w.records, e.outcome); }
  }

  lemma RunKeepsCursor(o: Options, ws: seq<World>, i: nat)
    requires Normalized(o) && Run(o, ws) && i + 1 < |ws|
    ensures CursorAt(ws, i) <= CursorAt(ws, i + 1)
  {
    RunInvariant(o, ws, i);
    NextKeepsCursor(o, ws[i], ws[i + 1]);
  }

  function CursorAt(ws: seq<World>, i: nat): int
    requires i < |ws|
  {
    Start(ws[i].records).cursor
  }

  lemma {:induction false} Climbs(ws: seq<World>, i: nat, j: nat)
    requires i <= j < |ws| && forall k :: 0 <= k < |ws| - 1 ==> CursorAt(ws, k) <= CursorAt(ws, k + 1)
    ensures CursorAt(ws, i) <= CursorAt(ws, j)
  {
    if i < j {
      Climbs(ws, i, j - 1);
      assert CursorAt(ws, j - 1) <= CursorAt(ws, j - 1 + 1);
    }
  }

  /** Over any stretch of a run of calls that do not overlap, the cursor never moves back. */
  lemma CursorNeverMovesBack(o: Options, ws: seq<World>, i: nat, j: nat)
    requires Normalized(o) && Run(o, ws) && i <= j < |ws|
    ensures CursorAt(ws, i) <= CursorAt(ws, j)
  {
    forall k | 0 <= k < |ws| - 1 { RunKeepsCursor(o, ws, k); }
    Climbs(ws, i, j);
  }

  lemma {:induction false} ChainOrder(log: seq<Summary>, cursor: int, i: nat, j: nat)
    requires Chained(log, cursor) && i < j < |log|
    ensures log[i].to <= log[j].from
  {
    if i < j - 1 { ChainOrder(log, cursor, i, j - 1); }
  }

  /** While calls do not overlap, the successful summaries cover consecutive, disjoint,
      non-empty runs of messages that end before the kept window, starting from the
      beginning, and no message falls between them unless pruning removed it first. */
  lemma SummariesCoverTheConversation(o: Options, ws: seq<World>, i: nat)
    requires Normalized(o) && Run(o, ws) && i < |ws|
    ensures Chained(ws[i].log, Start(ws[i].records).cursor)
    ensures forall a, b, k :: 0 <= a < b < |ws[i].log| && k in ws[i].log[a].ids ==> k !in ws[i].log[b].ids
    ensures Accounted(ws[i])
  {
    RunInvariant(o, ws, i);
    var log := ws[i].log;
    forall a, b, k | 0 <= a < b < |log| && k in log[a].ids ensures k !in log[b].ids {
      ChainOrder(log, Start(ws[i].records).cursor, a, b);
    }
  }
}
