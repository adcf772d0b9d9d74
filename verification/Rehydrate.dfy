/** The prompt that continues a conversation in a fresh worker session
    (internal/tasks/rehydrate_prompt.go): a window over past runs, limited in bytes. */
module Rehydrate {
  import opened Sorting
  import opened Text
  import opened Wrappers

  const MAX_BYTES := 60000

  datatype Run = Run(id: string, conversation: string, prompt: string, createdAt: int, answers: seq<string>)

  datatype Error = ConversationRequired

  /** Bytes of a character in UTF-8 (section 3 of RFC 3629). */
  function Width(c: char): nat {
    if c < '\U{80}' then 1 else if c < '\U{800}' then 2 else if c < '\U{10000}' then 3 else 4
  }

  /** len(s) */
  function Bytes(s: string): nat {
    if s == "" then 0 else Bytes(s[..|s| - 1]) + Width(s[|s| - 1])
  }

  lemma {:induction false} BytesAppend(a: string, b: string)
    ensures Bytes(a + b) == Bytes(a) + Bytes(b)
  {
    if b == "" {
      assert a + b == a;
    } else {
      assert (a + b)[..|a + b| - 1] == a + b[..|b| - 1];
      BytesAppend(a, b[..|b| - 1]);
    }
  }

  lemma {:induction false} BytesGrow(s: string, m: nat, n: nat)
    requires m <= n <= |s|
    ensures Bytes(s[..m]) <= Bytes(s[..n]) && (m < n ==> Bytes(s[..m]) < Bytes(s[..n]))
  {
    if m < n {
      BytesGrow(s, m, n - 1);
      assert s[..n][..n - 1] == s[..n - 1];
    }
  }

  // -------------------------------------------------------------- the window

  function Total(segments: seq<string>): nat {
    if segments == [] then 0 else Bytes(segments[0]) + Total(segments[1..])
  }

  /** The longest run of last segments that fits, or the last one alone. */
  function Kept(segments: seq<string>, max: nat): seq<string> {
    if |segments| <= 1 || Total(segments) <= max then segments else Kept(segments[1..], max)
  }

  lemma {:induction false} TotalAppend(segments: seq<string>, s: string)
    ensures Total(segments + [s]) == Total(segments) + Bytes(s)
  {
    if segments != [] {
      assert (segments + [s])[1..] == segments[1..] + [s];
      TotalAppend(segments[1..], s);
    }
  }

  lemma {:induction false} TotalGrows(segments: seq<string>, d: nat)
    requires d <= |segments|
    ensures Total(segments[d..]) <= Total(segments)
  {
    if d > 0 {
      assert segments[1..][d - 1..] == segments[d..];
      TotalGrows(segments[1..], d - 1);
    }
  }

  /** Kept is a suffix, it fits unless it is the last segment alone, and no longer
      suffix fits. */
  lemma {:induction false} KeptIsLongestSuffix(segments: seq<string>, max: nat) returns (dropped: nat)
    ensures dropped <= |segments| && Kept(segments, max) == segments[dropped..]
    ensures segments != [] ==> dropped < |segments| && (Total(segments[dropped..]) <= max || dropped == |segments| - 1)
    ensures forall d :: 0 <= d < dropped ==> Total(segments[d..]) > max
  {
    if |segments| <= 1 || Total(segments) <= max {
      dropped := 0;
      assert segments[0..] == segments;
    } else {
      var n := KeptIsLongestSuffix(segments[1..], max);
      dropped := n + 1;
      assert segments[1..][n..] == segments[dropped..];
      forall d | 0 <= d < dropped ensures Total(segments[d..]) > max {
        if d == 0 { assert segments[0..] == segments; } else { assert segments[1..][d - 1..] == segments[d..]; }
      }
    }
  }

  /** Adding a segment to what was kept comes to the same as adding it to everything. */
  lemma {:induction false} KeptAppend(segments: seq<string>, s: string, max: nat)
    ensures Kept(segments + [s], max) == Kept(Kept(segments, max) + [s], max)
  {
    if |segments| > 1 && Total(segments) > max {
      TotalAppend(segments, s);
      assert (segments + [s])[1..] == segments[1..] + [s];
      KeptAppend(segments[1..], s, max);
    }
  }

  class Window {
    var segments: seq<string>
    var total: int
    var truncated: bool
    ghost var added: seq<string>

    constructor ()
      ensures Valid() && added == []
    {
      segments, total, truncated, added := [], 0, false, [];
    }

    /** The window holds what the byte limit leaves of everything added. */
    ghost predicate Valid()
      reads this
    {
      segments == Kept(added, MAX_BYTES) && total == Total(segments) && (truncated <==> segments != added)
    }

    method Add(segment: string)
      requires Valid()
      modifies this
      ensures Valid() && added == old(added) + (if Trim(segment) == "" then [] else [Trim(segment)])
    {
      var s := Trim(segment);
      if s == "" {
        return;
      }
      KeptAppend(added, s, MAX_BYTES);
      TotalAppend(segments, s);
      NothingDropped(added, s);
      added := added + [s];
      segments := segments + [s];
      total := total + Bytes(s);
      while total > MAX_BYTES && |segments| > 1
        invariant added == old(added) + [s] && segments != []
        invariant total == Total(segments) && Kept(segments, MAX_BYTES) == Kept(added, MAX_BYTES)
        invariant |segments| <= |added| && (truncated <==> |segments| != |added|)
        invariant |segments| == |added| ==> segments == added
        decreases |segments|
      {
        truncated := true;
        total := total - Bytes(segments[0]);
        segments := segments[1..];
      }
    }
  }

  lemma NothingDropped(added: seq<string>, s: string)
    ensures |Kept(added, MAX_BYTES)| <= |added|
    ensures |Kept(added, MAX_BYTES)| == |added| ==> Kept(added, MAX_BYTES) == added
  {
    var d := KeptIsLongestSuffix(added, MAX_BYTES);
    assert added[0..] == added;
  }

  // --------------------------------------------------------------- the prompt

  const USER := "[User]\n"
  const ASSISTANT := "\n\n[Assistant]\n"

  function Join(parts: seq<string>, separator: string): string {
    if parts == [] then "" else if |parts| == 1 then parts[0] else parts[0] + separator + Join(parts[1..], separator)
  }

  function NonBlank(answers: seq<string>): seq<string> {
    if answers == [] then [] else
      NonBlank(answers[..|answers| - 1]) + (if Trim(answers[|answers| - 1]) == "" then [] else [answers[|answers| - 1]])
  }

  /** What a past run contributes; nothing if its prompt is blank. */
  function Entry(run: Run): string {
    var user, assistant := Trim(run.prompt), Trim(Join(NonBlank(run.answers), "\n"));
    if user == "" then "" else USER + user + (if assistant == "" then "" else ASSISTANT + assistant)
  }

  predicate Older(a: Run, b: Run) {
    if a.createdAt == b.createdAt then LessEq(a.id, b.id) else a.createdAt < b.createdAt
  }

  function OfConversation(all: seq<Run>, conversation: string): seq<Run> {
    if all == [] then [] else
      OfConversation(all[..|all| - 1], conversation)
      + (if Trim(all[|all| - 1].conversation) == conversation then [all[|all| - 1]] else [])
  }

  /** The entries of the conversation's runs, oldest first. */
  function History(runs: seq<Run>): seq<string> {
    if runs == [] then [] else
      History(runs[..|runs| - 1]) + (if Entry(runs[|runs| - 1]) == "" then [] else [Entry(runs[|runs| - 1])])
  }

  function Instruction(next: string): string {
    USER + (if Trim(next) == "" then "continue" else Trim(next))
  }

  function Header(truncated: bool): string {
    "[controlccx rehydrate]\n"
    + "以下内容由 ControlCCX 从历史 run 的 prompt/输出中拼接生成，可能不完整；已尽量保留最近上下文。\n"
    + (if truncated then "（提示：上下文过长，已自动截断较早部分。）\n" else "")
    + "[/controlccx rehydrate]\n"
  }

  /** What a run with a prompt contributes: the prompt, and what was answered, if anything. */
  lemma EntryIs(run: Run)
    ensures White(run.prompt) ==> Entry(run) == ""
    ensures !White(run.prompt) && (forall a :: a in run.answers ==> White(a)) ==>
      Entry(run) == "[User]\n" + Trim(run.prompt)
    ensures !White(run.prompt) && (exists a :: a in run.answers && !White(a)) ==>
      Entry(run) == "[User]\n" + Trim(run.prompt) + ("\n\n[Assistant]\n" + Trim(Join(NonBlank(run.answers), "\n")))
  {
    TrimEmptyIsWhite(run.prompt);
    if forall a :: a in run.answers ==> White(a) {
      BlankLeavesNone(run.answers);
      assert Trim("") == "";
    } else if a :| a in run.answers && !White(a) {
      NonBlankIs(run.answers, a);
      JoinHasText(NonBlank(run.answers), "\n", a);
      TrimEmptyIsWhite(Join(NonBlank(run.answers), "\n"));
    }
  }

  lemma {:induction false} NonBlankIs(answers: seq<string>, a: string)
    ensures a in NonBlank(answers) <==> a in answers && !White(a)
  {
    if answers != [] {
      var n := |answers| - 1;
      NonBlankIs(answers[..n], a);
      TrimEmptyIsWhite(answers[n]);
      assert answers == answers[..n] + [answers[n]];
    }
  }

  lemma {:induction false} BlankLeavesNone(answers: seq<string>)
    requires forall a :: a in answers ==> White(a)
    ensures NonBlank(answers) == []
  {
    if answers != [] {
      BlankLeavesNone(answers[..|answers| - 1]);
      TrimEmptyIsWhite(answers[|answers| - 1]);
    }
  }

  lemma {:induction false} JoinHasText(parts: seq<string>, separator: string, a: string)
    requires a in parts && !White(a)
    ensures !White(Join(parts, separator))
  {
    var rest := Join(parts[1..], separator);
    if parts[0] == a {
      var c :| c in a && !IsSpace(c);
      assert c in Join(parts, separator);
    } else {
      assert a in parts[1..];
      JoinHasText(parts[1..], separator, a);
      var c :| c in rest && !IsSpace(c);
      assert c in Join(parts, separator);
    }
  }

  /** The runs of a conversation, and their history. */
  lemma {:induction false} OfConversationIs(all: seq<Run>, conversation: string, r: Run)
    ensures r in OfConversation(all, conversation) <==> r in all && Trim(r.conversation) == conversation
  {
    if all != [] {
      OfConversationIs(all[..|all| - 1], conversation, r);
      assert all == all[..|all| - 1] + [all[|all| - 1]];
    }
  }

  lemma {:induction false} HistoryIs(runs: seq<Run>, r: Run)
    requires r in runs && !White(r.prompt)
    ensures Entry(r) in History(runs)
  {
    var n := |runs| - 1;
    if r == runs[n] {
      EntryHasText(r);
    } else {
      assert r in runs[..n];
      HistoryIs(runs[..n], r);
    }
  }

  lemma EntryHasText(run: Run)
    requires !White(run.prompt)
    ensures Entry(run) != ""
  {
    TrimEmptyIsWhite(run.prompt);
    assert |Entry(run)| >= |USER|;
  }

  /** The instruction, and the limit. */
  lemma InstructionIs(next: string)
    ensures Instruction(next) == "[User]\n" + (if White(next) then "continue" else Trim(next)) && MAX_BYTES == 60000
  {
    TrimEmptyIsWhite(next);
  }

  lemma EntryIsTrimmed(run: Run)
    ensures Trim(Entry(run)) == Entry(run)
  {
    TrimIsTrimmed(run.prompt);
    TrimIsTrimmed(Join(NonBlank(run.answers), "\n"));
    TrimIsTrimmed(Entry(run));
  }

  lemma InstructionIsTrimmed(next: string)
    ensures Trim(Instruction(next)) == Instruction(next) != ""
  {
    TrimIsTrimmed(next);
    TrimIsTrimmed(Instruction(next));
  }

  /** The longest prefix within the limit. */
  ghost predicate LongestCut(s: string, max: nat, r: string) {
    r <= s && Bytes(r) <= max && forall n :: |r| < n <= |s| ==> Bytes(s[..n]) > max
  }

  method TruncateUTF8(s: string, maxBytes: int) returns (r: string)
    ensures if maxBytes <= 0 || Bytes(s) <= maxBytes then r == s else LongestCut(s, maxBytes, r)
  {
    if maxBytes <= 0 || Bytes(s) <= maxBytes {
      return s;
    }
    var cut, offset := 0, 0;
    for i := 0 to |s|
      invariant cut <= i && offset == Bytes(s[..i]) && Bytes(s[..cut]) <= maxBytes
      invariant offset <= maxBytes || i == cut + 1
      invariant i > 0 ==> i == cut + 1
    {
      if offset > maxBytes { break; }
      cut := i;
      assert s[..i + 1][..i] == s[..i];
      offset := offset + Width(s[i]);
    }
    assert s[..|s|] == s;
    NextIsTooMuch(s, maxBytes, cut);
    r := if cut <= 0 then "" else s[..cut];
  }

  lemma NextIsTooMuch(s: string, max: nat, cut: nat)
    requires cut < |s| && Bytes(s[..cut + 1]) > max
    ensures forall n :: cut < n <= |s| ==> Bytes(s[..n]) > max
  {
    forall n | cut < n <= |s| ensures Bytes(s[..n]) > max { BytesGrow(s, cut + 1, n); }
  }

  /** Everything the window is given: the conversation's history and the instruction. */
  function Given(all: seq<Run>, conversation: string, next: string): seq<string> {
    History(Sort(OfConversation(all, Trim(conversation)), Older)) + [Instruction(next)]
  }

  /** The prompt before the final cut. */
  function Whole(given: seq<string>): string {
    var segments := Kept(given, MAX_BYTES);
    Header(segments != given) + Join(segments, "\n\n")
  }

  method AddHistory(runs: seq<Run>, window: Window)
    requires window.Valid() && window.added == []
    modifies window
    ensures window.Valid() && window.added == History(runs)
  {
    for i := 0 to |runs|
      invariant window.Valid() && window.added == History(runs[..i])
    {
      assert runs[..i + 1][..i] == runs[..i];
      EntryIsTrimmed(runs[i]);
      if Trim(runs[i].prompt) == "" { continue; }
      window.Add(Entry(runs[i]));
    }
    assert runs[..|runs|] == runs;
  }

  method SelectRuns(all: seq<Run>, conversation: string) returns (runs: seq<Run>)
    ensures runs == OfConversation(all, conversation)
  {
    runs := [];
    for i := 0 to |all|
      invariant runs == OfConversation(all[..i], conversation)
    {
      assert all[..i + 1][..i] == all[..i];
      if Trim(all[i].conversation) != conversation { continue; }
      runs := runs + [all[i]];
    }
    assert all[..|all|] == all;
  }

  method BuildRehydratePrompt(all: seq<Run>, conversationId: string, nextPrompt: string)
    returns (r: Result<string, Error>)
    ensures r.Err? <==> Trim(conversationId) == ""
    ensures r.Ok? ==> IsPrompt(Given(all, conversationId, nextPrompt), r.value)
  {
    if Trim(conversationId) == "" {
      return Err(ConversationRequired);
    }
    var runs := SelectRuns(all, Trim(conversationId));
    runs := Sort(runs, Older);
    var window := new Window();
    AddHistory(runs, window);
    InstructionIsTrimmed(nextPrompt);
    window.Add(Instruction(nextPrompt));
    var out := Header(window.truncated) + Join(window.segments, "\n\n");
    if Bytes(out) > MAX_BYTES {
      out := TruncateUTF8(out, MAX_BYTES);
    }
    r := Ok(out);
  }

  lemma {:induction false} JoinEndsWithLast(parts: seq<string>, separator: string) returns (front: string)
    requires parts != []
    ensures Join(parts, separator) == front + parts[|parts| - 1]
  {
    if |parts| == 1 {
      front := "";
    } else {
      var f := JoinEndsWithLast(parts[1..], separator);
      front := parts[0] + separator + f;
      Associate(parts[0] + separator, f, parts[|parts| - 1]);
    }
  }

  lemma WholeEndsWithLast(given: seq<string>) returns (front: string)
    requires given != []
    ensures Kept(given, MAX_BYTES) != []
    ensures Kept(given, MAX_BYTES)[|Kept(given, MAX_BYTES)| - 1] == given[|given| - 1]
    ensures Whole(given) == front + given[|given| - 1]
  {
    var d := KeptIsLongestSuffix(given, MAX_BYTES);
    var segments := Kept(given, MAX_BYTES);
    var f := JoinEndsWithLast(segments, "\n\n");
    front := Header(segments != given) + f;
    Associate(Header(segments != given), f, given[|given| - 1]);
  }

  lemma Associate(a: string, b: string, c: string)
    ensures a + (b + c) == a + b + c
  {
  }

  /** The new instruction is the last segment kept, and before the final cut the prompt
      ends with it. It arrives unshortened exactly when it still fits after what comes
      before it: header, separators and kept segments. */
  lemma InstructionWholeIffFits(given: seq<string>, instruction: string, out: string) returns (front: string)
    requires given != [] && given[|given| - 1] == instruction
    requires IsPrompt(given, out)
    ensures Kept(given, MAX_BYTES) != [] && Kept(given, MAX_BYTES)[|Kept(given, MAX_BYTES)| - 1] == instruction
    ensures Whole(given) == front + instruction && out <= front + instruction && Bytes(out) <= MAX_BYTES
    ensures out == front + instruction <==> Bytes(front) + Bytes(instruction) <= MAX_BYTES
  {
    front := WholeEndsWithLast(given);
    BytesAppend(front, instruction);
  }

  /** What BuildRehydratePrompt returns. */
  ghost predicate IsPrompt(given: seq<string>, out: string) {
    if Bytes(Whole(given)) <= MAX_BYTES then out == Whole(given) else LongestCut(Whole(given), MAX_BYTES, out)
  }

  lemma {:induction false} BytesAtLeast(s: string)
    ensures Bytes(s) >= |s|
  {
    if s != "" { BytesAtLeast(s[..|s| - 1]); }
  }

  /** It can be shortened: any instruction of 60000 characters is. */
  lemma LongInstructionIsCut(given: seq<string>, next: string, out: string)
    requires given != [] && given[|given| - 1] == Instruction(next) && |Trim(next)| >= MAX_BYTES
    requires IsPrompt(given, out)
    ensures out < Whole(given)
  {
    BytesAtLeast(Instruction(next));
    var front := InstructionWholeIffFits(given, Instruction(next), out);
  }
}
