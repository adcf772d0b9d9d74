/** Attention score of a task (internal/tasks/score.go). */
module Score {
  import opened Wrappers

  datatype Status =
    | Queued | Waiting | Running | AwaitingApproval
    | Succeeded | Failed | Canceled | Interrupted | Blocked

  const MAX_STDERR_LINES := 10
  const MAX_KEYWORD_HITS := 10
  const BLOCKED_BONUS := 3
  const STDERR_PER_LINE := 2
  const NON_ZERO_EXIT := 2
  const NEEDLES := ["error", "panic", "failed"]

  function Capped(n: nat, cap: nat): nat {
    if n > cap then cap else n
  }

  function ScoreOf(status: Status, stderrCount: nat, keywordCount: nat, exitCode: Option<int>): nat {
    (if status == Blocked || status == AwaitingApproval then BLOCKED_BONUS else 0)
    + STDERR_PER_LINE * Capped(stderrCount, MAX_STDERR_LINES)
    + (if status == Failed && exitCode.Some? && exitCode.value != 0 then NON_ZERO_EXIT else 0)
    + Capped(keywordCount, MAX_KEYWORD_HITS)
  }

  method ComputeScore(status: Status, stderrCount: nat, keywordCount: nat, exitCode: Option<int>) returns (score: nat)
    ensures score == ScoreOf(status, stderrCount, keywordCount, exitCode)
    ensures score <= 33
  {
    score := 0;
    if status == Blocked || status == AwaitingApproval {
      score := score + BLOCKED_BONUS;
    }
    var lines := stderrCount;
    if lines > MAX_STDERR_LINES {
      lines := MAX_STDERR_LINES;
    }
    score := score + lines * STDERR_PER_LINE;
    if status == Failed && exitCode.Some? && exitCode.value != 0 {
      score := score + NON_ZERO_EXIT;
    }
    var hits := keywordCount;
    if hits > MAX_KEYWORD_HITS {
      hits := MAX_KEYWORD_HITS;
    }
    score := score + hits;
  }

  /** What the score is made of: 2 for each of up to 10 lines of stderr, 1 for each of up to
      10 keywords, 3 for a task that is blocked or awaits approval, and 2 for one that has
      failed with a code other than 0. */
  lemma ScoreParts(status: Status, lines: nat, hits: nat, exitCode: Option<int>)
    ensures ScoreOf(Running, 0, 0, exitCode) == 0
    ensures ScoreOf(status, lines + 1, hits, exitCode)
         == ScoreOf(status, lines, hits, exitCode) + (if lines < 10 then 2 else 0)
    ensures ScoreOf(status, lines, hits + 1, exitCode)
         == ScoreOf(status, lines, hits, exitCode) + (if hits < 10 then 1 else 0)
    ensures ScoreOf(status, lines, hits, exitCode) - ScoreOf(Running, lines, hits, exitCode)
         == if status in {Blocked, AwaitingApproval} then 3
            else if status == Failed && exitCode.Some? && exitCode.value != 0 then 2 else 0
  {
  }

  /** Go's lower case, on every character whose lower case is a letter of a needle. */
  function LowerChar(c: char): char {
    if 'A' <= c <= 'Z' then (c as int + 32) as char else if c == '\U{0130}' then 'i' else c
  }

  function Lower(s: string): (r: string)
    ensures |r| == |s|
  {
    seq(|s|, i requires 0 <= i < |s| => LowerChar(s[i]))
  }

  predicate OccursAt(s: string, needle: string, i: nat) {
    i + |needle| <= |s| && s[i..i + |needle|] == needle
  }

  predicate Contains(s: string, needle: string) {
    exists i | 0 <= i <= |s| :: OccursAt(s, needle, i)
  }

  /** The distinct needles that occur in a message, ignoring case. */
  function Hits(message: string): set<string> {
    set n | n in NEEDLES && Contains(Lower(message), n)
  }

  /** The words counted. */
  lemma HitsAre(message: string, n: string)
    ensures n in Hits(message) <==>
      (n == "error" || n == "panic" || n == "failed") && exists i: nat :: ReadsAt(message, n, i)
  {
    if n in Hits(message) {
      var i :| 0 <= i <= |Lower(message)| && OccursAt(Lower(message), n, i);
      assert forall k :: 0 <= k < |n| ==> Lower(message)[i..i + |n|][k] == n[k];
      assert ReadsAt(message, n, i);
    }
    if i: nat :| ReadsAt(message, n, i) {
      assert Lower(message)[i..i + |n|] == n;
      assert OccursAt(Lower(message), n, i);
    }
  }

  /** The word stands there, in upper or lower case. */
  predicate ReadsAt(message: string, n: string, i: nat) {
    i + |n| <= |message| && forall k | 0 <= k < |n| :: LowerChar(message[i + k]) == n[k]
  }

  lemma LowerCharIs(c: char, l: char)
    requires 'a' <= l <= 'z'
    ensures LowerChar(c) == l <==>
      c == l || ('A' <= c <= 'Z' && c as int - 'A' as int == l as int - 'a' as int) || (c == '\U{0130}' && l == 'i')
  {
  }

  method CountKeywordHits(message: string) returns (hits: nat)
    ensures hits == |Hits(message)|
  {
    var lower := Lower(message);
    hits := 0;
    ghost var seen: set<string> := {};
    for i := 0 to |NEEDLES|
      invariant seen == set n | n in NEEDLES[..i] && Contains(lower, n)
      invariant hits == |seen|
    {
      assert NEEDLES[..i + 1] == NEEDLES[..i] + [NEEDLES[i]];
      if Contains(lower, NEEDLES[i]) {
        assert NEEDLES[i] !in NEEDLES[..i];
        hits := hits + 1;
        seen := seen + {NEEDLES[i]};
      }
    }
    assert NEEDLES[..|NEEDLES|] == NEEDLES;
    assert seen == Hits(message);
  }
}
