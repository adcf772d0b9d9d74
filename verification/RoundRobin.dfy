/** Round-robin over project scopes (ListSessionContinueQueueConversations in
    internal/tasks/session_continue_queue.go). */
module RoundRobin {
  import opened Sorting
  import opened Text
  import D = Dispatcher
  import Q = ContinueQueue

  /** A conversation with pending items; rows keep their scope in the output so that
      fairness can be stated about it. */
  datatype Row = Row(conversation: string, scope: string)

  function Filter(rows: seq<Row>, scope: string): seq<Row> {
    if rows == [] then [] else
    var last := rows[|rows| - 1];
    Filter(rows[..|rows| - 1], scope) + (if last.scope == scope then [last] else [])
  }

  /** The scopes, in the order in which they first occur. */
  function ScopesOf(rows: seq<Row>): seq<string> {
    if rows == [] then [] else
    var last, early := rows[|rows| - 1], ScopesOf(rows[..|rows| - 1]);
    if last.scope in early then early else early + [last.scope]
  }

  lemma {:induction false} FilterScope(rows: seq<Row>, scope: string)
    ensures forall r :: r in Filter(rows, scope) ==> r.scope == scope && r in rows
    ensures |Filter(rows, scope)| <= |rows|
  {
    if rows != [] {
      FilterScope(rows[..|rows| - 1], scope);
    }
  }

  lemma CountSnoc(s: seq<Row>, last: Row, r: Row)
    ensures multiset(s + [last])[r] == multiset(s)[r] + (if last == r then 1 else 0)
  {
  }

  lemma {:induction false} FilterCount(rows: seq<Row>, r: Row)
    ensures multiset(Filter(rows, r.scope))[r] == multiset(rows)[r]
  {
    if rows != [] {
      var before, last := rows[..|rows| - 1], rows[|rows| - 1];
      FilterCount(before, r);
      assert rows == before + [last];
      FilterSnoc(before, last, r.scope);
      CountSnoc(before, last, r);
      CountSnoc(Filter(before, r.scope), last, r);
    }
  }

  lemma {:induction false} ScopesDistinct(rows: seq<Row>)
    ensures forall i, j :: 0 <= i < j < |ScopesOf(rows)| ==> ScopesOf(rows)[i] != ScopesOf(rows)[j]
    ensures forall s :: s in ScopesOf(rows) <==> Filter(rows, s) != []
  {
    if rows != [] {
      ScopesDistinct(rows[..|rows| - 1]);
    }
  }

  /** One queue per scope: distinct scopes, each queue holding rows of its scope. */
  ghost predicate Scoped(scopes: seq<string>, qs: seq<seq<Row>>) {
    && |qs| == |scopes|
    && (forall i, j :: 0 <= i < j < |scopes| ==> scopes[i] != scopes[j])
    && (forall i, r :: 0 <= i < |qs| && r in qs[i] ==> r.scope == scopes[i])
  }

  /** What round `r` takes from the first `n` queues. */
  function Part(qs: seq<seq<Row>>, r: nat, n: nat): seq<Row>
    requires n <= |qs|
  {
    if n == 0 then [] else Part(qs, r, n - 1) + (if r < |qs[n - 1]| then [qs[n - 1][r]] else [])
  }

  /** What the first `r` rounds take. */
  function Rounds(qs: seq<seq<Row>>, r: nat): seq<Row> {
    if r == 0 then [] else Rounds(qs, r - 1) + Part(qs, r - 1, |qs|)
  }

  /** The output when round `r` has visited `n` queues. */
  function Output(qs: seq<seq<Row>>, r: nat, n: nat): seq<Row>
    requires n <= |qs|
  {
    Rounds(qs, r) + Part(qs, r, n)
  }

  function Min(a: nat, b: nat): nat {
    if a < b then a else b
  }

  /** How many rows of the i-th queue have been taken by then. */
  function Taken(qs: seq<seq<Row>>, r: nat, n: nat, i: nat): nat
    requires i < |qs|
  {
    Min(r + (if i < n then 1 else 0), |qs[i]|)
  }

  lemma OutputStep(qs: seq<seq<Row>>, r: nat, n: nat)
    requires n < |qs|
    ensures Output(qs, r, n + 1) == Output(qs, r, n) + (if r < |qs[n]| then [qs[n][r]] else [])
  {
    assert Part(qs, r, n + 1) == Part(qs, r, n) + (if r < |qs[n]| then [qs[n][r]] else []);
  }

  lemma RoundEnds(qs: seq<seq<Row>>, r: nat)
    ensures Output(qs, r + 1, 0) == Output(qs, r, |qs|)
  {
    assert Part(qs, r + 1, 0) == [];
  }

  lemma FilterSnoc(out: seq<Row>, row: Row, scope: string)
    ensures Filter(out + [row], scope) == if row.scope == scope then Filter(out, scope) + [row] else Filter(out, scope)
  {
    assert (out + [row])[..|out + [row]| - 1] == out;
  }

  /** One visit to the n-th queue, seen by the i-th scope. */
  lemma VisitFilter(scopes: seq<string>, qs: seq<seq<Row>>, r: nat, n: nat, i: nat,
                    out: seq<Row>, out': seq<Row>)
    requires Scoped(scopes, qs) && n < |qs| && i < |qs|
    requires out' == out + (if r < |qs[n]| then [qs[n][r]] else [])
    requires Filter(out, scopes[i]) == qs[i][..Taken(qs, r, n, i)]
    ensures Filter(out', scopes[i]) == qs[i][..Taken(qs, r, n + 1, i)]
  {
    if r < |qs[n]| {
      var row := qs[n][r];
      assert row in qs[n];
      FilterSnoc(out, row, scopes[i]);
    } else {
      assert out + [] == out;
    }
  }

  lemma VisitStage(scopes: seq<string>, qs: seq<seq<Row>>, r: nat, n: nat, i: nat, out: seq<Row>, out': seq<Row>)
    requires Scoped(scopes, qs) && n < |qs| && i < |qs|
    requires out == Output(qs, r, n) && out' == Output(qs, r, n + 1)
    requires Filter(out, scopes[i]) == qs[i][..Taken(qs, r, n, i)]
    ensures Filter(out', scopes[i]) == qs[i][..Taken(qs, r, n + 1, i)]
  {
    OutputStep(qs, r, n);
    VisitFilter(scopes, qs, r, n, i, out, out');
  }

  lemma {:induction false} StageFilter(scopes: seq<string>, qs: seq<seq<Row>>, r: nat, n: nat, i: nat, out: seq<Row>)
    requires Scoped(scopes, qs) && n <= |qs| && i < |qs| && out == Output(qs, r, n)
    ensures Filter(out, scopes[i]) == qs[i][..Taken(qs, r, n, i)]
    decreases r, n
  {
    if n > 0 {
      var before := Output(qs, r, n - 1);
      StageFilter(scopes, qs, r, n - 1, i, before);
      VisitStage(scopes, qs, r, n - 1, i, before, out);
    } else if r > 0 {
      RoundEnds(qs, r - 1);
      StageFilter(scopes, qs, r - 1, |qs|, i, out);
    }
  }

  /** Within a scope the output is the arrival order, cut at the number taken. */
  lemma OutputFilter(scopes: seq<string>, qs: seq<seq<Row>>, r: nat, n: nat, i: nat)
    requires Scoped(scopes, qs) && n <= |qs| && i < |qs|
    ensures Filter(Output(qs, r, n), scopes[i]) == qs[i][..Taken(qs, r, n, i)]
  {
    StageFilter(scopes, qs, r, n, i, Output(qs, r, n));
  }

  /** Every row put out belongs to one of the scopes. */
  lemma {:induction false} OutputScopes(scopes: seq<string>, qs: seq<seq<Row>>, r: nat, n: nat, out: seq<Row>)
    requires Scoped(scopes, qs) && n <= |qs| && out == Output(qs, r, n)
    ensures forall row :: row in out ==> row.scope in scopes
    decreases r, n
  {
    if n > 0 {
      var before := Output(qs, r, n - 1);
      OutputScopes(scopes, qs, r, n - 1, before);
      OutputStep(qs, r, n - 1);
      assert forall row :: row in out ==> row in before || (r < |qs[n - 1]| && row == qs[n - 1][r]);
    } else if r > 0 {
      RoundEnds(qs, r - 1);
      OutputScopes(scopes, qs, r - 1, |qs|, out);
    }
  }

  lemma {:induction false} FilterNone(rows: seq<Row>, s: string)
    requires forall row :: row in rows ==> row.scope != s
    ensures Filter(rows, s) == []
  {
    if rows != [] {
      FilterNone(rows[..|rows| - 1], s);
    }
  }

  lemma OutputForeign(scopes: seq<string>, qs: seq<seq<Row>>, r: nat, n: nat, s: string)
    requires Scoped(scopes, qs) && n <= |qs| && s !in scopes
    ensures Filter(Output(qs, r, n), s) == []
  {
    OutputScopes(scopes, qs, r, n, Output(qs, r, n));
    FilterNone(Output(qs, r, n), s);
  }

  /** Every prefix of an output is the output at some earlier point. */
  lemma {:induction false} PrefixIsOutput(qs: seq<seq<Row>>, r: nat, n: nat, k: nat) returns (r': nat, n': nat)
    requires n <= |qs| && k <= |Output(qs, r, n)|
    ensures n' <= |qs| && Output(qs, r', n') == Output(qs, r, n)[..k]
    decreases r, n
  {
    var out := Output(qs, r, n);
    if k == |out| {
      r', n' := r, n;
    } else if n > 0 {
      OutputStep(qs, r, n - 1);
      var early := Output(qs, r, n - 1);
      assert out[..k] == early[..k];
      r', n' := PrefixIsOutput(qs, r, n - 1, k);
    } else {
      RoundEnds(qs, r - 1);
      r', n' := PrefixIsOutput(qs, r - 1, |qs|, k);
    }
  }

  /** Fair at one moment: within each scope arrival order; no scope is two rows ahead
      of another that still has rows left, nor ahead at all of one that came first. */
  ghost predicate Fair(rows: seq<Row>, scopes: seq<string>, out: seq<Row>) {
    && (forall s :: Filter(out, s) <= Filter(rows, s))
    && (forall i, j :: 0 <= i < |scopes| && 0 <= j < |scopes| ==> Balanced(rows, out, scopes[i], scopes[j], j < i))
  }

  /** Scope `s` is not ahead of `t`, or `t` has no rows left. */
  ghost predicate Balanced(rows: seq<Row>, out: seq<Row>, s: string, t: string, tFirst: bool) {
    || Filter(out, t) == Filter(rows, t)
    || |Filter(out, s)| <= |Filter(out, t)| + (if tFirst then 0 else 1)
  }

  /** Fair at every prefix. */
  ghost predicate AlwaysFair(rows: seq<Row>, scopes: seq<string>, out: seq<Row>) {
    forall k {:trigger Fair(rows, scopes, out[..k])} :: 0 <= k <= |out| ==> Fair(rows, scopes, out[..k])
  }

  /** The queues hold exactly the rows, scope by scope. */
  ghost predicate Queues(rows: seq<Row>, scopes: seq<string>, qs: seq<seq<Row>>) {
    && Scoped(scopes, qs)
    && (forall i :: 0 <= i < |qs| ==> qs[i] == Filter(rows, scopes[i]))
    && (forall s :: s !in scopes ==> Filter(rows, s) == [])
  }

  lemma QueuesOf(rows: seq<Row>) returns (qs: seq<seq<Row>>)
    ensures Queues(rows, ScopesOf(rows), qs)
  {
    var scopes := ScopesOf(rows);
    qs := seq(|scopes|, i requires 0 <= i < |scopes| => Filter(rows, scopes[i]));
    ScopesDistinct(rows);
    forall i | 0 <= i < |scopes| { FilterScope(rows, scopes[i]); }
  }

  lemma OutputIsFair(rows: seq<Row>, scopes: seq<string>, qs: seq<seq<Row>>, r: nat, n: nat)
    requires Queues(rows, scopes, qs) && n <= |qs|
    ensures Fair(rows, scopes, Output(qs, r, n))
  {
    var out := Output(qs, r, n);
    forall s ensures Filter(out, s) <= Filter(rows, s) {
      if s in scopes {
        var i :| 0 <= i < |scopes| && scopes[i] == s;
        OutputFilter(scopes, qs, r, n, i);
      } else {
        OutputForeign(scopes, qs, r, n, s);
      }
    }
    forall i, j | 0 <= i < |scopes| && 0 <= j < |scopes|
      ensures Balanced(rows, out, scopes[i], scopes[j], j < i)
    {
      OutputFilter(scopes, qs, r, n, i);
      OutputFilter(scopes, qs, r, n, j);
    }
  }

  lemma PrefixCount<T>(a: seq<T>, b: seq<T>, x: T)
    requires a <= b
    ensures multiset(a)[x] <= multiset(b)[x]
  {
    assert b == a + b[|a|..];
  }

  /** A fair selection takes no row more often than it occurs; one that exhausts
      every scope is a permutation. */
  lemma FairCounts(rows: seq<Row>, scopes: seq<string>, out: seq<Row>)
    requires Fair(rows, scopes, out)
    ensures multiset(out) <= multiset(rows) && |out| <= |rows|
    ensures (forall s :: Filter(out, s) == Filter(rows, s)) ==> multiset(out) == multiset(rows)
  {
    forall x ensures multiset(out)[x] <= multiset(rows)[x]
      ensures Filter(out, x.scope) == Filter(rows, x.scope) ==> multiset(out)[x] == multiset(rows)[x]
    {
      FilterCount(out, x);
      FilterCount(rows, x);
      PrefixCount(Filter(out, x.scope), Filter(rows, x.scope), x);
    }
    SizeMonotone(multiset(out), multiset(rows));
  }

  lemma SizeMonotone(a: multiset<Row>, b: multiset<Row>)
    requires a <= b
    ensures |a| <= |b|
  {
    assert b == a + (b - a);
  }

  /** What is left of the j-th queue. */
  ghost predicate Rest(qs: seq<seq<Row>>, r: nat, n: nat, j: nat, q: seq<Row>) {
    j < |qs| && q == qs[j][Taken(qs, r, n, j)..]
  }

  /** A round that finds every queue empty leaves no row out. */
  lemma Exhausted(rows: seq<Row>, scopes: seq<string>, qs: seq<seq<Row>>, r: nat)
    requires Queues(rows, scopes, qs)
    requires forall j :: 0 <= j < |qs| ==> Rest(qs, r, |qs|, j, [])
    ensures multiset(Output(qs, r, |qs|)) == multiset(rows) && |Output(qs, r, |qs|)| == |rows|
  {
    var out := Output(qs, r, |qs|);
    OutputIsFair(rows, scopes, qs, r, |qs|);
    forall s ensures Filter(out, s) == Filter(rows, s) {
      if s in scopes {
        var i :| 0 <= i < |scopes| && scopes[i] == s;
        assert Rest(qs, r, |qs|, i, []);
        OutputFilter(scopes, qs, r, |qs|, i);
      } else {
        OutputForeign(scopes, qs, r, |qs|, s);
      }
    }
    FairCounts(rows, scopes, out);
    assert |multiset(out)| == |out| && |multiset(rows)| == |rows|;
  }

  lemma EveryPrefixFair(rows: seq<Row>, scopes: seq<string>, qs: seq<seq<Row>>, r: nat, n: nat)
    requires Queues(rows, scopes, qs) && n <= |qs|
    ensures var out := Output(qs, r, n);
      multiset(out) <= multiset(rows) && |out| <= |rows| && AlwaysFair(rows, scopes, out)
  {
    var out := Output(qs, r, n);
    OutputIsFair(rows, scopes, qs, r, n);
    FairCounts(rows, scopes, out);
    forall k | 0 <= k <= |out| ensures Fair(rows, scopes, out[..k]) {
      var r', n' := PrefixIsOutput(qs, r, n, k);
      OutputIsFair(rows, scopes, qs, r', n');
    }
  }

  /** limit <= 0 or > 1000 means 200 */
  function EffectiveLimit(limit: int): nat {
    if limit <= 0 || limit > 1000 then 200 else limit
  }

  method GroupByScope(rows: seq<Row>) returns (scopeOrder: seq<string>, byScope: map<string, seq<Row>>)
    ensures scopeOrder == ScopesOf(rows)
    ensures forall s :: s in byScope <==> s in scopeOrder
    ensures forall s :: s in byScope ==> byScope[s] == Filter(rows, s)
  {
    scopeOrder, byScope := [], map[];
    for i := 0 to |rows|
      invariant scopeOrder == ScopesOf(rows[..i])
      invariant forall s :: s in byScope <==> s in scopeOrder
      invariant forall s :: s in byScope ==> byScope[s] == Filter(rows[..i], s)
    {
      assert rows[..i + 1][..i] == rows[..i];
      ScopesDistinct(rows[..i]);
      var scope := rows[i].scope;
      if scope !in byScope {
        scopeOrder := scopeOrder + [scope];
        byScope := byScope[scope := []];
      }
      byScope := byScope[scope := byScope[scope] + [rows[i]]];
    }
    assert rows[..|rows|] == rows;
  }

  /** The queues still to be served, after `n` of them were visited in round `r`. */
  ghost predicate Serving(scopeOrder: seq<string>, qs: seq<seq<Row>>, byScope: map<string, seq<Row>>, r: nat, n: nat) {
    && |scopeOrder| == |qs|
    && (forall i, j :: 0 <= i < j < |qs| ==> scopeOrder[i] != scopeOrder[j])
    && (forall j :: 0 <= j < |qs| ==> scopeOrder[j] in byScope && Rest(qs, r, n, j, byScope[scopeOrder[j]]))
  }

  lemma ServeOne(scopeOrder: seq<string>, qs: seq<seq<Row>>, byScope: map<string, seq<Row>>, r: nat, n: nat)
    requires Serving(scopeOrder, qs, byScope, r, n) && n < |qs|
    ensures var q := byScope[scopeOrder[n]];
      if q == [] then r >= |qs[n]| && Serving(scopeOrder, qs, byScope, r, n + 1)
      else r < |qs[n]| && q[0] == qs[n][r] && Serving(scopeOrder, qs, byScope[scopeOrder[n] := q[1..]], r, n + 1)
  {
    forall j | 0 <= j < |qs| ensures Rest(qs, r, n, j, byScope[scopeOrder[j]]) { }
    assert Rest(qs, r, n, n, byScope[scopeOrder[n]]);
  }

  /** The inner loop: one visit to every scope in turn, stopping at the limit. */
  method OneRound(scopeOrder: seq<string>, byScope: map<string, seq<Row>>, out: seq<Row>, max: nat,
                  ghost qs: seq<seq<Row>>, ghost r: nat)
    returns (out': seq<Row>, byScope': map<string, seq<Row>>, progressed: bool, n: nat)
    requires Serving(scopeOrder, qs, byScope, r, 0) && out == Output(qs, r, 0) && |out| < max
    ensures n <= |qs| && out' == Output(qs, r, n) && |out| <= |out'| <= max
    ensures progressed <==> |out'| > |out|
    ensures |out'| < max ==> n == |qs| && Serving(scopeOrder, qs, byScope', r, n)
    ensures |out'| < max && !progressed ==> forall j :: 0 <= j < n ==> byScope'[scopeOrder[j]] == []
  {
    out', byScope', progressed, n := out, byScope, false, 0;
    while n < |scopeOrder|
      invariant n <= |qs| && out' == Output(qs, r, n) && |out| <= |out'| < max
      invariant progressed <==> |out'| > |out|
      invariant Serving(scopeOrder, qs, byScope', r, n)
      invariant !progressed ==> forall j :: 0 <= j < n ==> byScope'[scopeOrder[j]] == []
    {
      var q := byScope'[scopeOrder[n]];
      ServeOne(scopeOrder, qs, byScope', r, n);
      OutputStep(qs, r, n);
      if |q| == 0 {
        n := n + 1;
        continue;
      }
      out' := out' + [q[0]];
      byScope' := byScope'[scopeOrder[n] := q[1..]];
      progressed := true;
      n := n + 1;
      if |out'| >= max { break; }
    }
  }

  /** The outer loop: rounds until the limit is reached or a round finds nothing. */
  method AllRounds(scopeOrder: seq<string>, queues: map<string, seq<Row>>, max: nat, ghost rows: seq<Row>,
                   ghost qs: seq<seq<Row>>)
    returns (out: seq<Row>, ghost r: nat, ghost n: nat)
    requires Queues(rows, scopeOrder, qs) && Serving(scopeOrder, qs, queues, 0, 0)
    ensures n <= |qs| && out == Output(qs, r, n) && |out| <= max
    ensures |out| == max || |out| == |rows|
  {
    var byScope := queues;
    out, r, n := [], 0, 0;
    while |out| < max
      invariant |out| <= max && n <= |qs| && out == Output(qs, r, n)
      invariant |out| < max ==> n == 0 && Serving(scopeOrder, qs, byScope, r, 0)
      decreases max - |out|
    {
      var progressed;
      out, byScope, progressed, n := OneRound(scopeOrder, byScope, out, max, qs, r);
      if |out| < max {
        if !progressed {
          Exhausted(rows, scopeOrder, qs, r);
          break;
        }
        RoundEnds(qs, r);
        NextRound(scopeOrder, qs, byScope, r);
        r, n := r + 1, 0;
      }
    }
  }

  /** The list is a permutation of the rows cut at the limit, and fair at every prefix. */
  method Interleave(rows: seq<Row>, limit: int) returns (out: seq<Row>)
    ensures |out| == Min(if 1 <= limit <= 1000 then limit else 200, |rows|)
    ensures multiset(out) <= multiset(rows)
    ensures AlwaysFair(rows, ScopesOf(rows), out)
  {
    var scopeOrder, byScope := GroupByScope(rows);
    ghost var qs := QueuesOf(rows);
    ghost var r, n;
    out, r, n := AllRounds(scopeOrder, byScope, EffectiveLimit(limit), rows, qs);
    EveryPrefixFair(rows, scopeOrder, qs, r, n);
  }

  lemma NextRound(scopeOrder: seq<string>, qs: seq<seq<Row>>, byScope: map<string, seq<Row>>, r: nat)
    requires Serving(scopeOrder, qs, byScope, r, |qs|)
    ensures Serving(scopeOrder, qs, byScope, r + 1, 0)
  {
    forall j | 0 <= j < |qs| ensures Rest(qs, r + 1, 0, j, byScope[scopeOrder[j]]) {
      assert Rest(qs, r, |qs|, j, byScope[scopeOrder[j]]);
    }
  }

  /** Before the first row of a scope there is none of a scope that is listed later; every
      scope that occurs is listed, each once. */
  lemma {:induction false} ScopesByFirstAppearance(rows: seq<Row>, i: nat, j: nat)
    requires i < j < |ScopesOf(rows)|
    ensures exists a :: 0 <= a < |rows| && rows[a].scope == ScopesOf(rows)[i] && NotYet(rows, a, ScopesOf(rows)[j])
  {
    var early := rows[..|rows| - 1];
    if j < |ScopesOf(early)| {
      ScopesByFirstAppearance(early, i, j);
      var a :| 0 <= a < |early| && early[a].scope == ScopesOf(early)[i] && NotYet(early, a, ScopesOf(early)[j]);
      assert rows[a] == early[a] && forall b :: 0 <= b <= a ==> rows[b] == early[b];
      assert NotYet(rows, a, ScopesOf(rows)[j]);
    } else {
      var a := ScopeOccurs(early, i);
      forall b | 0 <= b < |early| ensures early[b].scope in ScopesOf(early) { ScopeIsListed(early, b); }
      assert forall b :: 0 <= b <= a ==> rows[b] == early[b];
      assert NotYet(rows, a, ScopesOf(rows)[j]);
    }
  }

  predicate NotYet(rows: seq<Row>, a: nat, scope: string) {
    a < |rows| && forall b | 0 <= b <= a :: rows[b].scope != scope
  }

  lemma {:induction false} ScopeOccurs(rows: seq<Row>, i: nat) returns (a: nat)
    requires i < |ScopesOf(rows)|
    ensures a < |rows| && rows[a].scope == ScopesOf(rows)[i]
  {
    var n := |rows| - 1;
    if i < |ScopesOf(rows[..n])| { a := ScopeOccurs(rows[..n], i); } else { a := n; }
  }

  lemma {:induction false} ScopeIsListed(rows: seq<Row>, b: nat)
    requires b < |rows|
    ensures rows[b].scope in ScopesOf(rows)
  {
    if b < |rows| - 1 { ScopeIsListed(rows[..|rows| - 1], b); }
  }

  // ------------------------------------------------------------ the rows

  predicate Waits(items: Q.Items, c: string) {
    c != "" && Q.PendingOf(items, c) != {}
  }

  /** MIN(created_at) over the pending items of a conversation. */
  ghost predicate FirstCreated(items: Q.Items, c: string, t: int) {
    && (exists id :: id in Q.PendingOf(items, c) && items[id].createdAt == t)
    && (forall id :: id in Q.PendingOf(items, c) ==> t <= items[id].createdAt)
  }

  lemma {:induction false} Minimum(items: Q.Items, ids: set<string>) returns (m: string)
    requires ids != {} && forall k :: k in ids ==> k in items
    ensures m in ids && forall k :: k in ids ==> items[m].createdAt <= items[k].createdAt
    decreases ids
  {
    m :| m in ids;
    if ids != {m} {
      var k := Minimum(items, ids - {m});
      if items[k].createdAt < items[m].createdAt { m := k; }
    }
  }

  lemma SomeFirstCreated(items: Q.Items, c: string)
    requires Waits(items, c)
    ensures exists t :: FirstCreated(items, c, t)
  {
    var m := Minimum(items, Q.PendingOf(items, c));
    assert FirstCreated(items, c, items[m].createdAt);
  }

  ghost function Since(items: Q.Items, c: string): (t: int)
    requires Waits(items, c)
    ensures FirstCreated(items, c, t)
  {
    SomeFirstCreated(items, c);
    var t :| FirstCreated(items, c, t);
    t
  }

  /** ORDER BY first_created_at ASC, conversation_id ASC */
  ghost predicate LongerWaiting(items: Q.Items, c: string, d: string)
    requires Waits(items, c) && Waits(items, d)
  {
    Since(items, c) < Since(items, d) || (Since(items, c) == Since(items, d) && Less(c, d))
  }

  /** The answer of the query: one row for each conversation with pending items, with
      its project scope, the longest waiting conversation first. */
  ghost predicate Listing(items: Q.Items, tasks: D.Tasks, rows: seq<Row>) {
    && (forall r :: r in rows ==> Waits(items, r.conversation) && r.scope == D.ScopeOf(tasks, r.conversation))
    && (forall c :: Waits(items, c) ==> Row(c, D.ScopeOf(tasks, c)) in rows)
    && (forall i, j :: 0 <= i < j < |rows| ==> LongerWaiting(items, rows[i].conversation, rows[j].conversation))
  }

  predicate IsPending(items: Q.Items, c: string, id: string) {
    id in items && items[id].conversation == c && items[id].state == Q.State.Pending
  }

  /** The item is an oldest pending one of its conversation. */
  predicate IsOldest(items: Q.Items, c: string, id: string) {
    && IsPending(items, c, id)
    && forall k | k in items :: IsPending(items, c, k) ==> items[id].createdAt <= items[k].createdAt
  }

  /** A conversation waits longer if its oldest pending item is older, or as old and its id
      is smaller. */
  lemma LongerWaitingIff(items: Q.Items, c: string, d: string, id: string, k: string)
    requires IsOldest(items, c, id) && IsOldest(items, d, k) && c != "" && d != ""
    ensures Waits(items, c) && Waits(items, d)
    ensures LongerWaiting(items, c, d) <==>
      items[id].createdAt < items[k].createdAt || (items[id].createdAt == items[k].createdAt && Less(c, d))
  {
    assert id in Q.PendingOf(items, c) && k in Q.PendingOf(items, d);
    SinceIs(items, c, id);
    SinceIs(items, d, k);
  }

  lemma SinceIs(items: Q.Items, c: string, id: string)
    requires IsOldest(items, c, id) && Waits(items, c)
    ensures Since(items, c) == items[id].createdAt
  {
    assert id in Q.PendingOf(items, c);
    var t := Since(items, c);
    assert FirstCreated(items, c, t);
    var k :| k in Q.PendingOf(items, c) && items[k].createdAt == t;
    assert IsPending(items, c, k);
  }

  /** A conversation waits exactly if an item of it is pending. */
  lemma WaitsIff(items: Q.Items, c: string)
    ensures Waits(items, c) <==> c != "" && exists id :: IsPending(items, c, id)
  {
    if Waits(items, c) {
      var id :| id in Q.PendingOf(items, c);
      assert IsPending(items, c, id);
    }
    if id :| IsPending(items, c, id) { assert id in Q.PendingOf(items, c); }
  }

  lemma LongerWaitingIsStrict(items: Q.Items, c: string, d: string, e: string)
    requires Waits(items, c) && Waits(items, d) && Waits(items, e)
    ensures !LongerWaiting(items, c, c)
    ensures LongerWaiting(items, c, d) && LongerWaiting(items, d, e) ==> LongerWaiting(items, c, e)
    ensures c == d || LongerWaiting(items, c, d) || LongerWaiting(items, d, c)
  {
    LessIrreflexive(c);
    LessTotal(c, d);
    if Less(c, d) && Less(d, e) { LessTransitive(c, d, e); }
  }

  ghost function WaitingIn(items: Q.Items): set<string> {
    set id | id in items && Waits(items, items[id].conversation) :: items[id].conversation
  }

  lemma {:induction false} LongestWaiting(items: Q.Items, cs: set<string>) returns (c: string)
    requires cs != {} && forall d :: d in cs ==> Waits(items, d)
    ensures c in cs && forall d :: d in cs ==> d == c || LongerWaiting(items, c, d)
    decreases cs
  {
    c :| c in cs;
    if cs != {c} {
      var k := LongestWaiting(items, cs - {c});
      forall d | d in cs { LongerWaitingIsStrict(items, c, k, d); }
      LongerWaitingIsStrict(items, k, c, k);
      if LongerWaiting(items, k, c) { c := k; }
    }
  }

  lemma {:induction false} Ordered(items: Q.Items, tasks: D.Tasks, cs: set<string>) returns (rows: seq<Row>)
    requires forall c :: c in cs ==> Waits(items, c)
    ensures forall r :: r in rows <==> r.conversation in cs && r.scope == D.ScopeOf(tasks, r.conversation)
    ensures forall i, j :: 0 <= i < j < |rows| ==>
      Waits(items, rows[i].conversation) && Waits(items, rows[j].conversation)
      && LongerWaiting(items, rows[i].conversation, rows[j].conversation)
    decreases cs
  {
    if cs == {} { return []; }
    var c := LongestWaiting(items, cs);
    var rest := Ordered(items, tasks, cs - {c});
    rows := [Row(c, D.ScopeOf(tasks, c))] + rest;
    forall i, j | 0 <= i < j < |rows|
      ensures Waits(items, rows[i].conversation) && Waits(items, rows[j].conversation)
      ensures LongerWaiting(items, rows[i].conversation, rows[j].conversation)
    {
      assert rows[j] in rest && (i > 0 ==> rows[i] in rest);
    }
  }

  /** The query has exactly one answer. */
  lemma ListingExists(items: Q.Items, tasks: D.Tasks)
    ensures exists rows :: Listing(items, tasks, rows)
  {
    forall c | Waits(items, c) ensures c in WaitingIn(items) {
      var id :| id in Q.PendingOf(items, c);
    }
    var rows := Ordered(items, tasks, WaitingIn(items));
    assert Listing(items, tasks, rows);
  }

  lemma {:induction false} SameListing(items: Q.Items, a: seq<Row>, b: seq<Row>)
    requires forall r :: r in a <==> r in b
    requires forall r :: r in a ==> Waits(items, r.conversation)
    requires forall i, j :: 0 <= i < j < |a| ==> LongerWaiting(items, a[i].conversation, a[j].conversation)
    requires forall i, j :: 0 <= i < j < |b| ==> LongerWaiting(items, b[i].conversation, b[j].conversation)
    ensures a == b
  {
    assert a != [] ==> a[0] in b;
    assert b != [] ==> b[0] in a;
    if a == [] {
    } else {
      LongerWaitingIsStrict(items, a[0].conversation, b[0].conversation, a[0].conversation);
      assert a[0] == b[0];
      SameRest(items, a, b);
      SameListing(items, a[1..], b[1..]);
    }
  }

  lemma SameRest(items: Q.Items, a: seq<Row>, b: seq<Row>)
    requires a != [] && b != [] && a[0] == b[0] && forall r :: r in a <==> r in b
    requires forall r :: r in a ==> Waits(items, r.conversation)
    requires forall i, j :: 0 <= i < j < |a| ==> LongerWaiting(items, a[i].conversation, a[j].conversation)
    requires forall i, j :: 0 <= i < j < |b| ==> LongerWaiting(items, b[i].conversation, b[j].conversation)
    ensures forall r :: r in a[1..] <==> r in b[1..]
  {
    var c := a[0].conversation;
    LongerWaitingIsStrict(items, c, c, c);
    forall r ensures r in a[1..] <==> r in b[1..] {
      assert r in a[1..] <==> r in a && r != a[0];
      assert r in b[1..] <==> r in b && r != b[0];
    }
  }

  lemma ListingIsUnique(items: Q.Items, tasks: D.Tasks, a: seq<Row>, b: seq<Row>)
    requires Listing(items, tasks, a) && Listing(items, tasks, b)
    ensures a == b
  {
    forall r ensures r in a <==> r in b {
      if r in a { assert Row(r.conversation, D.ScopeOf(tasks, r.conversation)) in b; }
      if r in b { assert Row(r.conversation, D.ScopeOf(tasks, r.conversation)) in a; }
    }
    SameListing(items, a, b);
  }

  // ------------------------------------------- what the list says of the queue

  lemma {:induction false} FilterSplits(rows: seq<Row>, n: nat, scope: string)
    requires n <= |rows|
    ensures Filter(rows[..n], scope) <= Filter(rows, scope)
  {
    if n < |rows| {
      FilterSplits(rows[..|rows| - 1], n, scope);
      assert rows[..|rows| - 1][..n] == rows[..n];
    } else {
      assert rows[..n] == rows;
    }
  }

  /** The j-th row stands in its scope's list behind all earlier ones. */
  lemma FilterAt(rows: seq<Row>, j: nat)
    requires j < |rows|
    ensures var f := Filter(rows, rows[j].scope);
      var n := |Filter(rows[..j], rows[j].scope)|;
      n < |f| && f[n] == rows[j] && f[..n] == Filter(rows[..j], rows[j].scope)
  {
    assert rows[..j + 1][..j] == rows[..j];
    FilterSplits(rows, j + 1, rows[j].scope);
  }

  lemma {:induction false} FilterHas(rows: seq<Row>, r: Row)
    requires r in rows
    ensures r in Filter(rows, r.scope)
  {
    var last := |rows| - 1;
    if rows[last] != r {
      assert r in rows[..last];
      FilterHas(rows[..last], r);
    }
  }

  /** The list of a scope keeps the order of the rows. */
  lemma {:induction false} FilterKeepsOrder(items: Q.Items, rows: seq<Row>, scope: string)
    requires forall r :: r in rows ==> Waits(items, r.conversation)
    requires forall i, j :: 0 <= i < j < |rows| ==> LongerWaiting(items, rows[i].conversation, rows[j].conversation)
    ensures var f := Filter(rows, scope);
      && (forall r :: r in f ==> Waits(items, r.conversation))
      && forall a, b :: 0 <= a < b < |f| ==> LongerWaiting(items, f[a].conversation, f[b].conversation)
  {
    FilterScope(rows, scope);
    if rows != [] {
      var early := rows[..|rows| - 1];
      FilterKeepsOrder(items, early, scope);
      FilterScope(early, scope);
      forall r | r in early ensures LongerWaiting(items, r.conversation, rows[|rows| - 1].conversation) {
        var i :| 0 <= i < |early| && early[i] == r;
        assert rows[i] == r;
      }
    }
  }

  /** Only conversations that wait, each with its scope and at most once; within a
      scope, longer waiting ones first. */
  ghost predicate InOrder(items: Q.Items, tasks: D.Tasks, out: seq<Row>) {
    && (forall r :: r in out ==> Waits(items, r.conversation) && r.scope == D.ScopeOf(tasks, r.conversation))
    && (forall i, j :: 0 <= i < j < |out| ==> out[i].conversation != out[j].conversation)
    && (forall i, j :: 0 <= i < j < |out| && out[i].scope == out[j].scope ==>
         LongerWaiting(items, out[i].conversation, out[j].conversation))
  }

  lemma LaterWaitsLess(items: Q.Items, tasks: D.Tasks, rows: seq<Row>, out: seq<Row>, i: nat, j: nat)
    requires Listing(items, tasks, rows) && Fair(rows, ScopesOf(rows), out)
    requires i < j < |out| && out[i].scope == out[j].scope
    requires Waits(items, out[i].conversation) && Waits(items, out[j].conversation)
    ensures LongerWaiting(items, out[i].conversation, out[j].conversation)
  {
    var scope := out[j].scope;
    FilterKeepsOrder(items, rows, scope);
    FilterAt(out, j);
    FilterHas(out[..j], out[..j][i]);
    var early, all := Filter(out[..j], scope), Filter(rows, scope);
    assert Filter(out, scope) <= all;
    assert out[i] in early;
    var a :| 0 <= a < |early| && early[a] == out[i];
    assert all[a] == out[i] && all[|early|] == out[j];
  }

  lemma ScheduleInOrder(items: Q.Items, tasks: D.Tasks, rows: seq<Row>, out: seq<Row>)
    requires Listing(items, tasks, rows) && Fair(rows, ScopesOf(rows), out) && multiset(out) <= multiset(rows)
    ensures InOrder(items, tasks, out)
  {
    forall r | r in out ensures r in rows {
      assert r in multiset(out);
      assert r in multiset(rows);
    }
    forall i, j | 0 <= i < j < |out| && out[i].scope == out[j].scope
      ensures LongerWaiting(items, out[i].conversation, out[j].conversation)
    {
      assert out[i] in out && out[j] in out;
      LaterWaitsLess(items, tasks, rows, out, i, j);
    }
    forall i, j | 0 <= i < j < |out| ensures out[i].conversation != out[j].conversation {
      assert out[i] in out && out[j] in out;
      LongerWaitingIsStrict(items, out[i].conversation, out[i].conversation, out[i].conversation);
    }
  }

  /** When as many are listed as there are rows, every waiting conversation is. */
  lemma EveryoneIsListed(items: Q.Items, tasks: D.Tasks, rows: seq<Row>, out: seq<Row>, c: string)
    requires Listing(items, tasks, rows) && multiset(out) <= multiset(rows) && |out| == |rows| && Waits(items, c)
    ensures Row(c, D.ScopeOf(tasks, c)) in out
  {
    assert multiset(rows) == multiset(out) + (multiset(rows) - multiset(out));
    assert |multiset(rows) - multiset(out)| == 0;
    assert multiset(rows) == multiset(out);
    assert Row(c, D.ScopeOf(tasks, c)) in multiset(rows);
  }

  predicate ServedBy(out: seq<Row>, scope: string, served: seq<Row>) {
    Filter(out, scope) == served
  }

  /** The first scopes are served once each, the others not yet. */
  ghost predicate ServedOnce(scopes: seq<string>, out: seq<Row>, before: seq<Row>) {
    && |before| <= |scopes| && before <= out
    && forall k :: 0 <= k < |scopes| ==>
         ServedBy(before, scopes[k], if k < |before| then [out[k]] else [])
  }

  /** The next row belongs to the next scope: were it of another one, that would be
      ahead of it. */
  lemma NextScope(rows: seq<Row>, before: seq<Row>, row: Row, next: string, nextFirst: bool)
    requires Filter(before, next) == [] && Filter(rows, next) != []
    requires |Filter(before, row.scope)| == (if nextFirst then 0 else 1)
    requires Balanced(rows, before + [row], row.scope, next, nextFirst)
    ensures row.scope == next
  {
    FilterSnoc(before, row, next);
    FilterSnoc(before, row, row.scope);
  }

  /** The scopes are distinct, and are those that have rows. */
  ghost predicate AllScopes(rows: seq<Row>, scopes: seq<string>) {
    Distinct(scopes) && forall s :: s in scopes <==> Filter(rows, s) != []
  }

  lemma NextRow(rows: seq<Row>, scopes: seq<string>, out: seq<Row>, before: seq<Row>)
    requires ServedOnce(scopes, out, before) && |before| < |out| && |before| < |scopes|
    requires Fair(rows, scopes, before + [out[|before|]]) && AllScopes(rows, scopes)
    ensures out[|before|].scope == scopes[|before|]
  {
    var m := |before|;
    var row := out[m];
    FilterSnoc(before, row, row.scope);
    assert Filter(before + [row], row.scope) <= Filter(rows, row.scope);
    var k :| 0 <= k < |scopes| && scopes[k] == row.scope;
    assert ServedBy(before, scopes[k], if k < m then [out[k]] else []) && ServedBy(before, scopes[m], []);
    assert scopes[m] in scopes;
    assert Balanced(rows, before + [row], scopes[k], scopes[m], m < k);
    if k != m {
      NextScope(rows, before, row, scopes[m], m < k);
    }
  }

  lemma ServeNext(scopes: seq<string>, out: seq<Row>, before: seq<Row>)
    requires ServedOnce(scopes, out, before) && |before| < |out| && |before| < |scopes|
    requires out[|before|].scope == scopes[|before|] && Distinct(scopes)
    ensures ServedOnce(scopes, out, before + [out[|before|]])
  {
    var m := |before|;
    var row := out[m];
    forall j | 0 <= j < |scopes| ensures ServedBy(before + [row], scopes[j], if j < m + 1 then [out[j]] else []) {
      assert ServedBy(before, scopes[j], if j < m then [out[j]] else []);
      FilterSnoc(before, row, scopes[j]);
    }
  }

  lemma {:induction false} FirstRound(rows: seq<Row>, scopes: seq<string>, out: seq<Row>, m: nat)
    requires m <= |out| && m <= |scopes| && AlwaysFair(rows, scopes, out) && AllScopes(rows, scopes)
    ensures ServedOnce(scopes, out, out[..m])
  {
    if m > 0 {
      FirstRound(rows, scopes, out, m - 1);
      var before, after := LastStep(out, m);
      assert Fair(rows, scopes, out[..m]);
      StepOfRound(rows, scopes, out, before, after);
    } else {
      NothingServed(scopes, out, out[..0]);
    }
  }

  lemma LastStep<T>(s: seq<T>, m: nat) returns (before: seq<T>, after: seq<T>)
    requires 0 < m <= |s|
    ensures before == s[..m - 1] && after == s[..m] && |before| == m - 1 && after == before + [s[|before|]]
  {
    before, after := s[..m - 1], s[..m];
  }

  lemma NothingServed(scopes: seq<string>, out: seq<Row>, before: seq<Row>)
    requires before == []
    ensures ServedOnce(scopes, out, before)
  {
  }

  lemma StepOfRound(rows: seq<Row>, scopes: seq<string>, out: seq<Row>, before: seq<Row>, after: seq<Row>)
    requires ServedOnce(scopes, out, before) && |before| < |out| && |before| < |scopes|
    requires Fair(rows, scopes, after) && AllScopes(rows, scopes) && after == before + [out[|before|]]
    ensures ServedOnce(scopes, out, after)
  {
    NextRow(rows, scopes, out, before);
    ServeNext(scopes, out, before);
  }

  lemma HeadOfScope(items: Q.Items, tasks: D.Tasks, rows: seq<Row>, c: string)
    requires Listing(items, tasks, rows) && Waits(items, c)
    ensures var f := Filter(rows, D.ScopeOf(tasks, c));
      && f != [] && f[0] in rows
      && (f[0].conversation == c || LongerWaiting(items, f[0].conversation, c))
  {
    var s := D.ScopeOf(tasks, c);
    FilterHas(rows, Row(c, s));
    FilterScope(rows, s);
    FilterKeepsOrder(items, rows, s);
  }

  /** The scope of a waiting conversation is served in the first round, and by the
      conversation that has waited longest. */
  ghost predicate Heard(items: Q.Items, tasks: D.Tasks, rows: seq<Row>, out: seq<Row>, c: string)
    requires Waits(items, c)
  {
    exists k :: 0 <= k < |ScopesOf(rows)| && k < |out| && Serves(items, tasks, out[k], c)
  }

  ghost predicate Serves(items: Q.Items, tasks: D.Tasks, r: Row, c: string)
    requires Waits(items, c)
  {
    && r.scope == D.ScopeOf(tasks, c) && Waits(items, r.conversation)
    && (r.conversation == c || LongerWaiting(items, r.conversation, c))
  }

  /** However long the backlog of one project, no other is starved. */
  lemma EveryScopeIsHeard(items: Q.Items, tasks: D.Tasks, rows: seq<Row>, out: seq<Row>, c: string)
    requires Listing(items, tasks, rows) && Waits(items, c) && |ScopesOf(rows)| <= |out|
    requires AlwaysFair(rows, ScopesOf(rows), out)
    ensures Heard(items, tasks, rows, out, c)
  {
    var scopes, s := ScopesOf(rows), D.ScopeOf(tasks, c);
    HeadOfScope(items, tasks, rows, c);
    ScopesDistinct(rows);
    assert s in scopes;
    var k :| 0 <= k < |scopes| && scopes[k] == s;
    FirstRound(rows, scopes, out, |scopes|);
    assert ServedBy(out[..|scopes|], s, [out[k]]);
    assert Fair(rows, scopes, out[..|scopes|]);
    assert [out[k]] <= Filter(rows, s);
    FilterScope(rows, s);
    assert Serves(items, tasks, out[k], c);
  }

  /** ListSessionContinueQueueConversations, given what its query answers. */
  method ListConversations(rows: seq<Row>, limit: int, ghost items: Q.Items, ghost tasks: D.Tasks)
    returns (out: seq<Row>)
    requires Listing(items, tasks, rows)
    ensures InOrder(items, tasks, out) && |out| <= if 1 <= limit <= 1000 then limit else 200
    ensures |out| < (if 1 <= limit <= 1000 then limit else 200) ==>
      forall c :: Waits(items, c) ==> Row(c, D.ScopeOf(tasks, c)) in out
    ensures |ScopesOf(rows)| <= |out| ==> forall c :: Waits(items, c) ==> Heard(items, tasks, rows, out, c)
  {
    out := Interleave(rows, limit);
    assert out[..|out|] == out;
    assert Fair(rows, ScopesOf(rows), out[..|out|]);
    ScheduleInOrder(items, tasks, rows, out);
    forall c | Waits(items, c)
      ensures |out| == |rows| ==> Row(c, D.ScopeOf(tasks, c)) in out
      ensures |ScopesOf(rows)| <= |out| ==> Heard(items, tasks, rows, out, c)
    {
      if |out| == |rows| { EveryoneIsListed(items, tasks, rows, out, c); }
      if |ScopesOf(rows)| <= |out| { EveryScopeIsHeard(items, tasks, rows, out, c); }
    }
  }
}
