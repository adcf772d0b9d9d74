/** Skill candidates found in a repository (internal/skills/git.go): nested ones are
    dropped, the rest sorted by name and deduplicated by path. */
module GitSkills {
  import opened Paths
  import opened Sorting
  import opened Text

  datatype Candidate = Candidate(name: string, description: string, subpath: string)

  function Slashes(s: string): (r: string)
    ensures |r| == |s| && forall i :: 0 <= i < |s| ==> r[i] == if s[i] == '\\' then '/' else s[i]
    ensures Without(r, '\\') && (Without(s, '\\') ==> r == s)
  {
    if s == "" then "" else [if s[0] == '\\' then '/' else s[0]] + Slashes(s[1..])
  }

  /** cleanCandidateSubpath */
  function CleanSubpath(subpath: string): string {
    var s := Trim(subpath);
    if s == "" || s == "." then "."
    else
      var s := Slashes(s);
      Clean(if "./" <= s then s[2..] else s)
  }

  /** isCandidateNested, on cleaned paths. */
  predicate Under(child: string, parent: string) {
    child != "." && child != parent && (parent == "." || parent + "/" <= child)
  }

  predicate IsNested(child: string, parent: string) {
    Under(CleanSubpath(child), CleanSubpath(parent))
  }

  function Depth(path: string): nat {
    if path == "." then 0 else |SplitSlash(path)|
  }

  // --------------------------------------------------------- cleaning is stable

  lemma CleanWithout(path: string, c: char)
    requires Without(path, c) && c != '/' && c != '.'
    ensures Without(Clean(path), c)
  {
    if path != "" {
      SplitWithout(path, c);
      WalkWithout([], SplitSlash(path), path[0] == '/', c);
      JoinWithout(Walk([], SplitSlash(path), path[0] == '/'), c);
    }
  }

  lemma {:induction false} WalkWithout(stack: seq<string>, parts: seq<string>, rooted: bool, c: char)
    requires c != '.' && forall i :: 0 <= i < |parts| ==> Without(parts[i], c)
    requires forall i :: 0 <= i < |stack| ==> Without(stack[i], c)
    ensures forall i :: 0 <= i < |Walk(stack, parts, rooted)| ==> Without(Walk(stack, parts, rooted)[i], c)
    decreases |parts|
  {
    if parts != [] {
      WalkWithout(Push(stack, parts[0], rooted), parts[1..], rooted, c);
    }
  }

  lemma CleanHasNoDotSlash(path: string)
    requires IsClean(path)
    ensures !("./" <= path) && path != ""
  {
    if parts: seq<string> :| parts != [] && Normal(parts, false) && path == JoinSlash(parts) {
      JoinHead(parts);
    } else if path != "." {
      assert path[0] == '/';
    }
  }

  /** A cleaned path without white space around it is cleaned to itself. */
  lemma CleanSubpathIsStable(subpath: string)
    requires Trimmed(CleanSubpath(subpath))
    ensures CleanSubpath(CleanSubpath(subpath)) == CleanSubpath(subpath) != ""
  {
    var path := CleanSubpath(subpath);
    var s := Slashes(Trim(subpath));
    if path != "." {
      var rest := if "./" <= s then s[2..] else s;
      CleanIsClean(rest);
      CleanWithout(rest, '\\');
      CleanHasNoDotSlash(path);
      TrimIsTrimmed(path);
      CleanKeepsClean(path);
    } else {
      TrimIsTrimmed(path);
    }
  }

  // -------------------------------------------------------------- nesting

  /** A directory lies under another if its path goes on where that of the other ends. */
  lemma UnderIff(child: string, parent: string)
    requires FoundPath(child) && FoundPath(parent) && child != "." && parent != "."
    ensures Under(child, parent) <==> child != parent && SplitSlash(parent) <= SplitSlash(child)
  {
    if Under(child, parent) {
      var name := child[|parent| + 1..];
      assert child == parent + "/" + name;
      SplitJoins(parent, name);
    }
    if child != parent && SplitSlash(parent) <= SplitSlash(child) {
      LongerSplit(parent, child);
      JoinOfSplit(child);
      JoinOfSplit(parent);
      var rest := SplitSlash(child)[|SplitSlash(parent)|..];
      assert SplitSlash(child) == SplitSlash(parent) + rest;
      JoinOfBoth(SplitSlash(parent), rest);
    }
  }

  lemma LongerSplit(parent: string, child: string)
    requires SplitSlash(parent) <= SplitSlash(child) && child != parent
    ensures |SplitSlash(parent)| < |SplitSlash(child)|
  {
    JoinOfSplit(child);
    JoinOfSplit(parent);
    assert SplitSlash(parent) != SplitSlash(child);
  }

  lemma {:induction false} JoinOfBoth(a: seq<string>, b: seq<string>)
    requires a != [] && b != []
    ensures JoinSlash(a + b) == JoinSlash(a) + "/" + JoinSlash(b)
  {
    if |a| > 1 {
      assert (a + b)[1..] == a[1..] + b;
      JoinOfBoth(a[1..], b);
      assert a[0] + "/" + (JoinSlash(a[1..]) + "/" + JoinSlash(b))
          == a[0] + "/" + JoinSlash(a[1..]) + "/" + JoinSlash(b);
    } else {
      assert (a + b)[1..] == b;
    }
  }

  lemma UnderIsDeeper(child: string, parent: string)
    requires Under(child, parent)
    ensures Depth(parent) < Depth(child)
  {
    if parent != "." {
      SplitJoins(parent, child[|parent| + 1..]);
      assert child == parent + "/" + child[|parent| + 1..];
    }
  }

  lemma UnderIsTransitive(a: string, b: string, c: string)
    requires Under(a, b) && Under(b, c)
    ensures Under(a, c)
  {
    UnderIsDeeper(a, b);
    UnderIsDeeper(b, c);
  }

  /** Some candidate's path lies strictly above. */
  predicate HasAncestor(paths: set<string>, path: string) {
    exists q | q in paths :: Under(path, q)
  }

  /** The topmost ancestor has no ancestor itself. */
  lemma {:induction false} Topmost(paths: set<string>, path: string) returns (top: string)
    requires path in paths
    ensures top in paths && !HasAncestor(paths, top) && (top == path || Under(path, top))
    decreases Depth(path)
  {
    top := path;
    if HasAncestor(paths, path) {
      var q :| q in paths && Under(path, q);
      UnderIsDeeper(path, q);
      top := Topmost(paths, q);
      if top != q { UnderIsTransitive(path, q, top); }
    }
  }

  // ------------------------------------------------------------- the filter

  predicate ShallowFirst(a: Candidate, b: Candidate) {
    var m, n := Depth(a.subpath), Depth(b.subpath);
    m < n || (m == n && LessEq(a.subpath, b.subpath))
  }

  predicate ByName(a: Candidate, b: Candidate) {
    if a.name == b.name then LessEq(a.subpath, b.subpath) else Less(a.name, b.name)
  }

  lemma OrdersAreTotal()
    ensures TotalPreorder(ShallowFirst) && TotalPreorder(ByName)
  {
    LessEqIsTotalOrder();
    forall a, b, c | ByName(a, b) && ByName(b, c) ensures ByName(a, c) {
      if a.name != b.name && b.name != c.name {
        LessTransitive(a.name, b.name, c.name);
        LessIrreflexive(a.name);
      }
    }
    forall a, b ensures ByName(a, b) || ByName(b, a) {
      LessTotal(a.name, b.name);
    }
  }

  function PathsOf(cands: seq<Candidate>): set<string> {
    set c | c in cands :: c.subpath
  }

  function Cleaned(cands: seq<Candidate>): (r: seq<Candidate>)
    ensures |r| == |cands| && forall i :: 0 <= i < |r| ==> r[i] == cands[i].(subpath := CleanSubpath(cands[i].subpath))
  {
    if cands == [] then [] else [cands[0].(subpath := CleanSubpath(cands[0].subpath))] + Cleaned(cands[1..])
  }

  /** Those without an ancestor among `paths`, in order. */
  function Tops(items: seq<Candidate>, paths: set<string>): seq<Candidate> {
    if items == [] then [] else
      var rest, last := items[..|items| - 1], items[|items| - 1];
      Tops(rest, paths) + (if HasAncestor(paths, last.subpath) then [] else [last])
  }

  lemma {:induction false} TopsMembers(items: seq<Candidate>, paths: set<string>, c: Candidate)
    ensures c in Tops(items, paths) <==> c in items && !HasAncestor(paths, c.subpath)
  {
    if items != [] {
      var n := |items| - 1;
      TopsMembers(items[..n], paths, c);
      assert items == items[..n] + [items[n]];
    }
  }

  lemma AncestorIsKept(items: seq<Candidate>, i: nat) returns (top: Candidate)
    requires SortedBy(items, ShallowFirst) && i < |items| && HasAncestor(PathsOf(items), items[i].subpath)
    ensures top in Tops(items[..i], PathsOf(items)) && Under(items[i].subpath, top.subpath)
  {
    var p := TopAncestor(PathsOf(items), items[i].subpath);
    var k :| 0 <= k < |items| && items[k].subpath == p;
    ShallowerIsEarlier(items, k, i);
    top := items[k];
    assert items[..i][k] == top;
    TopsMembers(items[..i], PathsOf(items), top);
  }

  lemma TopAncestor(paths: set<string>, path: string) returns (top: string)
    requires HasAncestor(paths, path)
    ensures top in paths && !HasAncestor(paths, top) && Under(path, top) && Depth(top) < Depth(path)
  {
    var q :| q in paths && Under(path, q);
    top := Topmost(paths, q);
    if top != q { UnderIsTransitive(path, q, top); }
    UnderIsDeeper(path, top);
  }

  lemma ShallowerIsEarlier(items: seq<Candidate>, k: nat, i: nat)
    requires SortedBy(items, ShallowFirst) && k < |items| && i < |items|
    requires Depth(items[k].subpath) < Depth(items[i].subpath)
    ensures k < i
  {
    assert k > i ==> ShallowFirst(items[i], items[k]);
  }

  /** What the loop relies on: an item has an ancestor at all exactly when it lies
      under one of the items kept before it. */
  lemma NestedUnderKept(items: seq<Candidate>, i: nat)
    requires SortedBy(items, ShallowFirst) && i < |items|
    ensures HasAncestor(PathsOf(items), items[i].subpath)
      <==> exists c :: c in Tops(items[..i], PathsOf(items)) && Under(items[i].subpath, c.subpath)
  {
    if HasAncestor(PathsOf(items), items[i].subpath) {
      var top := AncestorIsKept(items, i);
    }
    if c :| c in Tops(items[..i], PathsOf(items)) && Under(items[i].subpath, c.subpath) {
      TopsMembers(items[..i], PathsOf(items), c);
      assert c in items;
    }
  }

  /** Trimmed and cleaned: what a walk of a repository yields, unless a directory name
      starts or ends with white space in the wrong place. */
  predicate Stable(cands: seq<Candidate>) {
    forall i | 0 <= i < |cands| :: Trimmed(CleanSubpath(cands[i].subpath))
  }

  predicate CleanPath(path: string) {
    CleanSubpath(path) == path && Trimmed(path) && path != ""
  }

  predicate AllClean(items: seq<Candidate>) {
    forall i | 0 <= i < |items| :: CleanPath(items[i].subpath)
  }

  function Shallowest(cands: seq<Candidate>): seq<Candidate> {
    Sort(Cleaned(cands), ShallowFirst)
  }

  lemma ShallowestIsClean(cands: seq<Candidate>)
    requires Stable(cands)
    ensures AllClean(Shallowest(cands)) && SortedBy(Shallowest(cands), ShallowFirst)
    ensures forall c :: c in Shallowest(cands) <==> c in Cleaned(cands)
  {
    OrdersAreTotal();
    SortCorrect(Cleaned(cands), ShallowFirst);
    var items := Shallowest(cands);
    forall i | 0 <= i < |items| ensures CleanPath(items[i].subpath) {
      assert items[i] in Cleaned(cands);
      var k :| 0 <= k < |cands| && items[i] == Cleaned(cands)[k];
      CleanSubpathIsStable(cands[k].subpath);
    }
  }

  lemma TopsNext(items: seq<Candidate>, paths: set<string>, i: nat)
    requires i < |items|
    ensures Tops(items[..i + 1], paths)
         == Tops(items[..i], paths) + (if HasAncestor(paths, items[i].subpath) then [] else [items[i]])
    ensures forall c :: c in Tops(items[..i], paths) ==> c in items
  {
    assert items[..i + 1][..i] == items[..i];
    forall c | c in Tops(items[..i], paths) ensures c in items { TopsMembers(items[..i], paths, c); }
  }

  predicate NestedInAny(path: string, kept: seq<Candidate>) {
    kept != [] && (IsNested(path, kept[0].subpath) || NestedInAny(path, kept[1..]))
  }

  lemma {:induction false} NestedInAnyIs(path: string, kept: seq<Candidate>)
    ensures NestedInAny(path, kept) <==> exists i :: 0 <= i < |kept| && IsNested(path, kept[i].subpath)
  {
    if kept != [] {
      NestedInAnyIs(path, kept[1..]);
      if i :| 0 <= i < |kept| && IsNested(path, kept[i].subpath) {
        assert i > 0 ==> kept[1..][i - 1] == kept[i];
      }
      if i :| 0 <= i < |kept[1..]| && IsNested(path, kept[1..][i].subpath) {
        assert kept[i + 1] == kept[1..][i];
      }
    }
  }

  /** What the loop keeps: the items not nested under one kept before. */
  function Survivors(items: seq<Candidate>): seq<Candidate> {
    if items == [] then [] else
      var kept, last := Survivors(items[..|items| - 1]), items[|items| - 1];
      if NestedInAny(last.subpath, kept) then kept else kept + [last]
  }

  method FilterOutNested(cands: seq<Candidate>) returns (kept: seq<Candidate>)
    ensures kept == Survivors(Shallowest(cands))
  {
    var items := Shallowest(cands);
    kept := [];
    for i := 0 to |items|
      invariant kept == Survivors(items[..i])
    {
      assert items[..i + 1][..i] == items[..i];
      var nested := IsNestedInAny(items[i].subpath, kept);
      if nested { continue; }
      kept := kept + [items[i]];
    }
    assert items[..|items|] == items;
  }

  /** The inner loop. */
  method IsNestedInAny(path: string, kept: seq<Candidate>) returns (nested: bool)
    ensures nested <==> NestedInAny(path, kept)
  {
    for j := 0 to |kept|
      invariant NestedInAny(path, kept) == NestedInAny(path, kept[j..])
    {
      assert kept[j..][0] == kept[j] && kept[j..][1..] == kept[j + 1..];
      if IsNested(path, kept[j].subpath) {
        return true;
      }
    }
    return false;
  }

  lemma NestedIsUnder(items: seq<Candidate>, i: nat, kept: seq<Candidate>)
    requires AllClean(items) && i < |items| && forall c :: c in kept ==> c in items
    ensures NestedInAny(items[i].subpath, kept) <==> exists c :: c in kept && Under(items[i].subpath, c.subpath)
  {
    NestedInAnyIs(items[i].subpath, kept);
    forall k | 0 <= k < |kept|
      ensures IsNested(items[i].subpath, kept[k].subpath) <==> Under(items[i].subpath, kept[k].subpath)
    {
      assert kept[k] in items;
    }
  }

  /** Keeping what is not nested under something kept before keeps exactly the
      candidates without a strict ancestor anywhere in the input. */
  lemma {:induction false} SurvivorsAreTops(items: seq<Candidate>, i: nat)
    requires AllClean(items) && SortedBy(items, ShallowFirst) && i <= |items|
    ensures Survivors(items[..i]) == Tops(items[..i], PathsOf(items))
  {
    if i > 0 {
      SurvivorsAreTops(items, i - 1);
      var kept := Survivors(items[..i - 1]);
      assert items[..i][..i - 1] == items[..i - 1];
      TopsNext(items, PathsOf(items), i - 1);
      NestedIsUnder(items, i - 1, kept);
      NestedUnderKept(items, i - 1);
    }
  }

  // -------------------------------------------------------- deduplication

  /** The first candidate of each path, skipping blank paths. */
  function FirstOfPath(cands: seq<Candidate>): seq<Candidate> {
    if cands == [] then [] else
      var before, last := FirstOfPath(cands[..|cands| - 1]), cands[|cands| - 1];
      if Trim(last.subpath) == "" || Trim(last.subpath) in Keys(before) then before else before + [last]
  }

  function Keys(cands: seq<Candidate>): set<string> {
    set c | c in cands :: Trim(c.subpath)
  }

  method Dedupe(cands: seq<Candidate>) returns (out: seq<Candidate>)
    ensures out == FirstOfPath(cands)
  {
    var seen: set<string> := {};
    out := [];
    for i := 0 to |cands|
      invariant out == FirstOfPath(cands[..i]) && seen == Keys(out)
    {
      assert cands[..i + 1][..i] == cands[..i];
      var key := Trim(cands[i].subpath);
      if key == "" || key in seen { continue; }
      seen := seen + {key};
      out := out + [cands[i]];
    }
    assert cands[..|cands|] == cands;
  }

  ghost predicate Represented(out: seq<Candidate>, c: Candidate, leq: (Candidate, Candidate) -> bool) {
    exists o :: o in out && o.subpath == c.subpath && leq(o, c)
  }

  predicate DistinctPaths(out: seq<Candidate>) {
    forall i, j | 0 <= i < j < |out| :: out[i].subpath != out[j].subpath
  }

  /** Of every path the first candidate, and nothing else, in the same order. */
  ghost predicate Picks(out: seq<Candidate>, cands: seq<Candidate>, leq: (Candidate, Candidate) -> bool) {
    && (forall c :: c in out ==> c in cands)
    && (forall c :: c in cands ==> Represented(out, c, leq))
    && DistinctPaths(out) && SortedBy(out, leq)
  }

  lemma PicksOld(out: seq<Candidate>, cands: seq<Candidate>, last: Candidate, o: Candidate,
                 leq: (Candidate, Candidate) -> bool)
    requires Picks(out, cands, leq) && o in out && o.subpath == last.subpath && leq(o, last)
    ensures Picks(out, cands + [last], leq)
  {
    MembersOfSnoc(cands, last);
    assert Represented(out, last, leq);
  }

  lemma MembersOfSnoc(s: seq<Candidate>, x: Candidate)
    ensures forall c :: c in s + [x] <==> c in s || c == x
  {
  }

  lemma RepresentedStill(out: seq<Candidate>, last: Candidate, c: Candidate, leq: (Candidate, Candidate) -> bool)
    requires Represented(out, c, leq) || (c == last && leq(last, last))
    ensures Represented(out + [last], c, leq)
  {
    MembersOfSnoc(out, last);
  }

  lemma AppendedInOrder(out: seq<Candidate>, last: Candidate, leq: (Candidate, Candidate) -> bool)
    requires DistinctPaths(out) && SortedBy(out, leq)
    requires forall o :: o in out ==> o.subpath != last.subpath && leq(o, last)
    ensures DistinctPaths(out + [last]) && SortedBy(out + [last], leq)
  {
    forall i | 0 <= i < |out| ensures leq(out[i], last) && out[i].subpath != last.subpath { assert out[i] in out; }
  }

  lemma PicksNew(out: seq<Candidate>, cands: seq<Candidate>, last: Candidate, leq: (Candidate, Candidate) -> bool)
    requires Picks(out, cands, leq) && leq(last, last)
    requires forall c :: c in cands ==> leq(c, last)
    requires forall o :: o in out ==> o.subpath != last.subpath
    ensures Picks(out + [last], cands + [last], leq)
  {
    MembersOfSnoc(cands, last);
    MembersOfSnoc(out, last);
    forall c | c in cands + [last] ensures Represented(out + [last], c, leq) {
      RepresentedStill(out, last, c, leq);
    }
    AppendedInOrder(out, last, leq);
  }

  predicate PlainPaths(cands: seq<Candidate>) {
    forall i | 0 <= i < |cands| :: Trimmed(cands[i].subpath) && cands[i].subpath != ""
  }

  lemma {:induction false} FirstOfPathPicks(cands: seq<Candidate>, leq: (Candidate, Candidate) -> bool)
    requires PlainPaths(cands) && SortedBy(cands, leq) && TotalPreorder(leq)
    ensures Picks(FirstOfPath(cands), cands, leq)
  {
    if cands != [] {
      var n := |cands| - 1;
      var rest, last := cands[..n], cands[n];
      var before := FirstOfPath(rest);
      FirstOfPathPicks(rest, leq);
      assert cands == rest + [last];
      TrimIsTrimmed(last.subpath);
      forall c | c in rest ensures leq(c, last) && Trim(c.subpath) == c.subpath {
        var i :| 0 <= i < n && cands[i] == c;
        TrimIsTrimmed(c.subpath);
      }
      if o :| o in before && o.subpath == last.subpath {
        assert Trim(o.subpath) in Keys(before);
        PicksOld(before, rest, last, o, leq);
      } else {
        assert last.subpath !in Keys(before);
        PicksNew(before, rest, last, leq);
      }
    }
  }

  // ---------------------------------------------------------- what is found

  function Discovered(cands: seq<Candidate>): seq<Candidate> {
    var items := Shallowest(cands);
    FirstOfPath(Sort(Survivors(items), ByName))
  }

  method Discover(cands: seq<Candidate>) returns (out: seq<Candidate>)
    ensures out == Discovered(cands)
  {
    out := FilterOutNested(cands);
    out := Sort(out, ByName);
    out := Dedupe(out);
  }

  /** Of every path without a strict ancestor among `all` the first candidate by name
      remains, and no others; sorted by name, one of a path. */
  ghost predicate AreTheTops(out: seq<Candidate>, all: seq<Candidate>) {
    && (forall o :: o in out ==> o in all && !HasAncestor(PathsOf(all), o.subpath))
    && (forall c :: c in all && !HasAncestor(PathsOf(all), c.subpath) ==> Represented(out, c, ByName))
    && DistinctPaths(out) && SortedBy(out, ByName)
  }

  lemma CleanedTops(cands: seq<Candidate>)
    requires Stable(cands)
    ensures AreTheTops(Discovered(cands), Cleaned(cands))
  {
    var items := Shallowest(cands);
    var tops := Tops(items, PathsOf(items));
    var sorted := Sort(tops, ByName);
    ShallowestIsClean(cands);
    SurvivorsAreTops(items, |items|);
    assert items[..|items|] == items;
    SamePaths(items, Cleaned(cands));
    OrdersAreTotal();
    SortCorrect(tops, ByName);
    forall c ensures c in sorted <==> c in items && !HasAncestor(PathsOf(items), c.subpath) {
      TopsMembers(items, PathsOf(items), c);
    }
    PlainFromClean(items, sorted);
    FirstOfPathPicks(sorted, ByName);
  }

  lemma SamePaths(a: seq<Candidate>, b: seq<Candidate>)
    requires forall c :: c in a <==> c in b
    ensures PathsOf(a) == PathsOf(b)
  {
  }

  lemma PlainFromClean(items: seq<Candidate>, some: seq<Candidate>)
    requires AllClean(items) && forall c :: c in some ==> c in items
    ensures PlainPaths(some)
  {
    forall i | 0 <= i < |some| ensures Trimmed(some[i].subpath) && some[i].subpath != "" {
      assert some[i] in items;
    }
  }

  // ------------------------------------------- directories as a walk finds them

  /** A path below the repository as filepath.Rel gives it. */
  predicate FoundPath(path: string) {
    path == "." || forall i | 0 <= i < |SplitSlash(path)| :: SplitSlash(path)[i] !in {"", ".", ".."}
  }

  /** No white space at either end, and no backslash. */
  predicate Settled(path: string) {
    Trimmed(path) && Without(path, '\\')
  }

  lemma FoundIsClean(path: string)
    requires FoundPath(path)
    ensures IsClean(path) && path != ""
  {
    if path != "." {
      SplitWithout(path, '/');
      JoinOfSplit(path);
      assert Normal(SplitSlash(path), false);
    }
  }

  lemma TrimShorter(s: string)
    ensures |Trim(s)| <= |s| && (!Trimmed(s) ==> |Trim(s)| < |s|)
  {
    TrimIsTrimmed(s);
    if s != "" && IsSpace(s[0]) {
      TrimLeftHead(s[1..]);
      TrimRightPrefix(TrimLeft(s));
    } else if s != "" && IsSpace(s[|s| - 1]) {
      TrimRightPrefix(s[..|s| - 1]);
    }
  }

  lemma CleanedIsNotLonger(subpath: string)
    requires subpath != "" && !Trimmed(subpath)
    ensures CleanSubpath(subpath) == "." || |CleanSubpath(subpath)| < |subpath|
  {
    TrimShorter(subpath);
    var s := Slashes(Trim(subpath));
    var rest := if "./" <= s then s[2..] else s;
    if rest != "" { CleanIsNotLonger(rest); }
  }

  /** A directory found goes through cleaning unchanged exactly when it is settled. */
  lemma UnchangedIffSettled(path: string)
    requires FoundPath(path)
    ensures CleanSubpath(path) == path <==> Settled(path)
  {
    FoundIsClean(path);
    if Settled(path) {
      TrimIsTrimmed(path);
      CleanHasNoDotSlash(path);
      CleanKeepsClean(path);
    } else if !Trimmed(path) {
      CleanedIsNotLonger(path);
    } else {
      CleanedHasNoBackslash(path);
    }
  }

  lemma CleanedHasNoBackslash(subpath: string)
    ensures Without(CleanSubpath(subpath), '\\')
  {
    var s := Slashes(Trim(subpath));
    CleanWithout(if "./" <= s then s[2..] else s, '\\');
  }

  predicate AllSettled(cands: seq<Candidate>) {
    forall i | 0 <= i < |cands| :: FoundPath(cands[i].subpath) && Settled(cands[i].subpath)
  }

  lemma {:induction false} SettledAreUnchanged(cands: seq<Candidate>)
    requires AllSettled(cands)
    ensures Cleaned(cands) == cands && Stable(cands)
  {
    forall i | 0 <= i < |cands| ensures Cleaned(cands)[i] == cands[i] && Trimmed(CleanSubpath(cands[i].subpath)) {
      UnchangedIffSettled(cands[i].subpath);
    }
  }

  /** Of every settled directory without a strict ancestor among those found the first
      candidate by name remains, and nothing else. */
  lemma DiscoveredAreTheTops(cands: seq<Candidate>)
    requires AllSettled(cands)
    ensures AreTheTops(Discovered(cands), cands)
  {
    SettledAreUnchanged(cands);
    CleanedTops(cands);
  }

  /** No candidate that remains lies under another, and every candidate found equals or
      lies under one that remains. */
  lemma DiscoveredIsAnAntichainThatCovers(cands: seq<Candidate>)
    requires AllSettled(cands)
    ensures var out := Discovered(cands);
      && (forall a, b :: a in out && b in out ==> !Under(a.subpath, b.subpath))
      && (forall c :: c in cands ==> Covered(out, c.subpath))
  {
    var out := Discovered(cands);
    DiscoveredAreTheTops(cands);
    forall a, b | a in out && b in out ensures !Under(a.subpath, b.subpath) {
      assert b.subpath in PathsOf(cands);
    }
    forall c | c in cands ensures Covered(out, c.subpath) {
      var top := Topmost(PathsOf(cands), c.subpath);
      var t :| t in cands && t.subpath == top;
      assert Represented(out, t, ByName);
      var o :| o in out && o.subpath == t.subpath && ByName(o, t);
    }
  }

  ghost predicate Covered(out: seq<Candidate>, path: string) {
    exists o :: o in out && (path == o.subpath || Under(path, o.subpath))
  }

  // ------------------------------------------------------- where it stops

  /** A file name without white space around it. */
  predicate PlainName(name: string) {
    && name != "" && name != "." && name != ".." && Trimmed(name)
    && Without(name, '/') && Without(name, '\\')
  }

  lemma CleanOfRelative(path: string, parts: seq<string>)
    requires path != "" && path != "." && path[0] != '/' && !("./" <= path) && Without(path, '\\') && Trim(path) == path
    requires SplitSlash(path) == parts && Normal(parts, false)
    ensures CleanSubpath(path) == JoinSlash(parts)
  {
    WalkOfNormal([], parts, false);
    assert [] + parts == parts;
  }

  lemma TrailingSpaceIsTrimmed(dir: string)
    requires PlainName(dir)
    ensures CleanSubpath(dir + " ") == dir
  {
    var path := dir + " ";
    assert path[..|path| - 1] == dir;
    assert TrimLeft(path) == path && TrimLeft(dir) == dir && TrimRight(path) == TrimRight(dir);
    TrimIsTrimmed(dir);
    SplitPart(dir);
    CleanOfRelative(dir, [dir]);
  }

  lemma BelowTrailingSpace(dir: string, name: string, parent: string, child: string)
    requires PlainName(dir) && PlainName(name) && parent == dir + " " && child == parent + "/" + name
    ensures CleanSubpath(child) == child
  {
    SplitPart(parent);
    SplitPart(name);
    SplitJoins(parent, name);
    assert child[0] == dir[0] && child[|child| - 1] == name[|name| - 1];
    TrimIsTrimmed(child);
    assert SplitSlash(child) == [parent, name];
    assert child[|dir|] == ' ' && (|dir| == 1 ==> dir == [dir[0]]);
    CleanOfRelative(child, [parent, name]);
    assert [parent, name][1..] == [name];
  }

  /** Directories that are not settled go wrong: one whose name ends in a space, and what
      lies in it, both remain. */
  lemma TrailingSpaceEscapes(dir: string, name: string, a: Candidate, b: Candidate)
    requires PlainName(dir) && PlainName(name) && a.subpath == dir + " " && b.subpath == a.subpath + "/" + name
    ensures Under(b.subpath, a.subpath)
    ensures Remains([a, b], dir) && Remains([a, b], b.subpath)
  {
    TrailingSpaceIsTrimmed(dir);
    BelowTrailingSpace(dir, name, a.subpath, b.subpath);
    NotBelowTrimmed(dir, name, b.subpath);
    BothRemain(a, b);
  }

  ghost predicate Remains(cands: seq<Candidate>, path: string) {
    exists o :: o in Discovered(cands) && o.subpath == path
  }

  lemma NotBelowTrimmed(dir: string, name: string, child: string)
    requires PlainName(dir) && PlainName(name) && child == dir + " " + "/" + name
    ensures Trimmed(child) && !Under(child, dir) && !Under(dir, child)
  {
    assert child[|child| - 1] == name[|name| - 1] && child[0] == dir[0];
    assert child[|dir|] == ' ' && (dir + "/")[|dir|] == '/';
  }

  lemma BothRemain(a: Candidate, b: Candidate)
    requires Trimmed(CleanSubpath(a.subpath)) && Trimmed(CleanSubpath(b.subpath))
    requires !Under(CleanSubpath(a.subpath), CleanSubpath(b.subpath))
    requires !Under(CleanSubpath(b.subpath), CleanSubpath(a.subpath))
    ensures Remains([a, b], CleanSubpath(a.subpath)) && Remains([a, b], CleanSubpath(b.subpath))
  {
    var all := Cleaned([a, b]);
    CleanedTops([a, b]);
    OnlyTwo(all, all[0].subpath, all[1].subpath);
    assert all[0] in all && all[1] in all;
    assert Represented(Discovered([a, b]), all[0], ByName) && Represented(Discovered([a, b]), all[1], ByName);
  }

  lemma OnlyTwo(all: seq<Candidate>, p: string, q: string)
    requires |all| == 2 && all[0].subpath == p && all[1].subpath == q && !Under(p, q) && !Under(q, p)
    ensures !HasAncestor(PathsOf(all), p) && !HasAncestor(PathsOf(all), q)
  {
  }

  // Every directory that is not settled is mixed up with another.

  lemma SpaceInFront(path: string)
    requires path != "" && FoundPath(path) && IsSpace(path[0])
    ensures FoundPath(" " + path) && CleanSubpath(" " + path) == CleanSubpath(path)
  {
    var q := " " + path;
    assert q[1..] == path && path != ".";
    var parts := SplitSlash(path);
    SplitWithout(path, '/');
    JoinOfSplit(path);
    FirstCharIsOfFirstPart(path);
    assert SplitSlash(q) == [[' '] + parts[0]] + parts[1..];
    forall i | 0 <= i < |SplitSlash(q)| ensures SplitSlash(q)[i] !in {"", ".", ".."} {
      if i > 0 { assert SplitSlash(q)[i] == parts[i]; } else { assert SplitSlash(q)[i][0] == ' '; }
    }
  }

  lemma FirstCharIsOfFirstPart(path: string)
    requires path != "" && path[0] != '/'
    ensures SplitSlash(path)[0] != "" && SplitSlash(path)[0][0] == path[0]
  {
  }

  lemma GrownIsFound(path: string, c: char)
    requires FoundPath(path) && path != "." && c != '/' && c != '.'
    ensures FoundPath(path + [c])
  {
    SplitSnoc(path, c);
    var parts, grown := SplitSlash(path), GrowLast(SplitSlash(path), c);
    forall i | 0 <= i < |grown| ensures grown[i] !in {"", ".", ".."} {
      if i < |parts| - 1 { assert grown[i] == parts[i]; } else { assert grown[i][|grown[i]| - 1] == c; }
    }
  }

  lemma SpaceBehind(path: string)
    requires path != "" && FoundPath(path) && IsSpace(path[|path| - 1])
    ensures FoundPath(path + " ") && CleanSubpath(path + " ") == CleanSubpath(path)
  {
    GrownIsFound(path, ' ');
    TrimIgnoresSpaceBehind(path);
  }

  lemma TrimIgnoresSpaceBehind(s: string)
    ensures Trim(s + " ") == Trim(s)
  {
    if White(s) {
      TrimEmptyIsWhite(s);
      TrimEmptyIsWhite(s + " ");
    } else {
      TrimLeftKeeps(s, " ");
      assert (TrimLeft(s) + " ")[..|TrimLeft(s)|] == TrimLeft(s);
    }
  }

  lemma {:induction false} SlashesAppend(s: string, t: string)
    ensures Slashes(s + t) == Slashes(s) + Slashes(t)
  {
    if s == "" {
      assert s + t == t;
    } else {
      assert (s + t)[1..] == s[1..] + t;
      SlashesAppend(s[1..], t);
    }
  }

  lemma BackslashBehind(path: string)
    requires FoundPath(path) && path != "." && path != ".\\" && Trimmed(path)
    ensures FoundPath(path + "\\") && CleanSubpath(path + "\\") == CleanSubpath(path)
  {
    var q, s := path + "\\", Slashes(path);
    FoundIsClean(path);
    GrownIsFound(path, '\\');
    TrimIsTrimmed(path);
    TrimIsTrimmed(q);
    SlashesAppend(path, "\\");
    assert Slashes("\\") == "/";
    StripSlash(path, s);
    var u := if "./" <= s then s[2..] else s;
    CleanIgnoresTrailingSlash(u);
  }

  lemma StripSlash(path: string, s: string)
    requires s == Slashes(path) && path != "." && path != ".\\" && FoundPath(path)
    ensures var u := if "./" <= s then s[2..] else s;
      u != "" && (if "./" <= s + "/" then (s + "/")[2..] else s + "/") == u + "/"
  {
    NoSlashAtEnd(path);
    if |path| == 1 {
      assert path == [path[0]] && s == [s[0]];
    } else if |path| == 2 {
      assert path == [path[0], path[1]] && s == [s[0], s[1]];
    }
    StripBeforeSlash(s, s + "/");
  }

  lemma StripBeforeSlash(s: string, t: string)
    requires t == s + "/" && s != "" && s != "." && s != "./"
    ensures ("./" <= s <==> "./" <= t) && ("./" <= s ==> t[2..] == s[2..] + "/" && s[2..] != "")
  {
    if |s| == 1 {
      assert s == [s[0]];
    } else {
      assert s[0] == t[0] && s[1] == t[1];
      assert |s| == 2 ==> s == [s[0], s[1]];
    }
  }

  lemma NoSlashAtEnd(path: string)
    requires FoundPath(path)
    ensures path != "" && path[|path| - 1] != '/' && path[0] != '/'
  {
    if path != "." {
      assert SplitSlash(path)[0] != "";
      assert path != "";
      var front := path[..|path| - 1];
      SplitOfTrailingSlash(front);
      assert SplitSlash(path)[|SplitSlash(path)| - 1] != "";
      assert front + [path[|path| - 1]] == path;
    }
  }

  /** Another directory that is taken for this one, although neither lies in the other. */
  lemma UnsettledIsMixedUp(path: string) returns (other: string)
    requires FoundPath(path) && !Settled(path)
    ensures FoundPath(other) && CleanSubpath(other) == CleanSubpath(path)
    ensures other != path && !Under(path, other) && !Under(other, path)
  {
    NoSlashAtEnd(path);
    if IsSpace(path[0]) {
      other := " " + path;
      SpaceInFront(path);
      assert other[|other| - 1] == path[|path| - 1];
    } else if IsSpace(path[|path| - 1]) {
      other := path + " ";
      SpaceBehind(path);
    } else if path == ".\\" {
      other := ".\\.";
      DotBackslash();
    } else {
      other := path + "\\";
      BackslashBehind(path);
    }
    NoSlashAtEnd(other);
    OneLonger(path, other);
  }

  lemma OneLonger(path: string, other: string)
    requires |other| == |path| + 1 && path != "" && other[|other| - 1] != '/' && path != "."
    ensures other != path && !Under(path, other) && !Under(other, path)
  {
    assert (path + "/")[|path|] == '/';
  }

  lemma CleanedToDot(path: string, s: string)
    requires path != "" && path != "." && Trimmed(path) && Slashes(path) == s && "./" <= s && s[2..] in {"", "."}
    ensures CleanSubpath(path) == "."
  {
    TrimIsTrimmed(path);
    CleanKeepsClean(".");
  }

  lemma DotBackslash()
    ensures FoundPath(".\\.") && CleanSubpath(".\\.") == CleanSubpath(".\\")
  {
    SplitPart(".\\.");
    assert Slashes(".\\.") == "./." && "./."[2..] == ".";
    CleanedToDot(".\\.", "./.");
    assert Slashes(".\\") == "./" && "./"[2..] == "";
    CleanedToDot(".\\", "./");
  }

  lemma {:induction false} OneOfAPath(cands: seq<Candidate>, path: string)
    requires forall i :: 0 <= i < |cands| ==> cands[i].subpath == path
    ensures |FirstOfPath(cands)| <= 1 && forall c :: c in FirstOfPath(cands) ==> c.subpath == path
  {
    if cands != [] {
      OneOfAPath(cands[..|cands| - 1], path);
      var before := FirstOfPath(cands[..|cands| - 1]);
      if before != [] { assert before[0] in before && Trim(before[0].subpath) in Keys(before); }
    }
  }

  lemma {:induction false} SurvivorsAreItems(items: seq<Candidate>)
    ensures forall c :: c in Survivors(items) ==> c in items
  {
    if items != [] { SurvivorsAreItems(items[..|items| - 1]); }
  }

  lemma DiscoveredOnePath(cands: seq<Candidate>, path: string)
    requires forall i :: 0 <= i < |cands| ==> CleanSubpath(cands[i].subpath) == path
    ensures |Discovered(cands)| <= 1
  {
    var items := Shallowest(cands);
    OrdersAreTotal();
    SortCorrect(Cleaned(cands), ShallowFirst);
    SurvivorsAreItems(items);
    SortCorrect(Survivors(items), ByName);
    var sorted := Sort(Survivors(items), ByName);
    forall i | 0 <= i < |sorted| ensures sorted[i].subpath == path {
      assert sorted[i] in sorted && sorted[i] in items && sorted[i] in Cleaned(cands);
    }
    OneOfAPath(sorted, path);
  }

  /** The condition is exact: every directory that is not settled has another one with
      which the outcome is wrong, whatever the names of the two candidates. */
  lemma DiscoveredFailsOnUnsettled(a: Candidate) returns (other: string)
    requires FoundPath(a.subpath) && !Settled(a.subpath)
    ensures FoundPath(other)
    ensures forall b: Candidate :: b.subpath == other ==> !AreTheTops(Discovered([a, b]), [a, b])
  {
    other := UnsettledIsMixedUp(a.subpath);
    forall b: Candidate | b.subpath == other ensures !AreTheTops(Discovered([a, b]), [a, b]) {
      DiscoveredOnePath([a, b], CleanSubpath(other));
      OnlyTwo([a, b], a.subpath, b.subpath);
      TwoNeedTwo(Discovered([a, b]), a, b);
    }
  }

  lemma TwoNeedTwo(out: seq<Candidate>, a: Candidate, b: Candidate)
    requires |out| <= 1 && a.subpath != b.subpath
    requires !HasAncestor(PathsOf([a, b]), a.subpath) && !HasAncestor(PathsOf([a, b]), b.subpath)
    ensures !AreTheTops(out, [a, b])
  {
    assert a in [a, b] && b in [a, b];
    forall o, u | o in out && u in out ensures o == u { }
  }
}
