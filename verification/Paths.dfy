/** Slash-separated paths: strings.Split on "/", and Go's lexical path.Clean. */
module Paths {

  function SplitSlash(path: string): (parts: seq<string>)
    ensures |parts| > 0
  {
    if path == "" then [""]
    else
      var rest := SplitSlash(path[1..]);
      if path[0] == '/' then [""] + rest else [[path[0]] + rest[0]] + rest[1..]
  }

  lemma {:induction false} SplitJoins(dir: string, name: string)
    ensures SplitSlash(dir + "/" + name) == SplitSlash(dir) + SplitSlash(name)
  {
    var path := dir + "/" + name;
    if dir == "" {
      assert path == ['/'] + name;
    } else {
      assert path[0] == dir[0] && path[1..] == dir[1..] + "/" + name;
      SplitJoins(dir[1..], name);
      SplitHead(dir[0], SplitSlash(dir[1..]), SplitSlash(name));
    }
  }

  lemma SplitHead(c: char, d: seq<string>, n: seq<string>)
    requires d != []
    ensures [""] + (d + n) == [""] + d + n
    ensures [[c] + (d + n)[0]] + (d + n)[1..] == [[c] + d[0]] + d[1..] + n
  {
  }

  predicate Without(s: string, c: char) {
    forall i | 0 <= i < |s| :: s[i] != c
  }

  lemma {:induction false} SplitPart(s: string)
    requires Without(s, '/')
    ensures SplitSlash(s) == [s]
  {
    if s != "" {
      SplitPart(s[1..]);
      assert [s[0]] + s[1..] == s;
    }
  }

  /** The parts hold the path's characters, except the slashes. */
  lemma {:induction false} SplitWithout(path: string, c: char)
    requires c == '/' || Without(path, c)
    ensures forall i :: 0 <= i < |SplitSlash(path)| ==> Without(SplitSlash(path)[i], c)
  {
    if path != "" {
      SplitWithout(path[1..], c);
    }
  }

  function JoinSlash(parts: seq<string>): string {
    if parts == [] then "" else if |parts| == 1 then parts[0] else parts[0] + "/" + JoinSlash(parts[1..])
  }

  lemma {:induction false} SplitOfJoin(parts: seq<string>)
    requires parts != [] && forall i :: 0 <= i < |parts| ==> Without(parts[i], '/')
    ensures SplitSlash(JoinSlash(parts)) == parts
  {
    SplitPart(parts[0]);
    if |parts| > 1 {
      SplitOfJoin(parts[1..]);
      SplitJoins(parts[0], JoinSlash(parts[1..]));
      assert [parts[0]] + parts[1..] == parts;
    }
  }

  lemma {:induction false} JoinWithout(parts: seq<string>, c: char)
    requires c != '/' && forall i :: 0 <= i < |parts| ==> Without(parts[i], c)
    ensures Without(JoinSlash(parts), c)
  {
    if |parts| > 1 { JoinWithout(parts[1..], c); }
  }

  lemma {:induction false} JoinOfSplit(path: string)
    ensures JoinSlash(SplitSlash(path)) == path
  {
    if path != "" {
      JoinOfSplit(path[1..]);
      var rest := SplitSlash(path[1..]);
      assert path == [path[0]] + path[1..];
      if path[0] == '/' {
        assert ([""] + rest)[1..] == rest;
      } else {
        JoinWithHead([path[0]], rest);
      }
    }
  }

  lemma Associate(a: string, b: string, c: string)
    ensures a + b + c == a + (b + c)
  {
  }

  lemma JoinWithHead(head: string, rest: seq<string>)
    requires rest != []
    ensures JoinSlash([head + rest[0]] + rest[1..]) == head + JoinSlash(rest)
  {
    assert ([head + rest[0]] + rest[1..])[1..] == rest[1..];
    if |rest| > 1 {
      Associate(head, rest[0], "/");
      Associate(head, rest[0] + "/", JoinSlash(rest[1..]));
    }
  }

  function GrowLast(parts: seq<string>, c: char): seq<string>
    requires parts != []
  {
    parts[..|parts| - 1] + [parts[|parts| - 1] + [c]]
  }

  lemma GrowLastOfCons(part: string, rest: seq<string>, c: char)
    requires rest != []
    ensures GrowLast([part] + rest, c) == [part] + GrowLast(rest, c)
  {
    assert ([part] + rest)[..|rest|] == [part] + rest[..|rest| - 1];
  }

  lemma GrowLastOfHead(head: string, rest: seq<string>, c: char)
    requires rest != []
    ensures GrowLast([head + rest[0]] + rest[1..], c) == [head + GrowLast(rest, c)[0]] + GrowLast(rest, c)[1..]
  {
    if |rest| == 1 {
      Associate(head, rest[0], [c]);
    } else {
      GrowLastOfCons(head + rest[0], rest[1..], c);
      GrowLastOfCons(rest[0], rest[1..], c);
      assert [rest[0]] + rest[1..] == rest;
    }
  }

  /** One more character lengthens the last part. */
  lemma {:induction false} SplitSnoc(path: string, c: char)
    requires c != '/'
    ensures SplitSlash(path + [c]) == GrowLast(SplitSlash(path), c)
  {
    if path == "" {
      SplitPart([c]);
      assert path + [c] == [c];
    } else {
      assert (path + [c])[0] == path[0] && (path + [c])[1..] == path[1..] + [c];
      SplitSnoc(path[1..], c);
      var rest := SplitSlash(path[1..]);
      if path[0] == '/' { GrowLastOfCons("", rest, c); } else { GrowLastOfHead([path[0]], rest, c); }
    }
  }

  lemma {:induction false} SplitOfTrailingSlash(path: string)
    ensures SplitSlash(path + "/") == SplitSlash(path) + [""]
  {
    SplitJoins(path, "");
    assert path + "/" + "" == path + "/";
  }

  function TrimLeftSlashes(s: string): string {
    if s != "" && s[0] == '/' then TrimLeftSlashes(s[1..]) else s
  }

  function TrimRightSlashes(s: string): string {
    if s != "" && s[|s| - 1] == '/' then TrimRightSlashes(s[..|s| - 1]) else s
  }

  /** strings.Trim(s, "/") */
  function TrimSlashes(s: string): string {
    TrimRightSlashes(TrimLeftSlashes(s))
  }

  lemma {:induction false} TrimLeftSlashesKeeps(x: string, y: string)
    requires TrimLeftSlashes(x) != ""
    ensures TrimLeftSlashes(x + y) == TrimLeftSlashes(x) + y
  {
    if x[0] == '/' {
      assert (x + y)[1..] == x[1..] + y;
      TrimLeftSlashesKeeps(x[1..], y);
    }
  }

  lemma {:induction false} TrimRightSlashesKeeps(x: string, y: string)
    ensures TrimRightSlashes(x + y)
         == if TrimRightSlashes(y) == "" then TrimRightSlashes(x) else x + TrimRightSlashes(y)
    decreases |y|
  {
    if y == "" {
      assert x + y == x;
    } else {
      var n := |y| - 1;
      assert x + y == (x + y[..n]) + [y[n]] && (x + y)[..|x + y| - 1] == x + y[..n];
      if y[n] == '/' { TrimRightSlashesKeeps(x, y[..n]); }
    }
  }

  lemma {:induction false} TrimLeftSlashesIsSuffix(s: string)
    ensures TrimLeftSlashes(s) != "" ==> TrimLeftSlashes(s)[|TrimLeftSlashes(s)| - 1] == s[|s| - 1]
  {
    if s != "" && s[0] == '/' { TrimLeftSlashesIsSuffix(s[1..]); }
  }

  lemma {:induction false} AllSlashes(s: string, k: nat)
    requires TrimLeftSlashes(s) == "" && k <= |s|
    ensures TrimLeftSlashes(s[..k]) == ""
  {
    if k > 0 {
      assert s[..k][1..] == s[1..][..k - 1];
      AllSlashes(s[1..], k - 1);
    }
  }

  // -------------------------------------------------------------- path.Clean

  /** One more element of the path, after those on the stack. */
  function Push(stack: seq<string>, part: string, rooted: bool): seq<string> {
    if part == "" || part == "." then stack
    else if part != ".." then stack + [part]
    else if stack != [] && stack[|stack| - 1] != ".." then stack[..|stack| - 1]
    else if rooted then stack
    else stack + [".."]
  }

  function Walk(stack: seq<string>, parts: seq<string>, rooted: bool): seq<string>
    decreases |parts|
  {
    if parts == [] then stack else Walk(Push(stack, parts[0], rooted), parts[1..], rooted)
  }

  function Clean(path: string): string {
    if path == "" then "."
    else
      var rooted := path[0] == '/';
      var parts := Walk([], SplitSlash(path), rooted);
      if rooted then "/" + JoinSlash(parts) else if parts == [] then "." else JoinSlash(parts)
  }

  /** No empty or "." elements, and ".." only in front of a relative path. */
  predicate Normal(parts: seq<string>, rooted: bool) {
    forall i | 0 <= i < |parts| ::
      && parts[i] != "" && parts[i] != "." && Without(parts[i], '/')
      && (parts[i] == ".." ==> !rooted && forall j | 0 <= j < i :: parts[j] == "..")
  }

  lemma PushNormal(stack: seq<string>, part: string, rooted: bool)
    requires Normal(stack, rooted) && Without(part, '/')
    ensures Normal(Push(stack, part, rooted), rooted)
  {
    if part == ".." && (stack == [] || stack[|stack| - 1] == "..") {
      assert forall j :: 0 <= j < |stack| ==> stack[j] == "..";
    }
  }

  lemma {:induction false} WalkNormal(stack: seq<string>, parts: seq<string>, rooted: bool)
    requires Normal(stack, rooted) && forall i :: 0 <= i < |parts| ==> Without(parts[i], '/')
    ensures Normal(Walk(stack, parts, rooted), rooted)
    decreases |parts|
  {
    if parts != [] {
      PushNormal(stack, parts[0], rooted);
      WalkNormal(Push(stack, parts[0], rooted), parts[1..], rooted);
    }
  }

  lemma {:induction false} WalkOfNormal(stack: seq<string>, parts: seq<string>, rooted: bool)
    requires Normal(stack + parts, rooted)
    ensures Walk(stack, parts, rooted) == stack + parts
    decreases |parts|
  {
    if parts != [] {
      assert (stack + parts)[|stack|] == parts[0];
      if parts[0] == ".." && stack != [] { assert (stack + parts)[|stack| - 1] == stack[|stack| - 1]; }
      assert stack + parts == stack + [parts[0]] + parts[1..];
      WalkOfNormal(stack + [parts[0]], parts[1..], rooted);
    }
  }

  /** What a cleaned path looks like. */
  ghost predicate IsClean(path: string) {
    || path == "."
    || (exists parts: seq<string> :: Normal(parts, true) && path == "/" + JoinSlash(parts))
    || (exists parts: seq<string> :: parts != [] && Normal(parts, false) && path == JoinSlash(parts))
  }

  lemma CleanIsClean(path: string)
    ensures IsClean(Clean(path))
  {
    if path != "" {
      var parts := Walk([], SplitSlash(path), path[0] == '/');
      SplitWithout(path, '/');
      WalkNormal([], SplitSlash(path), path[0] == '/');
      assert Normal(parts, path[0] == '/');
      assert path[0] == '/' ==> Clean(path) == "/" + JoinSlash(parts);
    }
  }

  lemma JoinHead(parts: seq<string>)
    requires parts != [] && Normal(parts, false)
    ensures JoinSlash(parts) != "" && JoinSlash(parts)[0] == parts[0][0] != '/'
    ensures !("./" <= JoinSlash(parts))
  {
    assert |parts[0]| == 1 ==> parts[0] == [parts[0][0]];
    assert |parts[0]| > 1 ==> JoinSlash(parts)[1] == parts[0][1] != '/';
  }

  lemma CleanKeepsRooted(path: string, parts: seq<string>)
    requires Normal(parts, true) && path == "/" + JoinSlash(parts)
    ensures Clean(path) == path
  {
    SplitJoins("", JoinSlash(parts));
    assert "" + "/" + JoinSlash(parts) == path;
    if parts != [] { SplitOfJoin(parts); }
    WalkRooted(SplitSlash(JoinSlash(parts)), parts);
    assert SplitSlash(path) == [""] + SplitSlash(JoinSlash(parts));
  }

  lemma CleanKeepsRelative(path: string, parts: seq<string>)
    requires parts != [] && Normal(parts, false) && path == JoinSlash(parts)
    ensures Clean(path) == path
  {
    JoinHead(parts);
    SplitOfJoin(parts);
    WalkOfNormal([], parts, false);
    assert [] + parts == parts;
  }

  /** Cleaning leaves clean paths alone, so cleaning twice is cleaning once. */
  lemma CleanKeepsClean(path: string)
    requires IsClean(path)
    ensures Clean(path) == path
  {
    if path == "." {
      SplitPart(".");
    } else if parts: seq<string> :| Normal(parts, true) && path == "/" + JoinSlash(parts) {
      CleanKeepsRooted(path, parts);
    } else {
      var parts: seq<string> :| parts != [] && Normal(parts, false) && path == JoinSlash(parts);
      CleanKeepsRelative(path, parts);
    }
  }

  lemma {:induction false} WalkAppend(stack: seq<string>, a: seq<string>, b: seq<string>, rooted: bool)
    ensures Walk(stack, a + b, rooted) == Walk(Walk(stack, a, rooted), b, rooted)
    decreases |a|
  {
    if a == [] {
      assert a + b == b;
    } else {
      assert (a + b)[0] == a[0] && (a + b)[1..] == a[1..] + b;
      WalkAppend(Push(stack, a[0], rooted), a[1..], b, rooted);
    }
  }

  /** Elements that lead nowhere: an empty one, ".", a name followed by "..", and ".." at the
      root. */
  predicate Idle(before: seq<string>, idle: seq<string>, rooted: bool) {
    || idle == [""] || idle == ["."]
    || (|idle| == 2 && idle[0] !in {"", ".", ".."} && idle[1] == "..")
    || (idle == [".."] && rooted && forall i | 0 <= i < |before| :: before[i] == "")
  }

  lemma IdleWalk(before: seq<string>, idle: seq<string>, stack: seq<string>, rooted: bool)
    requires Idle(before, idle, rooted) && stack == Walk([], before, rooted)
    ensures Walk(stack, idle, rooted) == stack
  {
    if |idle| == 2 {
      var deeper := stack + [idle[0]];
      assert idle[1..] == [".."] && deeper[|deeper| - 1] == idle[0] && deeper[..|deeper| - 1] == stack;
      assert Walk(stack, idle, rooted) == Walk(deeper, [".."], rooted);
      assert Push(deeper, "..", rooted) == stack;
    } else {
      assert idle[1..] == [];
      if idle == [".."] { EmptyElementsLeadNowhere(before, rooted); }
    }
  }

  lemma {:induction false} EmptyElementsLeadNowhere(parts: seq<string>, rooted: bool)
    requires forall i :: 0 <= i < |parts| ==> parts[i] == ""
    ensures Walk([], parts, rooted) == []
  {
    if parts != [] { EmptyElementsLeadNowhere(parts[1..], rooted); }
  }

  /** Cleaning leaves out what leads nowhere, wherever it stands in a path. With
      CleanIsClean this says which clean path it is. */
  lemma CleanLeavesOut(before: seq<string>, idle: seq<string>, after: seq<string>, path: string, shorter: string)
    requires forall part :: part in before + idle + after ==> Without(part, '/')
    requires path == JoinSlash(before + idle + after) != "" && shorter == JoinSlash(before + after) != ""
    requires (path[0] == '/') == (shorter[0] == '/') && Idle(before, idle, path[0] == '/')
    ensures Clean(path) == Clean(shorter)
  {
    var rooted := path[0] == '/';
    AllWithout(before, idle, after);
    SplitOfJoin(before + idle + after);
    SplitOfJoin(before + after);
    WalkAppend([], before + idle, after, rooted);
    WalkAppend([], before, idle, rooted);
    WalkAppend([], before, after, rooted);
    IdleWalk(before, idle, Walk([], before, rooted), rooted);
  }

  lemma AllWithout(before: seq<string>, idle: seq<string>, after: seq<string>)
    requires forall part :: part in before + idle + after ==> Without(part, '/')
    ensures forall i :: 0 <= i < |before + idle + after| ==> Without((before + idle + after)[i], '/')
    ensures forall i :: 0 <= i < |before + after| ==> Without((before + after)[i], '/')
  {
    forall i | 0 <= i < |before + after| ensures (before + after)[i] in before + idle + after {
      assert i < |before| ==> (before + idle + after)[i] == before[i];
      assert i >= |before| ==> (before + idle + after)[i + |idle|] == after[i - |before|];
    }
  }

  lemma WalkRooted(split: seq<string>, parts: seq<string>)
    requires Normal(parts, true) && split == if parts == [] then [""] else parts
    ensures Walk([], [""] + split, true) == parts
  {
    assert ([""] + split)[1..] == split;
    assert [] + parts == parts;
    if parts != [] { WalkOfNormal([], parts, true); } else { assert Walk([], [""], true) == []; }
  }

  lemma {:induction false} WalkIgnoresEmptyEnd(stack: seq<string>, parts: seq<string>, rooted: bool)
    ensures Walk(stack, parts + [""], rooted) == Walk(stack, parts, rooted)
    decreases |parts|
  {
    if parts != [] {
      assert (parts + [""])[1..] == parts[1..] + [""];
      WalkIgnoresEmptyEnd(Push(stack, parts[0], rooted), parts[1..], rooted);
    } else {
      assert parts + [""] == [""] && [""][1..] == [];
    }
  }

  /** A slash at the end makes no difference. */
  lemma CleanIgnoresTrailingSlash(path: string)
    requires path != ""
    ensures Clean(path + "/") == Clean(path)
  {
    SplitOfTrailingSlash(path);
    WalkIgnoresEmptyEnd([], SplitSlash(path), path[0] == '/');
  }

  // Cleaning does not lengthen a path.

  function Size(parts: seq<string>): nat {
    if parts == [] then 0 else Size(parts[..|parts| - 1]) + |parts[|parts| - 1]| + 1
  }

  lemma {:induction false} SizeCons(part: string, parts: seq<string>)
    ensures Size([part] + parts) == |part| + 1 + Size(parts)
  {
    if parts == [] {
      assert [part] + parts == [part] && [part][..0] == [];
    } else {
      assert ([part] + parts)[..|parts|] == [part] + parts[..|parts| - 1];
      SizeCons(part, parts[..|parts| - 1]);
    }
  }

  lemma {:induction false} SplitSize(path: string)
    ensures Size(SplitSlash(path)) == |path| + 1
  {
    if path == "" {
      SizeCons("", []);
    } else {
      SplitSize(path[1..]);
      var rest := SplitSlash(path[1..]);
      if path[0] == '/' {
        SizeCons("", rest);
      } else {
        SizeCons([path[0]] + rest[0], rest[1..]);
        SizeCons(rest[0], rest[1..]);
        assert [rest[0]] + rest[1..] == rest;
      }
    }
  }

  lemma {:induction false} JoinSize(parts: seq<string>)
    requires parts != []
    ensures |JoinSlash(parts)| == Size(parts) - 1
  {
    SizeCons(parts[0], parts[1..]);
    assert [parts[0]] + parts[1..] == parts;
    if |parts| > 1 { JoinSize(parts[1..]); }
  }

  lemma PushSize(stack: seq<string>, part: string, rooted: bool)
    ensures Size(Push(stack, part, rooted)) <= Size(stack) + |part| + 1
    ensures part == "" ==> Push(stack, part, rooted) == stack
  {
    assert (stack + [part])[..|stack|] == stack;
    assert (stack + [".."])[..|stack|] == stack;
  }

  lemma {:induction false} WalkSize(stack: seq<string>, parts: seq<string>, rooted: bool)
    ensures Size(Walk(stack, parts, rooted)) <= Size(stack) + Size(parts)
    decreases |parts|
  {
    if parts != [] {
      PushSize(stack, parts[0], rooted);
      WalkSize(Push(stack, parts[0], rooted), parts[1..], rooted);
      SizeCons(parts[0], parts[1..]);
      assert [parts[0]] + parts[1..] == parts;
    }
  }

  lemma CleanIsNotLonger(path: string)
    requires path != ""
    ensures |Clean(path)| <= |path|
  {
    var rooted := path[0] == '/';
    var split := SplitSlash(path);
    var parts := Walk([], split, rooted);
    SplitSize(path);
    if rooted {
      SizeCons("", split[1..]);
      assert [""] + split[1..] == split;
      WalkSize([], split[1..], rooted);
    } else {
      WalkSize([], split, rooted);
    }
    if parts != [] { JoinSize(parts); }
  }
}
