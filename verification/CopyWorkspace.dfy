/** Copy workspaces (internal/runworkspace/copy.go): a run works on a copy of the
    base directory, and its changes are applied back with conflict detection.

    A directory is a map from slash-separated path to file. Fingerprints of hashed
    files stand for the contents themselves: SHA-256 is taken to be injective. */
module CopyWorkspace {
  import opened Paths
  import opened Wrappers
  import opened Text
  import opened Sorting

  const MAX_HASH_BYTES := 0x10_0000
  const MANIFEST := "manifest.json"

  datatype File = Regular(data: seq<int>, mtime: int) | Symlink(target: string)

  type Files = map<string, File>

  /** NoFile is the empty fingerprint of a path where there is nothing. */
  datatype Fingerprint = NoFile | Hash(data: seq<int>) | Meta(size: nat, mtime: int) | Link(target: string)

  type Manifest = map<string, Fingerprint>

  /** The JSON encoding of manifest.json. */
  datatype Codec = Codec(encode: Manifest -> seq<int>, decode: seq<int> -> Option<Manifest>)

  ghost predicate Faithful(codec: Codec) {
    forall m :: codec.decode(codec.encode(m)) == Some(m)
  }

  function FingerprintOf(f: File): Fingerprint {
    match f
    case Regular(data, mtime) => if |data| > MAX_HASH_BYTES then Meta(|data|, mtime) else Hash(data)
    case Symlink(target) => Link(target)
  }

  function FingerprintMaybe(files: Files, path: string): Fingerprint {
    if path in files then FingerprintOf(files[path]) else NoFile
  }

  /** The file that copying `f` at time `now` creates. */
  function Copied(f: File, now: int): File {
    if f.Regular? then f.(mtime := now) else f
  }

  // ------------------------------------------------------------ excluded paths

  const EXCLUDED_ANYWHERE := {".ccx", ".git", ".venv", "node_modules"}
  const EXCLUDED_ON_TOP := {"dist", "build"}

  /** Some part of the path has a name that is excluded at any depth. */
  predicate PartExcluded(path: string) {
    AnyExcluded(SplitSlash(path))
  }

  predicate AnyExcluded(parts: seq<string>) {
    exists i | 0 <= i < |parts| :: parts[i] in EXCLUDED_ANYWHERE
  }

  predicate NamesExcluded(path: string) {
    PartExcluded(path) || SplitSlash(path)[0] in EXCLUDED_ON_TOP
  }

  /** isExcludedCopyPath: white space, then slashes, are taken off both ends first. */
  predicate IsExcluded(rel: string) {
    var s := Trim(rel);
    s != "" && s != "." && TrimSlashes(s) != "" && NamesExcluded(TrimSlashes(s))
  }

  /** A walk does not reach a file that is excluded, or lies in a directory that is
      excluded and not among the `known` paths, which are passed without a look. */
  predicate Skipped(known: set<string>, p: string) {
    IsExcluded(p) || exists i | 0 <= i < |p| :: SkipsAt(known, p, i)
  }

  predicate SkipsAt(known: set<string>, p: string, i: nat)
    requires i < |p|
  {
    p[i] == '/' && p[..i] !in known && IsExcluded(p[..i])
  }

  /** The walk down to `p`, directory by directory. */
  method WalkSkips(known: set<string>, p: string) returns (skipped: bool)
    ensures skipped <==> Skipped(known, p)
  {
    for i := 0 to |p|
      invariant forall j :: 0 <= j < i ==> !SkipsAt(known, p, j)
    {
      var here := SkipsAt(known, p, i);
      if here { return true; }
    }
    return IsExcluded(p);
  }

  /** What isExcludedCopyPath looks at, but for the right end. */
  function LeftTrimmed(rel: string): string {
    TrimLeftSlashes(TrimLeft(rel))
  }

  lemma NamesExcludedBelow(dir: string, rest: string)
    ensures NamesExcluded(dir + "/" + rest) <==> NamesExcluded(dir) || PartExcluded(rest)
  {
    SplitJoins(dir, rest);
    AnyOfBoth(SplitSlash(dir), SplitSlash(rest));
  }

  lemma AnyOfBoth(a: seq<string>, b: seq<string>)
    ensures AnyExcluded(a + b) <==> AnyExcluded(a) || AnyExcluded(b)
  {
    if AnyExcluded(a) {
      var i :| 0 <= i < |a| && a[i] in EXCLUDED_ANYWHERE;
      assert (a + b)[i] == a[i];
    }
    if AnyExcluded(b) {
      var i :| 0 <= i < |b| && b[i] in EXCLUDED_ANYWHERE;
      assert (a + b)[|a| + i] == b[i];
    }
  }

  /** What is left of a path below an excluded directory. */
  lemma TrimmedBelow(dir: string, name: string)
    requires IsExcluded(dir)
    ensures Trim(dir + "/" + name) == TrimLeft(dir) + "/" + TrimRight(name)
  {
    var u := TrimLeft(dir);
    TrimEmptyIsWhite(dir);
    TrimLeftKeeps(dir, "/" + name);
    assert dir + "/" + name == dir + ("/" + name) && u + ("/" + name) == u + "/" + name;
    TrimRightKeeps(u + "/", name);
  }

  lemma RightSlashesBelow(l: string, end: string)
    requires l != "" && l[|l| - 1] != '/'
    ensures TrimRightSlashes(l + "/" + end)
         == if TrimRightSlashes(end) == "" then l else l + "/" + TrimRightSlashes(end)
  {
    assert (l + "/")[..|l|] == l;
    TrimRightSlashesKeeps(l + "/", end);
  }

  lemma SameConcat(a: string, end: string, rest: string)
    requires rest == "/" + end
    ensures a + "/" + end == a + rest
  {
  }

  lemma SlashesTrimmedBelow(u: string, end: string, whole: string)
    requires TrimLeftSlashes(u) != "" && u[|u| - 1] != '/' && whole == u + "/" + end
    ensures TrimSlashes(whole)
         == if TrimRightSlashes(end) == "" then TrimLeftSlashes(u) else TrimLeftSlashes(u) + "/" + TrimRightSlashes(end)
  {
    LeftSlashesBelow(u, end, "/" + end, whole);
    TrimLeftSlashesIsSuffix(u);
    RightSlashesBelow(TrimLeftSlashes(u), end);
  }

  lemma LeftSlashesBelow(u: string, end: string, rest: string, whole: string)
    requires TrimLeftSlashes(u) != "" && rest == "/" + end && whole == u + "/" + end
    ensures TrimLeftSlashes(whole) == TrimLeftSlashes(u) + "/" + end
  {
    TrimLeftSlashesKeeps(u, rest);
    SameConcat(u, end, rest);
    SameConcat(TrimLeftSlashes(u), end, rest);
  }

  lemma SlashesLeft(dir: string)
    requires IsExcluded(dir)
    ensures TrimLeftSlashes(TrimLeft(dir)) != ""
  {
    TrimRightPrefix(TrimLeft(dir));
    assert Trim(dir) == TrimLeft(dir)[..|Trim(dir)|];
    if TrimLeftSlashes(TrimLeft(dir)) == "" {
      AllSlashes(TrimLeft(dir), |Trim(dir)|);
    }
  }

  /** Exactly when exclusion is inherited: what lies below an excluded directory, at any
      depth, is itself excluded if the directory is so before the white space at its end
      is taken off, or if some part of the path below, trimmed at its end, is excluded
      anywhere. */
  lemma ExclusionIsInheritedIff(dir: string, rest: string)
    requires IsExcluded(dir) && dir[|dir| - 1] != '/'
    ensures IsExcluded(dir + "/" + rest)
       <==> NamesExcluded(LeftTrimmed(dir)) || PartExcluded(TrimRightSlashes(TrimRight(rest)))
  {
    var u, end := TrimLeft(dir), TrimRight(rest);
    TrimmedBelow(dir, rest);
    TrimLeftIsSuffix(dir);
    SlashesLeft(dir);
    SlashesTrimmedBelow(u, end, u + "/" + end);
    assert (u + "/" + end)[|u|] == '/' && |u + "/" + end| >= 2;
    if TrimRightSlashes(end) == "" {
      SplitPart("");
    } else {
      NamesExcludedBelow(LeftTrimmed(dir), TrimRightSlashes(end));
    }
  }

  /** In particular everything below an excluded directory whose name does not end in
      white space. */
  lemma ExclusionIsInherited(dir: string, rest: string)
    requires IsExcluded(dir) && dir[|dir| - 1] != '/' && !IsSpace(dir[|dir| - 1])
    ensures IsExcluded(dir + "/" + rest)
  {
    TrimLeftIsSuffix(dir);
    SlashesLeft(dir);
    TrimLeftSlashesIsSuffix(TrimLeft(dir));
    assert TrimSlashes(Trim(dir)) == LeftTrimmed(dir);
    ExclusionIsInheritedIff(dir, rest);
  }

  lemma DistWithSpace(dir: string)
    requires dir == "dist" + " "
    ensures IsExcluded(dir) && LeftTrimmed(dir) == dir && !NamesExcluded(dir)
  {
    assert dir[..4] == "dist";
    assert TrimLeft(dir) == dir && TrimRight(dir) == TrimRight("dist") == "dist";
    SplitPart("dist");
    SplitPart(dir);
    assert TrimSlashes("dist") == "dist" && LeftTrimmed(dir) == dir;
  }

  lemma PlainName()
    ensures !PartExcluded(TrimRightSlashes(TrimRight("x")))
  {
    assert TrimRightSlashes(TrimRight("x")) == "x";
    SplitPart("x");
  }

  /** It is not below a top directory "dist ": the name is excluded, what lies below is
      not, and is left out all the same, because the walk does not enter. */
  lemma ExclusionIsNotInherited()
    ensures IsExcluded("dist" + " ") && !IsExcluded("dist" + " " + "/" + "x") && Skipped({}, "dist" + " " + "/" + "x")
  {
    var dir := "dist" + " ";
    DistWithSpace(dir);
    PlainName();
    ExclusionIsInheritedIff(dir, "x");
    var p := dir + "/" + "x";
    assert p[..5] == dir && SkipsAt({}, p, 5);
  }

  /** Which paths are excluded, part by part. */
  lemma ExcludedIff(parts: seq<string>, path: string)
    requires parts != [] && parts[0] != "" && parts[|parts| - 1] != ""
    requires (forall i :: 0 <= i < |parts| ==> Without(parts[i], '/')) && path == JoinSlash(parts) && Trimmed(path)
    ensures IsExcluded(path) <==>
      || parts[0] == "dist" || parts[0] == "build"
      || ".ccx" in parts || ".git" in parts || ".venv" in parts || "node_modules" in parts
  {
    JoinEnds(parts);
    PlainIsExcludedIff(path);
    SplitOfJoin(parts);
    SplitExcludedIff(path, parts);
  }

  lemma PlainIsExcludedIff(path: string)
    requires path != "" && Trimmed(path) && path[0] != '/' && path[|path| - 1] != '/'
    ensures IsExcluded(path) <==> NamesExcluded(path)
  {
    TrimIsTrimmed(path);
    NoSlashesToTrim(path);
    DotIsNotExcluded();
  }

  lemma NoSlashesToTrim(path: string)
    requires path != "" && path[0] != '/' && path[|path| - 1] != '/'
    ensures TrimSlashes(path) == path
  {
    assert TrimLeftSlashes(path) == path;
  }

  lemma DotIsNotExcluded()
    ensures !NamesExcluded(".")
  {
    SplitPart(".");
  }

  lemma SplitExcludedIff(path: string, parts: seq<string>)
    requires SplitSlash(path) == parts
    ensures NamesExcluded(path) <==>
      || parts[0] == "dist" || parts[0] == "build"
      || ".ccx" in parts || ".git" in parts || ".venv" in parts || "node_modules" in parts
  {
    AnyExcludedIff(parts);
  }

  lemma AnyExcludedIff(parts: seq<string>)
    ensures AnyExcluded(parts) <==> ".ccx" in parts || ".git" in parts || ".venv" in parts || "node_modules" in parts
  {
    if AnyExcluded(parts) {
      var i :| 0 <= i < |parts| && parts[i] in EXCLUDED_ANYWHERE;
      assert parts[i] in parts;
    }
  }

  lemma {:induction false} JoinEnds(parts: seq<string>)
    requires parts != [] && parts[0] != "" && parts[|parts| - 1] != ""
    requires forall i :: 0 <= i < |parts| ==> Without(parts[i], '/')
    ensures var path := JoinSlash(parts); path != "" && path[0] != '/' && path[|path| - 1] != '/'
  {
    LastOfJoin(parts);
  }

  lemma {:induction false} LastOfJoin(parts: seq<string>)
    requires parts != [] && parts[|parts| - 1] != ""
    ensures JoinSlash(parts) != ""
    ensures JoinSlash(parts)[|JoinSlash(parts)| - 1] == parts[|parts| - 1][|parts[|parts| - 1]| - 1]
  {
    if |parts| > 1 { LastOfJoin(parts[1..]); }
  }

  /** Where no directory name ends in white space, the walk skips just what is excluded. */
  lemma SkippedIffExcluded(path: string)
    requires forall i :: 0 <= i < |path| && path[i] == '/' ==> i > 0 && path[i - 1] != '/' && !IsSpace(path[i - 1])
    ensures Skipped({}, path) <==> IsExcluded(path)
  {
    if i :| 0 <= i < |path| && SkipsAt({}, path, i) {
      assert path == path[..i] + "/" + path[i + 1..];
      ExclusionIsInherited(path[..i], path[i + 1..]);
    }
  }

  // ------------------------------------------------------------ taking a copy

  method CopyDirWithManifest(src: Files, now: int) returns (dst: Files, manifest: Manifest)
    ensures manifest == ManifestOf(src)
    ensures dst == CopyOf(src, now)
  {
    dst, manifest := map[], map[];
    var walk := src.Keys;
    ghost var done: set<string> := {};
    while walk != {}
      invariant walk !! done && walk + done == src.Keys
      invariant manifest == map p | p in done && !Skipped({}, p) :: FingerprintOf(src[p])
      invariant dst == map p | p in done && !Skipped({}, p) :: Copied(src[p], now)
      decreases walk
    {
      var p :| p in walk;
      walk, done := walk - {p}, done + {p};
      var skipped := WalkSkips({}, p);
      if !skipped {
        dst := dst[p := Copied(src[p], now)];
        manifest := manifest[p := FingerprintOf(src[p])];
      }
    }
    assert done == src.Keys;
  }

  predicate IsLink(files: Files, p: string) {
    p in files && files[p].Symlink?
  }

  /** The file a link leads to in a directory, if it lies there. */
  type Resolve = (Files, string) -> Option<string>

  /** copyPath: a regular file written where a link is lands where the link leads. */
  function CopyOnto(files: Files, f: File, p: string, resolve: Resolve, now: int): Files {
    if f.Regular? && IsLink(files, p) then
      match resolve(files, p)
      case None => files
      case Some(q) => files[q := Copied(f, now)]
    else files[p := Copied(f, now)]
  }

  /** What the walk copies. */
  function CopyOf(base: Files, now: int): Files {
    map p | p in base && !Skipped({}, p) :: Copied(base[p], now)
  }

  /** The manifest is written where manifest.json is, or leads, in the copy. */
  method CreateCopyWorkspace(base: Files, codec: Codec, resolve: Resolve, now: int) returns (ws: Files)
    ensures ws == CopyOnto(CopyOf(base, now), Regular(codec.encode(ManifestOf(base)), now), MANIFEST, resolve, now)
    ensures !IsLink(base, MANIFEST) ==> ws == Snapshot(base, codec, now)
  {
    var manifest, at := map[], MANIFEST;
    ws, manifest := CopyDirWithManifest(base, now);
    if MANIFEST in ws && ws[MANIFEST].Symlink? {
      var q := resolve(ws, MANIFEST);
      if q.None? { return; }
      at := q.value;
    }
    ws := ws[at := Regular(codec.encode(manifest), now)];
  }

  function ManifestOf(base: Files): Manifest {
    map p | p in base && !Skipped({}, p) :: FingerprintOf(base[p])
  }

  /** The copy with its manifest. */
  function Snapshot(base: Files, codec: Codec, now: int): Files {
    CopyOf(base, now)[MANIFEST := Regular(codec.encode(ManifestOf(base)), now)]
  }

  // ------------------------------------------------------------- applying back

  datatype Verdict = Keep | Take | Conflict

  function VerdictAt(m: Manifest, base: Files, ws: Files, p: string): Verdict {
    var b, w := FingerprintMaybe(base, p), FingerprintMaybe(ws, p);
    if p in m then
      if w == m[p] then Keep else if b != m[p] && b != w then Conflict else Take
    else if p !in ws || p == MANIFEST || Skipped(m.Keys, p) || b == w then Keep
    else if p in base then Conflict
    else Take
  }

  function At(files: Files, p: string): Option<File> {
    if p in files then Some(files[p]) else None
  }

  /** What apply-back is to leave at a path. */
  function AppliedAt(m: Manifest, base: Files, ws: Files, now: int, p: string): Option<File> {
    if VerdictAt(m, base, ws, p) != Take then At(base, p)
    else if p in ws then Some(Copied(ws[p], now))
    else None
  }

  /** The base holds a symbolic link where a regular file is to be written: opening
      it for writing follows the link. */
  predicate WritesThroughLink(m: Manifest, base: Files, ws: Files, p: string) {
    IsLink(base, p) && p in ws && ws[p].Regular? && VerdictAt(m, base, ws, p) == Take
  }

  ghost predicate NoLinkOverwritten(m: Manifest, base: Files, ws: Files) {
    forall p :: !WritesThroughLink(m, base, ws, p)
  }

  /** Links are followed to the end. */
  ghost predicate FollowsLinks(resolve: Resolve) {
    forall files, p, q :: resolve(files, p) == Some(q) ==> !IsLink(files, q)
  }

  function ReadManifest(ws: Files, codec: Codec): Option<Manifest> {
    if MANIFEST in ws && ws[MANIFEST].Regular? then codec.decode(ws[MANIFEST].data) else None
  }

  /** A link that is written through leads here, at some point. */
  ghost predicate IsTarget(m: Manifest, base: Files, ws: Files, resolve: Resolve, q: string) {
    exists files, p :: resolve(files, p) == Some(q) && WritesThroughLink(m, base, ws, p)
  }

  /** Where an apply stands; `hit` collects the paths written through links. */
  datatype Stage = Stage(files: Files, applied: seq<string>, conflicts: seq<string>, ghost hit: set<string>)

  /** A path that no link led to: dealt with as its verdict says, or untouched. */
  predicate Dealt(m: Manifest, base: Files, ws: Files, now: int, dealt: bool, s: Stage, p: string) {
    && At(s.files, p) ==
         (if dealt && !WritesThroughLink(m, base, ws, p) then AppliedAt(m, base, ws, now, p) else At(base, p))
    && (p in s.applied <==> dealt && VerdictAt(m, base, ws, p) == Take)
    && (p in s.conflicts <==> dealt && VerdictAt(m, base, ws, p) == Conflict)
  }

  /** A path that a link led to. */
  ghost predicate Hit(m: Manifest, base: Files, ws: Files, resolve: Resolve, dealt: bool, s: Stage, p: string) {
    && IsTarget(m, base, ws, resolve, p) && !WritesThroughLink(m, base, ws, p)
    && (!dealt ==> p in s.files && s.files[p].Regular? && p !in s.applied && p !in s.conflicts)
  }

  ghost predicate Progress(m: Manifest, base: Files, ws: Files, now: int, resolve: Resolve, done: set<string>,
                           s: Stage) {
    && (forall p :: p !in s.hit ==> Dealt(m, base, ws, now, p in done, s, p))
    && (forall p :: p in s.hit ==> Hit(m, base, ws, resolve, p in done, s, p))
    && Distinct(s.applied) && Distinct(s.conflicts)
  }

  /** What apply-back achieves: every path no link led to is as its verdict says, except
      that a link about to be written through stays; both lists are in byte order. */
  ghost predicate Applied(m: Manifest, base: Files, ws: Files, now: int, resolve: Resolve, s: Stage) {
    && (forall p :: p !in s.hit ==> Dealt(m, base, ws, now, true, s, p))
    && (forall p :: p in s.hit ==> IsTarget(m, base, ws, resolve, p) && !WritesThroughLink(m, base, ws, p))
    && Distinct(s.applied) && Distinct(s.conflicts) && SortedBy(s.applied, LessEq) && SortedBy(s.conflicts, LessEq)
  }

  class Directory {
    var files: Files

    constructor (files: Files)
      ensures this.files == files
    {
      this.files := files;
    }

    /** copyPath of `f` onto `p`. */
    method CopyPath(f: File, p: string, resolve: Resolve, now: int)
      modifies this
      ensures files == CopyOnto(old(files), f, p, resolve, now)
    {
      var at := p;
      if f.Regular? && p in files && files[p].Symlink? {
        var q := resolve(files, p);
        if q.None? { return; }
        at := q.value;
      }
      files := files[at := Copied(f, now)];
    }

    /** The first loop's body: a file of the manifest. */
    method ApplyManaged(m: Manifest, ws: Files, p: string, resolve: Resolve, now: int, applied: seq<string>,
                        conflicts: seq<string>)
      returns (applied': seq<string>, conflicts': seq<string>)
      requires p in m
      modifies this
      ensures Stage(files, applied', conflicts', {})
           == Effect(VerdictAt(m, old(files), ws, p), Stage(old(files), applied, conflicts, {}), ws, p, resolve, now)
    {
      applied', conflicts' := applied, conflicts;
      var b, w := FingerprintMaybe(files, p), FingerprintMaybe(ws, p);
      if w == m[p] { return; }
      if b != m[p] && b != w {
        conflicts' := conflicts + [p];
        return;
      }
      if p in ws {
        CopyPath(ws[p], p, resolve, now);
      } else if p in files {
        files := files - {p};
      }
      applied' := applied + [p];
    }

    /** The second loop's body: a file the walk meets in the workspace. */
    method ApplyNew(m: Manifest, ws: Files, p: string, resolve: Resolve, now: int, applied: seq<string>,
                    conflicts: seq<string>)
      returns (applied': seq<string>, conflicts': seq<string>)
      requires p in ws
      modifies this
      ensures Stage(files, applied', conflicts', {})
           == if p in m then Stage(old(files), applied, conflicts, {})
              else Effect(VerdictAt(m, old(files), ws, p), Stage(old(files), applied, conflicts, {}), ws, p,
                          resolve, now)
    {
      applied', conflicts' := applied, conflicts;
      if p == MANIFEST || p in m { return; }
      var skipped := WalkSkips(m.Keys, p);
      if skipped { return; }
      var b, w := FingerprintMaybe(files, p), FingerprintMaybe(ws, p);
      if p in files && b != w {
        conflicts' := conflicts + [p];
      } else if p !in files {
        CopyPath(ws[p], p, resolve, now);
        applied' := applied + [p];
      }
    }

    method ApplyManifest(m: Manifest, ws: Files, resolve: Resolve, now: int)
      returns (applied: seq<string>, conflicts: seq<string>, ghost hit: set<string>, ghost order: seq<string>)
      requires FollowsLinks(resolve)
      modifies this
      ensures Progress(m, old(files), ws, now, resolve, m.Keys, Stage(files, applied, conflicts, hit))
      ensures Distinct(order) && forall p :: p in order <==> p in m
      ensures Stage(files, applied, conflicts, {})
           == InOrder(m, Stage(old(files), [], [], {}), ws, resolve, now, order)
    {
      applied, conflicts, hit, order := [], [], {}, [];
      ghost var base := files;
      var todo := m.Keys;
      ghost var done: set<string> := {};
      while todo != {}
        invariant todo !! done && todo + done == m.Keys
        invariant Progress(m, base, ws, now, resolve, done, Stage(files, applied, conflicts, hit))
        invariant Distinct(order) && forall p :: p in order <==> p in done
        invariant Stage(files, applied, conflicts, {}) == InOrder(m, Stage(base, [], [], {}), ws, resolve, now, order)
        decreases todo
      {
        var p :| p in todo;
        ghost var s := Stage(files, applied, conflicts, hit);
        InOrderSnoc(m, Stage(base, [], [], {}), ws, resolve, now, order, p);
        applied, conflicts := ApplyManaged(m, ws, p, resolve, now, applied, conflicts);
        hit := OneApplied(m, base, ws, now, resolve, done, s, p, Stage(files, applied, conflicts, {}));
        todo, done, order := todo - {p}, done + {p}, order + [p];
      }
      assert done == m.Keys;
    }

    method ApplyWalk(m: Manifest, ws: Files, resolve: Resolve, now: int, applied0: seq<string>, conflicts0: seq<string>,
                     ghost base: Files, ghost hit0: set<string>)
      returns (applied: seq<string>, conflicts: seq<string>, ghost hit: set<string>)
      requires FollowsLinks(resolve)
      requires Progress(m, base, ws, now, resolve, m.Keys, Stage(files, applied0, conflicts0, hit0))
      modifies this
      ensures Progress(m, base, ws, now, resolve, m.Keys + ws.Keys, Stage(files, applied, conflicts, hit))
    {
      applied, conflicts, hit := applied0, conflicts0, hit0;
      var walk := ws.Keys;
      ghost var done := m.Keys;
      while walk != {}
        invariant walk <= ws.Keys && done == m.Keys + (ws.Keys - walk)
        invariant Progress(m, base, ws, now, resolve, done, Stage(files, applied, conflicts, hit))
        decreases walk
      {
        var p :| p in walk;
        ghost var s := Stage(files, applied, conflicts, hit);
        applied, conflicts := ApplyNew(m, ws, p, resolve, now, applied, conflicts);
        if p !in m {
          hit := OneApplied(m, base, ws, now, resolve, done, s, p, Stage(files, applied, conflicts, {}));
        }
        walk, done := walk - {p}, done + {p};
      }
      assert done == m.Keys + ws.Keys;
    }

    /** Returns the applied and the conflicting paths, or nothing when the manifest
        cannot be read. */
    method ApplyBack(ws: Files, codec: Codec, resolve: Resolve, now: int)
      returns (r: Option<(seq<string>, seq<string>)>, ghost hit: set<string>)
      requires FollowsLinks(resolve)
      modifies this
      ensures r.None? <==> ReadManifest(ws, codec).None?
      ensures r.None? ==> files == old(files)
      ensures r.Some? ==> Applied(ReadManifest(ws, codec).value, old(files), ws, now, resolve,
                                  Stage(files, r.value.0, r.value.1, hit))
    {
      hit := {};
      var read := ReadManifest(ws, codec);
      if read.None? { return None, hit; }
      var m := read.value;
      ghost var base := files;
      var applied, conflicts;
      ghost var order;
      applied, conflicts, hit, order := ApplyManifest(m, ws, resolve, now);
      applied, conflicts, hit := ApplyWalk(m, ws, resolve, now, applied, conflicts, base, hit);
      AllApplied(m, base, ws, now, resolve, Stage(files, applied, conflicts, hit));
      return Some((Sort(applied, LessEq), Sort(conflicts, LessEq))), hit;
    }
  }

  /** What dealing with one path does under a verdict. */
  function Effect(v: Verdict, s: Stage, ws: Files, p: string, resolve: Resolve, now: int): (r: Stage) {
    match v
    case Keep => s
    case Conflict => s.(conflicts := s.conflicts + [p])
    case Take =>
      var files := if p in ws then CopyOnto(s.files, ws[p], p, resolve, now) else s.files - {p};
      s.(files := files, applied := s.applied + [p])
  }

  /** What dealing with the paths of the manifest in a certain order does. */
  function InOrder(m: Manifest, s: Stage, ws: Files, resolve: Resolve, now: int, order: seq<string>): (r: Stage) {
    if order == [] then s else
    var last := |order| - 1;
    var t := InOrder(m, s, ws, resolve, now, order[..last]);
    Effect(VerdictAt(m, t.files, ws, order[last]), t, ws, order[last], resolve, now)
  }

  lemma InOrderSnoc(m: Manifest, s: Stage, ws: Files, resolve: Resolve, now: int, order: seq<string>, p: string)
    ensures var t := InOrder(m, s, ws, resolve, now, order);
      InOrder(m, s, ws, resolve, now, order + [p])
      == Effect(VerdictAt(m, t.files, ws, p), t, ws, p, resolve, now)
  {
    assert (order + [p])[..|order|] == order;
  }

  lemma DistinctSnoc(list: seq<string>, p: string)
    requires Distinct(list) && p !in list
    ensures Distinct(list + [p])
  {
  }

  /** A step that changes nothing but its own path, which no link led to. */
  lemma OwnStep(m: Manifest, base: Files, ws: Files, now: int, resolve: Resolve, done: set<string>, s: Stage,
                p: string, s': Stage)
    requires Progress(m, base, ws, now, resolve, done, s) && p !in done && s'.hit == s.hit
    requires forall q :: q != p ==> At(s'.files, q) == At(s.files, q)
    requires s'.applied == s.applied || s'.applied == s.applied + [p]
    requires s'.conflicts == s.conflicts || s'.conflicts == s.conflicts + [p]
    requires p !in s.hit ==> Dealt(m, base, ws, now, true, s', p)
    ensures Progress(m, base, ws, now, resolve, done + {p}, s')
  {
    assert p !in s.applied && p !in s.conflicts by {
      if p !in s.hit {
        assert Dealt(m, base, ws, now, false, s, p);
      } else {
        assert Hit(m, base, ws, resolve, false, s, p);
      }
    }
    DistinctSnoc(s.applied, p);
    DistinctSnoc(s.conflicts, p);
    forall q | q !in s'.hit ensures Dealt(m, base, ws, now, q in done + {p}, s', q) {
      if q != p { assert Dealt(m, base, ws, now, q in done, s, q); }
    }
    forall q | q in s'.hit ensures Hit(m, base, ws, resolve, q in done + {p}, s', q) {
      assert Hit(m, base, ws, resolve, q in done, s, q);
      if q != p { assert At(s'.files, q) == At(s.files, q); }
    }
  }

  /** A step that writes through the link at its path. */
  lemma ThroughStep(m: Manifest, base: Files, ws: Files, now: int, resolve: Resolve, done: set<string>, s: Stage,
                    p: string,
                    q: string, s': Stage)
    requires Progress(m, base, ws, now, resolve, done, s)
    requires p !in done && p !in s.hit && WritesThroughLink(m, base, ws, p)
    requires FollowsLinks(resolve) && resolve(s.files, p) == Some(q)
    requires s' == Stage(s.files[q := Copied(ws[p], now)], s.applied + [p], s.conflicts, s.hit + {q})
    ensures Progress(m, base, ws, now, resolve, done + {p}, s')
  {
    assert Dealt(m, base, ws, now, false, s, p) && !IsLink(s.files, q);
    assert q != p && p !in s.applied;
    assert !WritesThroughLink(m, base, ws, q) by {
      if q !in s.hit {
        assert Dealt(m, base, ws, now, q in done, s, q);
      } else {
        assert Hit(m, base, ws, resolve, q in done, s, q);
      }
    }
    assert q !in done ==> q !in s.applied && q !in s.conflicts by {
      if q !in s.hit {
        assert Dealt(m, base, ws, now, q in done, s, q);
      } else {
        assert Hit(m, base, ws, resolve, q in done, s, q);
      }
    }
    DistinctSnoc(s.applied, p);
    forall k | k !in s'.hit ensures Dealt(m, base, ws, now, k in done + {p}, s', k) {
      assert Dealt(m, base, ws, now, k in done, s, k);
    }
    forall k | k in s'.hit ensures Hit(m, base, ws, resolve, k in done + {p}, s', k) {
      if k != q { assert Hit(m, base, ws, resolve, k in done, s, k); }
    }
  }

  lemma SameVerdict(m: Manifest, base: Files, files: Files, ws: Files, p: string)
    requires At(files, p) == At(base, p)
    ensures VerdictAt(m, files, ws, p) == VerdictAt(m, base, ws, p) && IsLink(files, p) == IsLink(base, p)
  {
  }

  /** Dealing with one more path. */
  lemma OneApplied(m: Manifest, base: Files, ws: Files, now: int, resolve: Resolve, done: set<string>, s: Stage,
                   p: string, after: Stage)
    returns (hit: set<string>)
    requires FollowsLinks(resolve) && Progress(m, base, ws, now, resolve, done, s) && p !in done && (p in m || p in ws)
    requires after == Effect(VerdictAt(m, s.files, ws, p), s.(hit := {}), ws, p, resolve, now)
    ensures Progress(m, base, ws, now, resolve, done + {p}, after.(hit := hit))
  {
    if p in s.hit {
      assert Hit(m, base, ws, resolve, false, s, p);
      hit := s.hit;
      OwnStep(m, base, ws, now, resolve, done, s, p, after.(hit := hit));
    } else {
      assert Dealt(m, base, ws, now, false, s, p);
      SameVerdict(m, base, s.files, ws, p);
      hit := UnhitApplied(m, base, ws, now, resolve, done, s, p, after);
    }
  }

  lemma UnhitApplied(m: Manifest, base: Files, ws: Files, now: int, resolve: Resolve, done: set<string>, s: Stage,
                     p: string, after: Stage)
    returns (hit: set<string>)
    requires FollowsLinks(resolve) && Progress(m, base, ws, now, resolve, done, s) && p !in done && p !in s.hit
    requires At(s.files, p) == At(base, p) && p !in s.applied && p !in s.conflicts
    requires after == Effect(VerdictAt(m, base, ws, p), s.(hit := {}), ws, p, resolve, now)
    ensures Progress(m, base, ws, now, resolve, done + {p}, after.(hit := hit))
  {
    hit := s.hit;
    if WritesThroughLink(m, base, ws, p) && resolve(s.files, p).Some? {
      var q := resolve(s.files, p).value;
      hit := s.hit + {q};
      ThroughStep(m, base, ws, now, resolve, done, s, p, q, after.(hit := hit));
    } else {
      OwnStep(m, base, ws, now, resolve, done, s, p, after.(hit := hit));
    }
  }

  /** Sorting the lists ends it. */
  lemma AllApplied(m: Manifest, base: Files, ws: Files, now: int, resolve: Resolve, s: Stage)
    requires Progress(m, base, ws, now, resolve, m.Keys + ws.Keys, s)
    ensures Applied(m, base, ws, now, resolve,
                    Stage(s.files, Sort(s.applied, LessEq), Sort(s.conflicts, LessEq), s.hit))
  {
    var t := Stage(s.files, Sort(s.applied, LessEq), Sort(s.conflicts, LessEq), s.hit);
    LessEqIsTotalOrder();
    SortCorrect(s.applied, LessEq);
    SortCorrect(s.conflicts, LessEq);
    DistinctPermutes(s.applied, t.applied);
    DistinctPermutes(s.conflicts, t.conflicts);
    forall p | p !in t.hit ensures Dealt(m, base, ws, now, true, t, p) {
      assert Dealt(m, base, ws, now, p in m.Keys + ws.Keys, s, p);
    }
    forall p | p in t.hit ensures IsTarget(m, base, ws, resolve, p) && !WritesThroughLink(m, base, ws, p) {
      assert Hit(m, base, ws, resolve, p in m.Keys + ws.Keys, s, p);
    }
  }

  lemma NoTargets(m: Manifest, base: Files, ws: Files, resolve: Resolve)
    requires NoLinkOverwritten(m, base, ws)
    ensures forall q :: !IsTarget(m, base, ws, resolve, q)
  {
  }

  /** Apply-back leaves at every path what its verdict says exactly when it writes
      through no link, and then it lists exactly the paths by verdict. */
  lemma EverythingAppliedIff(m: Manifest, base: Files, ws: Files, now: int, resolve: Resolve, s: Stage)
    requires Applied(m, base, ws, now, resolve, s)
    ensures (forall p :: At(s.files, p) == AppliedAt(m, base, ws, now, p)) <==> NoLinkOverwritten(m, base, ws)
    ensures NoLinkOverwritten(m, base, ws) ==> s.hit == {} && forall p :: Dealt(m, base, ws, now, true, s, p)
  {
    if NoLinkOverwritten(m, base, ws) {
      NoTargets(m, base, ws, resolve);
      assert forall p :: p !in s.hit;
      forall p ensures Dealt(m, base, ws, now, true, s, p) { assert p !in s.hit; }
      forall p ensures At(s.files, p) == AppliedAt(m, base, ws, now, p) { assert Dealt(m, base, ws, now, true, s, p); }
    } else {
      var p :| WritesThroughLink(m, base, ws, p);
      assert p !in s.hit && Dealt(m, base, ws, now, true, s, p);
      assert At(s.files, p) != AppliedAt(m, base, ws, now, p);
    }
  }

  // ------------------------------------------------ what applying back amounts to

  /** A file without its time stamp. */
  datatype Item = Bytes(data: seq<int>) | LinkTo(target: string)

  function ViewOf(f: Option<File>): Option<Item> {
    match f
    case None => None
    case Some(Regular(data, _)) => Some(Bytes(data))
    case Some(Symlink(target)) => Some(LinkTo(target))
  }

  function View(files: Files, p: string): Option<Item> {
    ViewOf(At(files, p))
  }

  /** Every regular file is small enough to be hashed. */
  predicate Hashed(files: Files) {
    forall p | p in files :: files[p].Regular? ==> |files[p].data| <= MAX_HASH_BYTES
  }

  /** Three-way merge of one value: a change made on one side only lands, equal
      changes agree, different changes keep the base. */
  function ThreeWay<T(==)>(snapshot: T, base: T, workspace: T): T {
    if base == snapshot then workspace else base
  }

  predicate Diverged<T(==)>(snapshot: T, base: T, workspace: T) {
    base != snapshot && workspace != snapshot && base != workspace
  }

  predicate Managed(p: string) {
    p != MANIFEST && !Skipped({}, p)
  }

  /** Fingerprints of hashed files tell contents apart. */
  lemma FingerprintsAreContents(f: Files, g: Files, p: string)
    requires Hashed(f) && Hashed(g)
    ensures FingerprintMaybe(f, p) == FingerprintMaybe(g, p) <==> View(f, p) == View(g, p)
  {
  }

  /** The second walk passes the directories that are manifest paths without a look,
      and that makes no difference: no such path is excluded. */
  lemma SameSkips(origin: Files, p: string)
    requires p !in ManifestOf(origin)
    ensures Skipped(ManifestOf(origin).Keys, p) <==> Skipped({}, p)
  {
    var known := ManifestOf(origin).Keys;
    forall i | 0 <= i < |p| ensures SkipsAt(known, p, i) <==> SkipsAt({}, p, i) {
      if p[..i] in known { assert !Skipped({}, p[..i]); }
    }
  }

  /** What the workspace and the base have become after the copy was taken: the
      manifest is still the one written then. */
  ghost predicate Session(origin: Files, base: Files, ws: Files, codec: Codec) {
    && MANIFEST !in origin
    && Hashed(origin) && Hashed(base) && Hashed(ws - {MANIFEST})
    && ReadManifest(ws, codec) == Some(ManifestOf(origin))
  }

  lemma UnmanagedIsKept(origin: Files, base: Files, ws: Files, p: string)
    requires MANIFEST !in origin && !Managed(p)
    ensures VerdictAt(ManifestOf(origin), base, ws, p) == Keep
  {
    SameSkips(origin, p);
  }

  lemma VerdictIsMerge(origin: Files, base: Files, ws: Files, codec: Codec, now: int, p: string)
    requires Session(origin, base, ws, codec) && Managed(p)
    ensures var m := ManifestOf(origin);
      && ViewOf(AppliedAt(m, base, ws, now, p)) == ThreeWay(View(origin, p), View(base, p), View(ws, p))
      && (VerdictAt(m, base, ws, p) == Conflict <==> Diverged(View(origin, p), View(base, p), View(ws, p)))
  {
    var w := ws - {MANIFEST};
    assert FingerprintMaybe(ws, p) == FingerprintMaybe(w, p) && View(ws, p) == View(w, p);
    FingerprintsAreContents(origin, base, p);
    FingerprintsAreContents(origin, w, p);
    FingerprintsAreContents(base, w, p);
    if p !in ManifestOf(origin) { SameSkips(origin, p); }
  }

  /** What apply-back leaves at a path that no link led to. */
  predicate Merged(origin: Files, base: Files, ws: Files, s: Stage, p: string) {
    var m := ManifestOf(origin);
    && (Managed(p) ==> (View(s.files, p) == ThreeWay(View(origin, p), View(base, p), View(ws, p))
         <==> !WritesThroughLink(m, base, ws, p)))
    && (WritesThroughLink(m, base, ws, p) ==> At(s.files, p) == At(base, p))
    && (p in s.conflicts <==> Managed(p) && Diverged(View(origin, p), View(base, p), View(ws, p)))
    && (!Managed(p) ==> At(s.files, p) == At(base, p) && p !in s.applied)
  }

  lemma PathIsMerged(origin: Files, base: Files, ws: Files, codec: Codec, now: int, s: Stage, p: string)
    requires Session(origin, base, ws, codec) && Dealt(ManifestOf(origin), base, ws, now, true, s, p)
    ensures Merged(origin, base, ws, s, p)
  {
    if Managed(p) {
      VerdictIsMerge(origin, base, ws, codec, now, p);
    } else {
      UnmanagedIsKept(origin, base, ws, p);
    }
  }

  /** Main theorem. Whatever happened to base and workspace since the copy was taken,
      applying back leaves at every managed path the three-way merge of snapshot, base
      and workspace, exactly unless a link is written through there; it lists as
      conflicts exactly the paths both sides changed differently, and touches nothing
      else. This holds of every path to which no written-through link leads. */
  lemma ApplyBackIsThreeWayMerge(origin: Files, base: Files, ws: Files, codec: Codec, now: int, resolve: Resolve,
                                 s: Stage)
    requires Session(origin, base, ws, codec) && Applied(ManifestOf(origin), base, ws, now, resolve, s)
    ensures forall p :: p !in s.hit ==> Merged(origin, base, ws, s, p)
    ensures forall p :: p in s.hit ==> IsTarget(ManifestOf(origin), base, ws, resolve, p)
  {
    forall p | p !in s.hit ensures Merged(origin, base, ws, s, p) {
      assert Dealt(ManifestOf(origin), base, ws, now, true, s, p);
      PathIsMerged(origin, base, ws, codec, now, s, p);
    }
  }

  /** A link of the base that nobody changed stays, although the workspace has replaced
      it by a regular file: the merge is not reached there, and the path is listed as
      applied all the same. */
  lemma LinkIsNotReplaced(origin: Files, base: Files, ws: Files, codec: Codec, now: int, resolve: Resolve, s: Stage,
                          p: string)
    requires Session(origin, base, ws, codec) && Applied(ManifestOf(origin), base, ws, now, resolve, s)
    requires Managed(p) && IsLink(origin, p) && At(base, p) == At(origin, p) && p in ws && ws[p].Regular?
    ensures At(s.files, p) == At(base, p) && p in s.applied
    ensures View(s.files, p) != ThreeWay(View(origin, p), View(base, p), View(ws, p)) == View(ws, p)
  {
    assert WritesThroughLink(ManifestOf(origin), base, ws, p);
    assert p !in s.hit && Dealt(ManifestOf(origin), base, ws, now, true, s, p);
    PathIsMerged(origin, base, ws, codec, now, s, p);
  }

  /** Where no link led in either apply, the second leaves contents and conflict as the
      first did. */
  lemma SecondApplyAt(origin: Files, base: Files, ws: Files, codec: Codec, now: int, once: Stage, later: int,
                      twice: Stage, p: string)
    requires Session(origin, base, ws, codec)
    requires Dealt(ManifestOf(origin), base, ws, now, true, once, p)
    requires Dealt(ManifestOf(origin), once.files, ws, later, true, twice, p)
    ensures View(twice.files, p) == View(once.files, p) && (p in twice.conflicts <==> p in once.conflicts)
    ensures WritesThroughLink(ManifestOf(origin), once.files, ws, p)
       <==> WritesThroughLink(ManifestOf(origin), base, ws, p)
  {
    var m := ManifestOf(origin);
    if VerdictAt(m, base, ws, p) == Take {
      if !Managed(p) { UnmanagedIsKept(origin, base, ws, p); }
      assert p in ws ==> p in ws - {MANIFEST};
      assert WritesThroughLink(m, base, ws, p) || FingerprintMaybe(once.files, p) == FingerprintMaybe(ws, p);
    } else {
      assert FingerprintMaybe(once.files, p) == FingerprintMaybe(base, p);
    }
  }

  /** Applying again changes no contents and reports the same conflicts, wherever no link
      that is written through led in either apply; and none leads anywhere if the first
      apply writes through none. */
  lemma SecondApplyChangesNothing(origin: Files, base: Files, ws: Files, codec: Codec, resolve: Resolve,
                                  now: int, once: Stage, later: int, twice: Stage)
    requires Session(origin, base, ws, codec)
    requires Applied(ManifestOf(origin), base, ws, now, resolve, once)
    requires Applied(ManifestOf(origin), once.files, ws, later, resolve, twice)
    ensures forall p :: p !in once.hit + twice.hit ==>
      View(twice.files, p) == View(once.files, p) && (p in twice.conflicts <==> p in once.conflicts)
    ensures NoLinkOverwritten(ManifestOf(origin), base, ws) ==> once.hit + twice.hit == {}
  {
    var m := ManifestOf(origin);
    forall p | p !in once.hit + twice.hit
      ensures View(twice.files, p) == View(once.files, p) && (p in twice.conflicts <==> p in once.conflicts)
    {
      assert Dealt(m, base, ws, now, true, once, p) && Dealt(m, once.files, ws, later, true, twice, p);
      SecondApplyAt(origin, base, ws, codec, now, once, later, twice, p);
    }
    if NoLinkOverwritten(m, base, ws) { NoneLater(origin, base, ws, codec, resolve, now, once, later, twice); }
  }

  lemma NoneLater(origin: Files, base: Files, ws: Files, codec: Codec, resolve: Resolve, now: int, once: Stage,
                  later: int, twice: Stage)
    requires Session(origin, base, ws, codec) && NoLinkOverwritten(ManifestOf(origin), base, ws)
    requires Applied(ManifestOf(origin), base, ws, now, resolve, once)
    requires Applied(ManifestOf(origin), once.files, ws, later, resolve, twice)
    ensures once.hit == {} && twice.hit == {}
  {
    var m := ManifestOf(origin);
    EverythingAppliedIff(m, base, ws, now, resolve, once);
    forall p ensures !WritesThroughLink(m, once.files, ws, p) {
      assert Dealt(m, base, ws, now, true, once, p) && !WritesThroughLink(m, base, ws, p);
      TakenStaysTaken(origin, base, ws, codec, now, once.files, p);
    }
    EverythingAppliedIff(m, once.files, ws, later, resolve, twice);
  }

  lemma TakenStaysTaken(origin: Files, base: Files, ws: Files, codec: Codec, now: int, once: Files, p: string)
    requires Session(origin, base, ws, codec) && At(once, p) == AppliedAt(ManifestOf(origin), base, ws, now, p)
    requires !WritesThroughLink(ManifestOf(origin), base, ws, p)
    ensures !WritesThroughLink(ManifestOf(origin), once, ws, p)
  {
  }

  // ---------------------------------------- where a link leads, order matters

  /** A link and the file it leads to, as the copy was taken. */
  function LinkAndTarget(): Files {
    map["link" := Symlink("file"), "file" := Regular([1], 0)]
  }

  /** The workspace has put regular files in place of both. */
  function BothReplaced(): Files {
    map["link" := Regular([2], 0), "file" := Regular([3], 0)]
  }

  function LeadsToFile(files: Files, p: string): Option<string> {
    if p == "link" && !IsLink(files, "file") then Some("file") else None
  }

  lemma LinkAndTargetManaged(p: string)
    requires p == "link" || p == "file"
    ensures !Skipped({}, p)
  {
    TrimIsTrimmed(p);
    PlainNameIsManaged(p);
  }

  lemma LinkAndTargetManifest(m: Manifest)
    requires m == ManifestOf(LinkAndTarget())
    ensures m == map["link" := Link("file"), "file" := Hash([1])]
  {
    forall p | p in LinkAndTarget() ensures !Skipped({}, p) { LinkAndTargetManaged(p); }
    AllInManifest(LinkAndTarget(), m);
  }

  lemma AllInManifest(base: Files, m: Manifest)
    requires m == ManifestOf(base) && forall p :: p in base ==> !Skipped({}, p)
    ensures m.Keys == base.Keys && forall p :: p in base ==> m[p] == FingerprintOf(base[p])
  {
  }

  lemma TwoInOrder(m: Manifest, files: Files, now: int, p: string, q: string)
    returns (first: Stage, second: Stage)
    ensures first == Effect(VerdictAt(m, files, BothReplaced(), p), Stage(files, [], [], {}), BothReplaced(), p,
                            LeadsToFile, now)
    ensures second == Effect(VerdictAt(m, first.files, BothReplaced(), q), first, BothReplaced(), q, LeadsToFile, now)
    ensures second == InOrder(m, Stage(files, [], [], {}), BothReplaced(), LeadsToFile, now, [p, q])
  {
    var s, ws := Stage(files, [], [], {}), BothReplaced();
    assert [] + [p] == [p] && [p] + [q] == [p, q];
    InOrderSnoc(m, s, ws, LeadsToFile, now, [], p);
    InOrderSnoc(m, s, ws, LeadsToFile, now, [p], q);
    first := InOrder(m, s, ws, LeadsToFile, now, [p]);
    second := InOrder(m, s, ws, LeadsToFile, now, [p, q]);
  }

  lemma FileFirst(m: Manifest, now: int) returns (once: Stage)
    requires m == map["link" := Link("file"), "file" := Hash([1])]
    ensures once == InOrder(m, Stage(LinkAndTarget(), [], [], {}), BothReplaced(), LeadsToFile, now, ["file", "link"])
    ensures once.conflicts == []
    ensures once.files == map["link" := Symlink("file"), "file" := Regular([2], now)]
  {
    var first;
    first, once := TwoInOrder(m, LinkAndTarget(), now, "file", "link");
    assert first.files == map["link" := Symlink("file"), "file" := Regular([3], now)];
  }

  lemma FileFirstAgain(m: Manifest, files: Files, now: int) returns (twice: Stage)
    requires m == map["link" := Link("file"), "file" := Hash([1])]
    requires files == map["link" := Symlink("file"), "file" := Regular([2], now)]
    ensures twice == InOrder(m, Stage(files, [], [], {}), BothReplaced(), LeadsToFile, now, ["file", "link"])
    ensures twice.conflicts == ["file"]
  {
    var first;
    first, twice := TwoInOrder(m, files, now, "file", "link");
    assert first.files == files;
  }

  lemma LinkFirst(m: Manifest, now: int) returns (other: Stage)
    requires m == map["link" := Link("file"), "file" := Hash([1])]
    ensures other == InOrder(m, Stage(LinkAndTarget(), [], [], {}), BothReplaced(), LeadsToFile, now, ["link", "file"])
    ensures other.conflicts == ["file"]
  {
    var first;
    first, other := TwoInOrder(m, LinkAndTarget(), now, "link", "file");
    assert first.files == map["link" := Symlink("file"), "file" := Regular([2], now)];
  }

  /** If the file is dealt with first, no conflict is reported, yet the link then writes
      its contents over what was just applied, and the second apply finds a conflict. The
      other way round the first apply finds it. */
  lemma SecondApplyCanConflict(m: Manifest, now: int) returns (once: Stage, twice: Stage, other: Stage)
    requires m == ManifestOf(LinkAndTarget())
    ensures FollowsLinks(LeadsToFile)
    ensures once == InOrder(m, Stage(LinkAndTarget(), [], [], {}), BothReplaced(), LeadsToFile, now, ["file", "link"])
    ensures once.conflicts == [] && View(once.files, "file") == Some(Bytes([2]))
    ensures twice == InOrder(m, Stage(once.files, [], [], {}), BothReplaced(), LeadsToFile, now, ["file", "link"])
    ensures twice.conflicts == ["file"]
    ensures other == InOrder(m, Stage(LinkAndTarget(), [], [], {}), BothReplaced(), LeadsToFile, now, ["link", "file"])
    ensures other.conflicts == ["file"]
  {
    LinkAndTargetManifest(m);
    once := FileFirst(m, now);
    twice := FileFirstAgain(m, once.files, now);
    other := LinkFirst(m, now);
  }

  /** The copy just taken is in session with the base it was taken from. */
  lemma CopyStartsSession(base: Files, codec: Codec, now: int)
    requires Faithful(codec) && MANIFEST !in base && Hashed(base)
    ensures Session(base, base, Snapshot(base, codec, now), codec)
  {
    var ws := Snapshot(base, codec, now);
    forall p | p in ws - {MANIFEST} && ws[p].Regular? ensures |ws[p].data| <= MAX_HASH_BYTES {
      assert p in base;
    }
  }

  // ------------------------------------------- applying back, for any file size

  /** What fingerprints can tell: links by target, files up to 1 MiB by contents, larger
      ones by size and time stamp. */
  predicate LooksSame(f: Option<File>, g: Option<File>) {
    match (f, g)
    case (None, None) => true
    case (Some(Symlink(t)), Some(Symlink(u))) => t == u
    case (Some(Regular(a, s)), Some(Regular(b, t))) =>
      if |a| <= 1048576 && |b| <= 1048576 then a == b
      else |a| > 1048576 && |b| > 1048576 && |a| == |b| && s == t
    case _ => false
  }

  lemma FingerprintsTell(f: Files, g: Files, p: string)
    ensures FingerprintMaybe(f, p) == FingerprintMaybe(g, p) <==> LooksSame(At(f, p), At(g, p))
  {
  }

  /** The workspace's file lands in the base, or its absence does; but a regular file
      does not take the place of a link. */
  predicate Lands(b: Option<File>, w: Option<File>, now: int, after: Option<File>) {
    match w
    case None => after == None
    case Some(Symlink(target)) => after == Some(Symlink(target))
    case Some(Regular(data, _)) =>
      if b.Some? && b.value.Symlink? then after == b else after == Some(Regular(data, now))
  }

  /** The path changes as told, and is in the lists as told. */
  predicate Ends(s: Stage, p: string, after: Option<File>, applied: bool, conflict: bool) {
    At(s.files, p) == after && (p in s.applied <==> applied) && (p in s.conflicts <==> conflict)
  }

  /** A path of the snapshot. */
  predicate SnapshotOutcome(origin: Files, base: Files, ws: Files, now: int, s: Stage, p: string) {
    var o, b, w := At(origin, p), At(base, p), At(ws, p);
    if LooksSame(w, o) then Ends(s, p, b, false, false)
    else if !LooksSame(b, o) && !LooksSame(b, w) then Ends(s, p, b, false, true)
    else Lands(b, w, now, At(s.files, p)) && Ends(s, p, At(s.files, p), true, false)
  }

  /** A path of the workspace that the snapshot lacks. */
  predicate NewOutcome(base: Files, ws: Files, now: int, s: Stage, p: string) {
    var b, w := At(base, p), At(ws, p);
    if b.None? then Lands(b, w, now, At(s.files, p)) && Ends(s, p, At(s.files, p), true, false)
    else Ends(s, p, b, false, !LooksSame(b, w))
  }

  /** Whatever the sizes and time stamps of files: what applying back does at each path
      to which no written-through link leads. */
  lemma ApplyBackOutcome(origin: Files, base: Files, ws: Files, now: int, resolve: Resolve, s: Stage, p: string)
    requires Applied(ManifestOf(origin), base, ws, now, resolve, s) && p !in s.hit
    ensures Skipped({}, p) ==> Ends(s, p, At(base, p), false, false)
    ensures !Skipped({}, p) && p in origin ==> SnapshotOutcome(origin, base, ws, now, s, p)
    ensures !Skipped({}, p) && p !in origin && p in ws && p != "manifest.json" ==> NewOutcome(base, ws, now, s, p)
    ensures p !in origin && (p !in ws || p == "manifest.json") ==> Ends(s, p, At(base, p), false, false)
  {
    var m := ManifestOf(origin);
    assert Dealt(m, base, ws, now, true, s, p);
    if p in m {
      TrackedOutcome(origin, base, ws, now, s, p);
    } else {
      SameSkips(origin, p);
      UntrackedOutcome(m, base, ws, now, s, p);
    }
  }

  lemma TrackedOutcome(origin: Files, base: Files, ws: Files, now: int, s: Stage, p: string)
    requires p in ManifestOf(origin) && Dealt(ManifestOf(origin), base, ws, now, true, s, p)
    ensures SnapshotOutcome(origin, base, ws, now, s, p)
  {
    FingerprintsTell(ws, origin, p);
    FingerprintsTell(base, origin, p);
    FingerprintsTell(base, ws, p);
    assert ManifestOf(origin)[p] == FingerprintMaybe(origin, p);
    if VerdictAt(ManifestOf(origin), base, ws, p) == Take { TakenLands(ManifestOf(origin), base, ws, now, s, p); }
  }

  lemma TakenLands(m: Manifest, base: Files, ws: Files, now: int, s: Stage, p: string)
    requires Dealt(m, base, ws, now, true, s, p) && VerdictAt(m, base, ws, p) == Take
    ensures Lands(At(base, p), At(ws, p), now, At(s.files, p))
  {
  }

  lemma UntrackedOutcome(m: Manifest, base: Files, ws: Files, now: int, s: Stage, p: string)
    requires p !in m && Dealt(m, base, ws, now, true, s, p)
    ensures if p in ws && p != "manifest.json" && !Skipped(m.Keys, p) then NewOutcome(base, ws, now, s, p)
            else Ends(s, p, At(base, p), false, false)
  {
    FingerprintsTell(base, ws, p);
  }

  /** A new file of the workspace, however large, arrives where the base has nothing,
      and is a conflict where the base has something else. */
  lemma NewFileArrives(origin: Files, base: Files, ws: Files, now: int, resolve: Resolve, s: Stage, p: string)
    requires Applied(ManifestOf(origin), base, ws, now, resolve, s) && NoLinkOverwritten(ManifestOf(origin), base, ws)
    requires p in ws && ws[p].Regular? && p !in origin && p != "manifest.json" && !Skipped({}, p)
    ensures p !in base ==> At(s.files, p) == Some(Regular(ws[p].data, now)) && p in s.applied
    ensures p in base && !LooksSame(At(base, p), At(ws, p)) ==> p in s.conflicts && At(s.files, p) == At(base, p)
  {
    EverythingAppliedIff(ManifestOf(origin), base, ws, now, resolve, s);
    ApplyBackOutcome(origin, base, ws, now, resolve, s, p);
  }

  /** What a copy holds; the fresh workspace holds its manifest besides. */
  lemma CopyHoldsTheBase(base: Files, now: int, p: string, ws: Files)
    requires ws == CopyOf(base, now)
    ensures p in ws <==> p in base && !Skipped({}, p)
    ensures p in ws ==> Lands(None, At(base, p), now, At(ws, p))
  {
    if p in ws { CopiedAsIs(base, now, p); }
  }

  lemma CopiedAsIs(base: Files, now: int, p: string)
    requires p in CopyOf(base, now)
    ensures p in base && Lands(None, Some(base[p]), now, Some(CopyOf(base, now)[p]))
  {
    assert CopyOf(base, now)[p] == Copied(base[p], now);
  }

  /** What the manifest knows of the files then. */
  lemma ManifestKnowsTheCopy(base: Files, p: string, files: Files)
    ensures p in ManifestOf(base) <==> p in base && !Skipped({}, p)
    ensures p in ManifestOf(base) ==>
      (FingerprintMaybe(files, p) == ManifestOf(base)[p] <==> LooksSame(At(files, p), At(base, p)))
  {
    FingerprintsTell(files, base, p);
  }

  // ------------------------------------------------------- an untouched copy

  /** The file is a large one whose copy has another time stamp. */
  predicate LosesTimeStamp(base: Files, now: int, p: string) {
    p in base && !Skipped({}, p) && base[p].Regular? && |base[p].data| > MAX_HASH_BYTES && base[p].mtime != now
  }

  /** The fingerprint of the manifest just written. */
  function ManifestPrint(base: Files, codec: Codec, now: int): Fingerprint {
    FingerprintOf(Regular(codec.encode(ManifestOf(base)), now))
  }

  lemma UntouchedVerdict(base: Files, codec: Codec, now: int, p: string)
    requires p != MANIFEST
    ensures VerdictAt(ManifestOf(base), base, Snapshot(base, codec, now), p)
         == if LosesTimeStamp(base, now, p) then Take else Keep
  {
  }

  lemma PlainNameIsManaged(name: string)
    requires Without(name, '/') && Trim(name) == name != "" && name != "."
    requires name !in EXCLUDED_ANYWHERE + EXCLUDED_ON_TOP
    ensures !Skipped({}, name)
  {
    assert TrimLeftSlashes(name) == name && TrimRightSlashes(name) == name;
    SplitPart(name);
  }

  lemma ManifestIsManaged()
    ensures !Skipped({}, MANIFEST)
  {
    TrimIsTrimmed(MANIFEST);
    PlainNameIsManaged(MANIFEST);
  }

  lemma UntouchedManifestVerdict(base: Files, codec: Codec, now: int)
    ensures VerdictAt(ManifestOf(base), base, Snapshot(base, codec, now), MANIFEST)
         == if MANIFEST in base && FingerprintOf(base[MANIFEST]) != ManifestPrint(base, codec, now) then Take else Keep
  {
    ManifestIsManaged();
  }

  lemma UntouchedWritesThroughNoLink(base: Files, codec: Codec, now: int, p: string)
    requires !IsLink(base, MANIFEST)
    ensures !WritesThroughLink(ManifestOf(base), base, Snapshot(base, codec, now), p)
  {
    if p != MANIFEST { UntouchedVerdict(base, codec, now, p); }
  }

  /** The base has a manifest.json of its own that reads differently, and whose
      fingerprint shows it. */
  predicate OwnManifest(base: Files, codec: Codec, now: int) {
    && MANIFEST in base && FingerprintOf(base[MANIFEST]) != ManifestPrint(base, codec, now)
    && View(base, MANIFEST) != Some(Bytes(codec.encode(ManifestOf(base))))
  }

  /** Nothing is taken back from an untouched copy. */
  ghost predicate NothingTaken(base: Files, codec: Codec, now: int) {
    && (MANIFEST in base ==> FingerprintOf(base[MANIFEST]) == ManifestPrint(base, codec, now))
    && forall p :: !LosesTimeStamp(base, now, p)
  }

  lemma UntouchedAt(base: Files, codec: Codec, now: int, later: int, p: string)
    requires p != MANIFEST
    ensures var after := AppliedAt(ManifestOf(base), base, Snapshot(base, codec, now), later, p);
      && ViewOf(after) == View(base, p)
      && after == if LosesTimeStamp(base, now, p) then Some(base[p].(mtime := later)) else At(base, p)
  {
    UntouchedVerdict(base, codec, now, p);
  }

  lemma UntouchedManifestAt(base: Files, codec: Codec, now: int, later: int)
    ensures var after := AppliedAt(ManifestOf(base), base, Snapshot(base, codec, now), later, MANIFEST);
      && (ViewOf(after) == View(base, MANIFEST) <==> !OwnManifest(base, codec, now))
      && after == if MANIFEST in base && FingerprintOf(base[MANIFEST]) != ManifestPrint(base, codec, now)
                  then Some(Regular(codec.encode(ManifestOf(base)), later)) else At(base, MANIFEST)
  {
    UntouchedManifestVerdict(base, codec, now);
  }

  /** All time stamps are in the past. */
  predicate Past(base: Files, now: int) {
    forall p | p in base :: base[p].Regular? ==> base[p].mtime <= now
  }

  lemma UntouchedAtIff(base: Files, codec: Codec, now: int, later: int)
    requires !IsLink(base, MANIFEST) && Past(base, now) && now < later
    ensures (forall p :: AppliedAt(ManifestOf(base), base, Snapshot(base, codec, now), later, p) == At(base, p))
      <==> NothingTaken(base, codec, now)
  {
    var m, ws := ManifestOf(base), Snapshot(base, codec, now);
    if NothingTaken(base, codec, now) {
      UntouchedManifestAt(base, codec, now, later);
      forall p | p != MANIFEST ensures AppliedAt(m, base, ws, later, p) == At(base, p) {
        UntouchedAt(base, codec, now, later, p);
      }
    } else if MANIFEST in base && FingerprintOf(base[MANIFEST]) != ManifestPrint(base, codec, now) {
      UntouchedManifestAt(base, codec, now, later);
      assert AppliedAt(m, base, ws, later, MANIFEST) != At(base, MANIFEST);
    } else {
      var p :| LosesTimeStamp(base, now, p);
      ManifestIsManaged();
      UntouchedAt(base, codec, now, later, p);
      assert AppliedAt(m, base, ws, later, p) != At(base, p);
    }
  }

  /** Taking a copy and applying it back untouched leaves all contents as they were
      exactly when the base has no manifest.json of its own that reads differently. It
      leaves the very files, time stamps included, exactly when moreover the base has no
      file too large to be hashed whose copy got a new time. */
  lemma UntouchedCopyIsIdentityIff(base: Files, codec: Codec, now: int, later: int, resolve: Resolve, s: Stage)
    requires !IsLink(base, MANIFEST)
    requires Applied(ManifestOf(base), base, Snapshot(base, codec, now), later, resolve, s)
    ensures (forall p :: View(s.files, p) == View(base, p)) <==> !OwnManifest(base, codec, now)
    ensures Past(base, now) && now < later ==>
      ((forall p :: At(s.files, p) == At(base, p)) <==> NothingTaken(base, codec, now))
  {
    var m, ws := ManifestOf(base), Snapshot(base, codec, now);
    forall p ensures !WritesThroughLink(m, base, ws, p) { UntouchedWritesThroughNoLink(base, codec, now, p); }
    EverythingAppliedIff(m, base, ws, later, resolve, s);
    forall p
      ensures At(s.files, p) == AppliedAt(m, base, ws, later, p)
      ensures View(s.files, p) == View(base, p) <==> !(p == MANIFEST && OwnManifest(base, codec, now))
    {
      if p == MANIFEST {
        UntouchedManifestAt(base, codec, now, later);
      } else {
        UntouchedAt(base, codec, now, later, p);
      }
    }
    if OwnManifest(base, codec, now) { assert View(s.files, MANIFEST) != View(base, MANIFEST); }
    if Past(base, now) && now < later { UntouchedAtIff(base, codec, now, later); }
  }

  /** A manifest.json of the base's own is replaced by the workspace's manifest. */
  lemma OwnManifestIsOverwritten(base: Files, codec: Codec, now: int, later: int, resolve: Resolve, s: Stage)
    requires !IsLink(base, MANIFEST) && OwnManifest(base, codec, now)
    requires Applied(ManifestOf(base), base, Snapshot(base, codec, now), later, resolve, s)
    ensures View(s.files, MANIFEST) == Some(Bytes(codec.encode(ManifestOf(base)))) != View(base, MANIFEST)
  {
    var m, ws := ManifestOf(base), Snapshot(base, codec, now);
    forall p ensures !WritesThroughLink(m, base, ws, p) { UntouchedWritesThroughNoLink(base, codec, now, p); }
    EverythingAppliedIff(m, base, ws, later, resolve, s);
    assert At(s.files, MANIFEST) == AppliedAt(m, base, ws, later, MANIFEST);
    UntouchedManifestAt(base, codec, now, later);
  }

  /** An untouched file above the hashing limit is copied back, and on the next
      apply it is reported as a conflict with itself. */
  lemma LargeFileConflictsWithItself(base: Files, codec: Codec, now: int, later: int, p: string, once: Files)
    requires Managed(p) && p in base && base[p].Regular? && |base[p].data| > MAX_HASH_BYTES
    requires base[p].mtime < now < later
    requires At(once, p) == AppliedAt(ManifestOf(base), base, Snapshot(base, codec, now), later, p)
    ensures VerdictAt(ManifestOf(base), base, Snapshot(base, codec, now), p) == Take
    ensures VerdictAt(ManifestOf(base), once, Snapshot(base, codec, now), p) == Conflict
  {
  }
}
