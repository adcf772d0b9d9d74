/** Audit queries and their paging (internal/audit/service.go, cursor.go, types.go). */
module AuditPaging {
  import opened Wrappers
  import opened Text
  import opened Sorting

  const DEFAULT_LIMIT := 100
  const MAX_LIMIT := 500
  const MAX_FETCH_PER_SOURCE := 2000

  datatype Source = TaskLog | TaskTrace | SecretaryEvent | SecretaryCompression | SecretaryChat

  const ALL_SOURCES := [TaskLog, TaskTrace, SecretaryEvent, SecretaryCompression, SecretaryChat]

  function Name(s: Source): string {
    match s
    case TaskLog => "task_log"
    case TaskTrace => "task_trace"
    case SecretaryEvent => "secretary_event"
    case SecretaryCompression => "secretary_compression"
    case SecretaryChat => "secretary_chat"
  }

  /** A table row the query's conditions select: time, rank of its primary key, and
      the text of that key. */
  datatype Row = Row(ts: int, rank: int, key: string)

  datatype Entry = Entry(id: string, source: Source, time: int)

  /** What the tables hold for the query, source by source. */
  type Database = Source -> seq<Row>

  function EntryId(s: Source, key: string): string {
    Name(s) + ":" + key
  }

  function EntryOf(s: Source, r: Row): Entry {
    Entry(EntryId(s, r.key), s, r.ts)
  }

  // --------------------------------------------------------------- entry ids

  /** strings.Cut at the first colon */
  function Cut(raw: string): Option<(string, string)> {
    if raw == "" then None
    else if raw[0] == ':' then Some(("", raw[1..]))
    else
      match Cut(raw[1..])
      case None => None
      case Some(parts) => Some(([raw[0]] + parts.0, parts.1))
  }

  function SourceNamed(name: string): Option<Source> {
    if name == "task_log" then Some(TaskLog)
    else if name == "task_trace" then Some(TaskTrace)
    else if name == "secretary_event" then Some(SecretaryEvent)
    else if name == "secretary_compression" then Some(SecretaryCompression)
    else if name == "secretary_chat" then Some(SecretaryChat)
    else None
  }

  function ParseEntryId(id: string): Option<(Source, string)> {
    match Cut(Trim(id))
    case None => None
    case Some(parts) =>
      if Trim(parts.0) == "" || Trim(parts.1) == "" then None
      else
        match SourceNamed(Trim(parts.0))
        case None => None
        case Some(s) => Some((s, Trim(parts.1)))
  }

  lemma {:induction false} CutAtColon(name: string, key: string)
    requires ':' !in name
    ensures Cut(name + ":" + key) == Some((name, key))
  {
    if name == "" {
      assert name + ":" + key == [':'] + key;
    } else {
      CutAtColon(name[1..], key);
      assert (name + ":" + key)[1..] == name[1..] + ":" + key;
      assert [name[0]] + name[1..] == name;
    }
  }

  lemma NamesHaveNoColon(s: Source)
    ensures ':' !in Name(s) && Name(s) != "" && Trimmed(Name(s)) && SourceNamed(Name(s)) == Some(s)
  {
  }

  /** An entry id leads back to its source and row. */
  lemma EntryIdRoundTrip(s: Source, key: string)
    requires Trimmed(key) && key != ""
    ensures Trimmed(EntryId(s, key))
    ensures ParseEntryId(EntryId(s, key)) == Some((s, key))
  {
    NamesHaveNoColon(s);
    var id := EntryId(s, key);
    assert id[0] == Name(s)[0] && id[|id| - 1] == key[|key| - 1];
    TrimIsTrimmed(id);
    TrimIsTrimmed(key);
    TrimIsTrimmed(Name(s));
    CutAtColon(Name(s), key);
  }

  /** The names, as ids show them. */
  lemma NamesAre(key: string)
    ensures EntryId(TaskLog, key) == "task_log:" + key && EntryId(TaskTrace, key) == "task_trace:" + key
    ensures EntryId(SecretaryEvent, key) == "secretary_event:" + key
    ensures EntryId(SecretaryCompression, key) == "secretary_compression:" + key
    ensures EntryId(SecretaryChat, key) == "secretary_chat:" + key
  {
  }

  /** Whatever parses names a source before its first colon and a key behind it, white
      space aside; everything that does so parses. */
  lemma ParsesIff(id: string, s: Source, key: string)
    ensures ParseEntryId(id) == Some((s, key))
       <==> exists a, b :: Reads(id, a, b) && Trim(a) == Name(s) && Trim(b) == key != ""
  {
    NamesHaveNoColon(s);
    CutIs(Trim(id));
    if a, b :| Reads(id, a, b) && Trim(a) == Name(s) && Trim(b) == key != "" {
      CutAtColon(a, b);
    }
    if ParseEntryId(id) == Some((s, key)) {
      var parts := Cut(Trim(id)).value;
      NamedBySource(Trim(parts.0), s);
      assert Reads(id, parts.0, parts.1);
    }
  }

  predicate Reads(id: string, a: string, b: string) {
    Trim(id) == a + ":" + b && ':' !in a
  }

  lemma NamedBySource(name: string, s: Source)
    requires SourceNamed(name) == Some(s)
    ensures name == Name(s)
  {
  }

  lemma {:induction false} CutIs(raw: string)
    ensures Cut(raw).Some? ==> raw == Cut(raw).value.0 + ":" + Cut(raw).value.1 && ':' !in Cut(raw).value.0
  {
    if raw != "" && raw[0] != ':' && Cut(raw[1..]).Some? {
      CutIs(raw[1..]);
      var parts := Cut(raw[1..]).value;
      assert raw == [raw[0]] + raw[1..];
      assert [raw[0]] + parts.0 + ":" + parts.1 == [raw[0]] + (parts.0 + ":" + parts.1);
    } else if raw != "" && raw[0] == ':' {
      assert raw == "" + ":" + raw[1..];
    }
  }

  // ------------------------------------------------------------------ queries

  datatype Cursor = Cursor(timeMs: int, id: string)

  function EncodeCursor(e: Entry): Cursor {
    Cursor(e.time, Trim(e.id))
  }

  /** None when the cursor is rejected. */
  function DecodeCursor(c: Cursor): Option<Cursor> {
    if c.timeMs <= 0 || Trim(c.id) == "" then None else Some(c)
  }

  predicate OlderThan(e: Entry, c: Cursor) {
    e.time < c.timeMs || (e.time == c.timeMs && Less(e.id, c.id))
  }

  /** Newest first, larger id first among equals. */
  predicate NewestFirst(a: Entry, b: Entry) {
    a.time > b.time || (a.time == b.time && LessEq(b.id, a.id))
  }

  predicate RowsNewestFirst(a: Row, b: Row) {
    a.ts > b.ts || (a.ts == b.ts && a.rank >= b.rank)
  }

  datatype Request = Request(sources: seq<Source>, limit: int, hasTask: bool, hasRun: bool, cursor: Option<Cursor>)

  datatype Page = Page(entries: seq<Entry>, next: Option<Cursor>)

  function EffectiveLimit(limit: int): nat {
    if limit <= 0 then DEFAULT_LIMIT else if limit > MAX_LIMIT then MAX_LIMIT else limit
  }

  function PerSourceLimit(limit: nat): nat {
    if limit * 4 < 200 then 200 else if limit * 4 > MAX_FETCH_PER_SOURCE then MAX_FETCH_PER_SOURCE else limit * 4
  }

  predicate Skipped(s: Source, hasTask: bool, hasRun: bool) {
    match s
    case TaskLog => hasRun
    case TaskTrace => hasRun
    case SecretaryEvent => hasTask
    case SecretaryCompression => hasTask || hasRun
    case SecretaryChat => hasTask || hasRun
  }

  function Deduped(sources: seq<Source>): seq<Source> {
    if sources == [] then [] else
    var early, last := Deduped(sources[..|sources| - 1]), sources[|sources| - 1];
    if last in early then early else early + [last]
  }

  method NormalizeSources(sources: seq<Source>) returns (out: seq<Source>)
    ensures out == if sources == [] then ALL_SOURCES else Deduped(sources)
  {
    if |sources| == 0 { return ALL_SOURCES; }
    out := [];
    var seen: set<Source> := {};
    for i := 0 to |sources|
      invariant out == Deduped(sources[..i])
      invariant seen == set s | s in out
    {
      assert sources[..i + 1][..i] == sources[..i];
      if sources[i] !in seen {
        seen := seen + {sources[i]};
        out := out + [sources[i]];
      }
    }
    assert sources[..|sources|] == sources;
  }

  /** ORDER BY ts DESC, id DESC LIMIT n */
  function Fetch(rows: seq<Row>, n: nat): seq<Row> {
    var sorted := Sort(rows, RowsNewestFirst);
    if |sorted| <= n then sorted else sorted[..n]
  }

  function Entries(s: Source, rows: seq<Row>): seq<Entry> {
    seq(|rows|, i requires 0 <= i < |rows| => EntryOf(s, rows[i]))
  }

  /** Everything fetched for the listed sources. */
  function Fetched(db: Database, sources: seq<Source>, hasTask: bool, hasRun: bool, n: nat): seq<Entry> {
    if sources == [] then [] else
    var s := sources[|sources| - 1];
    Fetched(db, sources[..|sources| - 1], hasTask, hasRun, n)
      + (if Skipped(s, hasTask, hasRun) then [] else Entries(s, Fetch(db(s), n)))
  }

  function SourcesOf(req: Request): seq<Source> {
    if req.sources == [] then ALL_SOURCES else Deduped(req.sources)
  }

  function Merged(db: Database, req: Request): seq<Entry> {
    Sort(Fetched(db, SourcesOf(req), req.hasTask, req.hasRun, PerSourceLimit(EffectiveLimit(req.limit))), NewestFirst)
  }

  function Older(list: seq<Entry>, c: Option<Cursor>): seq<Entry> {
    if c.None? then list
    else if list == [] then []
    else
      var last := list[|list| - 1];
      Older(list[..|list| - 1], c) + (if OlderThan(last, c.value) then [last] else [])
  }

  function PageOf(list: seq<Entry>, limit: nat): Page
    requires limit > 0
  {
    if |list| > limit then Page(list[..limit], Some(EncodeCursor(list[limit - 1]))) else Page(list, None)
  }

  method Collect(db: Database, sources: seq<Source>, hasTask: bool, hasRun: bool, perSource: nat)
    returns (merged: seq<Entry>)
    ensures merged == Fetched(db, sources, hasTask, hasRun, perSource)
  {
    merged := [];
    for i := 0 to |sources|
      invariant merged == Fetched(db, sources[..i], hasTask, hasRun, perSource)
    {
      assert sources[..i + 1][..i] == sources[..i];
      if Skipped(sources[i], hasTask, hasRun) { continue; }
      merged := merged + Entries(sources[i], Fetch(db(sources[i]), perSource));
    }
    assert sources[..|sources|] == sources;
  }

  method KeepOlder(merged: seq<Entry>, cursor: Cursor) returns (filtered: seq<Entry>)
    ensures filtered == Older(merged, Some(cursor))
  {
    filtered := [];
    for i := 0 to |merged|
      invariant filtered == Older(merged[..i], Some(cursor))
    {
      assert merged[..i + 1][..i] == merged[..i];
      if OlderThan(merged[i], cursor) {
        filtered := filtered + [merged[i]];
      }
    }
    assert merged[..|merged|] == merged;
  }

  method MergeSources(db: Database, req: Request, limit: nat) returns (merged: seq<Entry>)
    requires limit == EffectiveLimit(req.limit)
    ensures merged == Merged(db, req)
  {
    var sources := NormalizeSources(req.sources);
    var perSource := limit * 4;
    if perSource < 200 { perSource := 200; }
    if perSource > MAX_FETCH_PER_SOURCE { perSource := MAX_FETCH_PER_SOURCE; }
    var list := Collect(db, sources, req.hasTask, req.hasRun, perSource);
    merged := Sort(list, NewestFirst);
  }

  /** None when the cursor is rejected. */
  method Query(db: Database, req: Request) returns (r: Option<Page>)
    ensures r == Answer(Merged(db, req), EffectiveLimit(req.limit), req.cursor)
  {
    if req.cursor.Some? && DecodeCursor(req.cursor.value).None? { return None; }
    var limit := EffectiveLimit(req.limit);
    var list := MergeSources(db, req, limit);
    if req.cursor.Some? {
      list := KeepOlder(list, req.cursor.value);
    }
    var page := Page(list, None);
    if |list| > limit {
      page := Page(list[..limit], Some(EncodeCursor(list[limit - 1])));
    }
    return Some(page);
  }

  // ------------------------------------------------------------------- paging

  predicate Newer(a: Entry, b: Entry) {
    a.time > b.time || (a.time == b.time && Less(b.id, a.id))
  }

  /** Strictly newest first: no two entries tie. */
  predicate Descending(list: seq<Entry>) {
    forall i, j :: 0 <= i < j < |list| ==> Newer(list[i], list[j])
  }

  predicate WellFormed(e: Entry) {
    e.time > 0 && Trimmed(e.id) && e.id != ""
  }

  predicate Pageable(list: seq<Entry>) {
    Descending(list) && forall i :: 0 <= i < |list| ==> WellFormed(list[i])
  }

  lemma {:induction false} OlderIsSuffix(list: seq<Entry>, k: nat, c: Cursor, rest: seq<Entry>)
    requires Descending(list) && k < |list| && c == Cursor(list[k].time, list[k].id) && rest == list[k + 1..]
    ensures Older(list, Some(c)) == rest
  {
    var n := |list| - 1;
    if k < n {
      OlderIsSuffix(list[..n], k, c, list[..n][k + 1..]);
      assert Newer(list[k], list[n]);
      assert rest == list[..n][k + 1..] + [list[n]];
    } else {
      LessIrreflexive(c.id);
      forall i | 0 <= i < n ensures Newer(list[..n][i], list[k]) { assert Newer(list[i], list[k]); }
      NoneOlder(list[..n], list[k], c);
    }
  }

  lemma {:induction false} NoneOlder(list: seq<Entry>, e: Entry, c: Cursor)
    requires c == Cursor(e.time, e.id) && forall i :: 0 <= i < |list| ==> Newer(list[i], e)
    ensures Older(list, Some(c)) == []
  {
    if list != [] {
      var last := list[|list| - 1];
      assert Newer(last, e);
      if last.time == e.time { LessAsymmetric(e.id, last.id); }
      NoneOlder(list[..|list| - 1], e, c);
    }
  }

  /** What Query answers on the merged list: nothing for a rejected cursor. */
  function Answer(list: seq<Entry>, limit: nat, cursor: Option<Cursor>): Option<Page>
    requires limit > 0
  {
    if cursor.Some? && DecodeCursor(cursor.value).None? then None else Some(PageOf(Older(list, cursor), limit))
  }

  /** The pages a client gets from a server by following NextCursor. */
  function Follow(server: Option<Cursor> -> Option<Page>, cursor: Option<Cursor>, fuel: nat): seq<seq<Entry>>
    decreases fuel
  {
    if fuel == 0 then []
    else
      match server(cursor)
      case None => []
      case Some(page) => [page.entries] + (if page.next.None? then [] else Follow(server, page.next, fuel - 1))
  }

  function Concat(pages: seq<seq<Entry>>): seq<Entry> {
    if pages == [] then [] else pages[0] + Concat(pages[1..])
  }

  /** The cursor of the k-th entry resumes right after it. */
  lemma ResumeAfter(list: seq<Entry>, k: nat)
    requires Pageable(list) && 0 < k <= |list|
    ensures DecodeCursor(EncodeCursor(list[k - 1])).Some?
    ensures Older(list, Some(EncodeCursor(list[k - 1]))) == list[k..]
  {
    TrimIsTrimmed(list[k - 1].id);
    OlderIsSuffix(list, k - 1, EncodeCursor(list[k - 1]), list[k..]);
  }

  ghost predicate FullPages(pages: seq<seq<Entry>>, limit: nat) {
    && pages != []
    && (forall i :: 0 <= i < |pages| - 1 ==> |pages[i]| == limit)
    && |pages[|pages| - 1]| <= limit
    && (|pages| > 1 ==> pages[|pages| - 1] != [])
  }

  /** A list cut into full pages. */
  function Chunks(list: seq<Entry>, limit: nat): seq<seq<Entry>>
    requires limit > 0
  {
    if |list| > limit then [list[..limit]] + Chunks(list[limit..], limit) else [list]
  }

  lemma {:induction false} ChunksAreFullPages(list: seq<Entry>, limit: nat)
    requires limit > 0
    ensures Concat(Chunks(list, limit)) == list && FullPages(Chunks(list, limit), limit)
  {
    if |list| > limit {
      ChunksAreFullPages(list[limit..], limit);
      OneMorePage(list[..limit], Chunks(list[limit..], limit), list[limit..], Chunks(list, limit), limit);
      assert list == list[..limit] + list[limit..];
    } else {
      assert Chunks(list, limit)[1..] == [];
    }
  }

  lemma OneMorePage(page: seq<Entry>, rest: seq<seq<Entry>>, list: seq<Entry>, pages: seq<seq<Entry>>, limit: nat)
    requires |page| == limit && FullPages(rest, limit) && Concat(rest) == list != [] && pages == [page] + rest
    ensures FullPages(pages, limit) && Concat(pages) == page + list
  {
    assert pages[1..] == rest;
    if |rest| == 1 { assert rest == [rest[0]] && rest[1..] == []; }
  }

  /** The cursor of the n-th entry brings the page that starts right after it. */
  predicate Resumes(server: Option<Cursor> -> Option<Page>, list: seq<Entry>, n: nat, limit: nat)
    requires 0 < n < |list| && limit > 0
  {
    server(Some(EncodeCursor(list[n - 1]))) == Some(PageOf(list[n..], limit))
  }

  /** Following the cursors cuts what is left of the list into full pages. */
  lemma {:induction false} FollowIsChunks(server: Option<Cursor> -> Option<Page>, cursor: Option<Cursor>,
                                          list: seq<Entry>, k: nat, limit: nat, fuel: nat)
    requires limit > 0 && k <= |list| && fuel > |list| - k
    requires server(cursor) == Some(PageOf(list[k..], limit))
    requires forall n {:trigger Resumes(server, list, n, limit)} :: 0 < n < |list| ==> Resumes(server, list, n, limit)
    ensures Follow(server, cursor, fuel) == Chunks(list[k..], limit)
    decreases |list| - k
  {
    var rest, n := list[k..], k + limit;
    if |rest| > limit {
      assert rest[limit - 1] == list[n - 1] && rest[limit..] == list[n..];
      assert Resumes(server, list, n, limit);
      FollowIsChunks(server, Some(EncodeCursor(list[n - 1])), list, n, limit, fuel - 1);
    }
  }

  /** Main theorem: following NextCursor from the first page yields finitely many
      pages whose concatenation is exactly the merged list, every page full but the
      last. `fuel` only bounds the recursion: any bound above the length will do. */
  lemma PagesAreTheMergedList(db: Database, req: Request, fuel: nat)
    requires ValidDatabase(db) && fuel > |Merged(db, req)|
    ensures var pages := Follow(c => Answer(Merged(db, req), EffectiveLimit(req.limit), c), None, fuel);
      && Concat(pages) == Merged(db, req)
      && FullPages(pages, EffectiveLimit(req.limit))
      && |pages| <= |Merged(db, req)| + 1
  {
    var list, limit := Merged(db, req), EffectiveLimit(req.limit);
    var server := c => Answer(list, limit, c);
    MergedIsPageable(db, req);
    forall n | 0 < n < |list| ensures Resumes(server, list, n, limit) { ResumeAfter(list, n); }
    assert list[0..] == list;
    FollowIsChunks(server, None, list, 0, limit, fuel);
    ChunksAreFullPages(list, limit);
    PageCount(Chunks(list, limit), limit);
  }

  lemma {:induction false} PageCount(pages: seq<seq<Entry>>, limit: nat)
    requires limit > 0 && FullPages(pages, limit)
    ensures |pages| <= |Concat(pages)| + 1
  {
    if |pages| > 1 {
      var rest := pages[1..];
      assert rest[|rest| - 1] == pages[|pages| - 1];
      PageCount(rest, limit);
    }
  }

  /** A cursor handed out is accepted back exactly when its entry's time is positive. */
  lemma CursorAcceptedIff(e: Entry)
    requires Trimmed(e.id) && e.id != ""
    ensures DecodeCursor(EncodeCursor(e)).Some? <==> e.time > 0
    ensures e.time > 0 ==> DecodeCursor(EncodeCursor(e)) == Some(Cursor(e.time, e.id))
  {
    TrimIsTrimmed(e.id);
  }

  // ------------------------------------------- what the merged list consists of

  /** Primary keys: trimmed, non-empty, and unique in their table. */
  ghost predicate ValidDatabase(db: Database) {
    forall s ::
      && (forall i :: 0 <= i < |db(s)| ==> Trimmed(db(s)[i].key) && db(s)[i].key != "" && db(s)[i].ts > 0)
      && (forall i, j :: 0 <= i < j < |db(s)| ==> db(s)[i].key != db(s)[j].key)
  }

  lemma RowsSorted(rows: seq<Row>) returns (sorted: seq<Row>)
    ensures sorted == Sort(rows, RowsNewestFirst) && SortedBy(sorted, RowsNewestFirst)
    ensures multiset(sorted) == multiset(rows) && |sorted| == |rows| && forall x :: x in sorted <==> x in rows
  {
    sorted := Sort(rows, RowsNewestFirst);
    SortCorrect(rows, RowsNewestFirst);
  }

  lemma EntriesSorted(list: seq<Entry>) returns (sorted: seq<Entry>)
    ensures sorted == Sort(list, NewestFirst) && SortedBy(sorted, NewestFirst)
    ensures multiset(sorted) == multiset(list) && forall x :: x in sorted <==> x in list
  {
    LessEqIsTotalOrder();
    sorted := Sort(list, NewestFirst);
    SortCorrect(list, NewestFirst);
  }

  lemma SameIdSameRow(s: Source, r: Row, t: Source, q: Row)
    requires Trimmed(r.key) && r.key != "" && Trimmed(q.key) && q.key != ""
    requires EntryId(s, r.key) == EntryId(t, q.key)
    ensures s == t && r.key == q.key
  {
    EntryIdRoundTrip(s, r.key);
    EntryIdRoundTrip(t, q.key);
  }

  lemma PrefixIsNewest(sorted: seq<Row>, k: nat, x: Row, y: Row)
    requires SortedBy(sorted, RowsNewestFirst) && k <= |sorted| && x in sorted[..k] && y in sorted && y !in sorted[..k]
    ensures x.ts > y.ts || (x.ts == y.ts && x.rank >= y.rank)
  {
    assert sorted == sorted[..k] + sorted[k..];
    var i :| 0 <= i < |sorted[..k]| && sorted[..k][i] == x;
    assert y in sorted[k..];
    var j :| 0 <= j < |sorted[k..]| && sorted[k..][j] == y;
    assert RowsNewestFirst(sorted[i], sorted[k + j]);
  }

  /** Fetching takes the n newest rows, each once. */
  lemma FetchTakesNewest(rows: seq<Row>, n: nat, f: seq<Row>)
    requires f == Fetch(rows, n)
    ensures |f| == if |rows| <= n then |rows| else n
    ensures forall x :: x in f ==> x in rows
    ensures |rows| <= n ==> forall x :: x in rows ==> x in f
    ensures forall x, y :: x in f && y in rows && y !in f ==> x.ts > y.ts || (x.ts == y.ts && x.rank >= y.rank)
    ensures Distinct(rows) ==> Distinct(f)
  {
    var sorted := RowsSorted(rows);
    if Distinct(rows) { DistinctPermutes(rows, sorted); }
    assert f == sorted[..|f|];
    forall x | x in f ensures x in rows { assert x in sorted; }
    forall x, y | x in f && y in rows && y !in f ensures x.ts > y.ts || (x.ts == y.ts && x.rank >= y.rank) {
      PrefixIsNewest(sorted, |f|, x, y);
    }
  }

  predicate Live(req: Request, s: Source) {
    s in SourcesOf(req) && !Skipped(s, req.hasTask, req.hasRun)
  }

  lemma {:induction false} DedupedDistinct(sources: seq<Source>)
    ensures Distinct(Deduped(sources)) && forall s :: s in Deduped(sources) <==> s in sources
  {
    if sources != [] {
      DedupedDistinct(sources[..|sources| - 1]);
    }
  }

  ghost predicate FromFetch(db: Database, n: nat, e: Entry) {
    exists r :: r in Fetch(db(e.source), n) && e == EntryOf(e.source, r)
  }

  lemma EntriesMembers(db: Database, s: Source, n: nat, e: Entry)
    ensures e in Entries(s, Fetch(db(s), n)) <==> e.source == s && FromFetch(db, n, e)
  {
    var rows := Fetch(db(s), n);
    var list := Entries(s, rows);
    if e in list {
      var i :| 0 <= i < |list| && list[i] == e;
      assert rows[i] in rows;
    }
    if e.source == s && FromFetch(db, n, e) {
      var r :| r in rows && e == EntryOf(s, r);
      var i :| 0 <= i < |rows| && rows[i] == r;
      assert list[i] == e;
    }
  }

  lemma FetchedStep(db: Database, sources: seq<Source>, hasTask: bool, hasRun: bool, n: nat, e: Entry)
    requires sources != []
    ensures var k := |sources| - 1;
      e in Fetched(db, sources, hasTask, hasRun, n) <==>
        || e in Fetched(db, sources[..k], hasTask, hasRun, n)
        || (e.source == sources[k] && !Skipped(e.source, hasTask, hasRun) && FromFetch(db, n, e))
  {
    var k := |sources| - 1;
    EntriesMembers(db, sources[k], n, e);
    assert e in Fetched(db, sources, hasTask, hasRun, n) <==>
      || e in Fetched(db, sources[..k], hasTask, hasRun, n)
      || (!Skipped(sources[k], hasTask, hasRun) && e in Entries(sources[k], Fetch(db(sources[k]), n)));
  }

  lemma InPrefixOrLast(sources: seq<Source>, s: Source)
    requires sources != []
    ensures s in sources <==> s in sources[..|sources| - 1] || s == sources[|sources| - 1]
  {
    assert sources == sources[..|sources| - 1] + [sources[|sources| - 1]];
  }

  lemma {:induction false} FetchedMembers(db: Database, sources: seq<Source>, hasTask: bool, hasRun: bool, n: nat,
                                          e: Entry)
    ensures e in Fetched(db, sources, hasTask, hasRun, n)
      <==> e.source in sources && !Skipped(e.source, hasTask, hasRun) && FromFetch(db, n, e)
  {
    if sources != [] {
      FetchedMembers(db, sources[..|sources| - 1], hasTask, hasRun, n, e);
      FetchedStep(db, sources, hasTask, hasRun, n, e);
      InPrefixOrLast(sources, e.source);
    }
  }

  ghost predicate DistinctIds(list: seq<Entry>) {
    forall i, j :: 0 <= i < j < |list| ==> list[i].id != list[j].id
  }

  lemma EntriesDistinct(db: Database, s: Source, n: nat)
    requires ValidDatabase(db)
    ensures DistinctIds(Entries(s, Fetch(db(s), n)))
  {
    var rows := Fetch(db(s), n);
    FetchTakesNewest(db(s), n, Fetch(db(s), n));
    assert Distinct(db(s));
    forall i, j | 0 <= i < j < |rows| ensures EntryId(s, rows[i].key) != EntryId(s, rows[j].key) {
      assert rows[i] in db(s) && rows[j] in db(s);
      if EntryId(s, rows[i].key) == EntryId(s, rows[j].key) { SameIdSameRow(s, rows[i], s, rows[j]); }
    }
  }

  lemma OtherSourceOtherId(db: Database, n: nat, a: Entry, b: Entry)
    requires ValidDatabase(db) && FromFetch(db, n, a) && FromFetch(db, n, b) && a.source != b.source
    ensures a.id != b.id
  {
    var r :| r in Fetch(db(a.source), n) && a == EntryOf(a.source, r);
    var q :| q in Fetch(db(b.source), n) && b == EntryOf(b.source, q);
    FetchTakesNewest(db(a.source), n, Fetch(db(a.source), n));
    FetchTakesNewest(db(b.source), n, Fetch(db(b.source), n));
    if a.id == b.id { SameIdSameRow(a.source, r, b.source, q); }
  }

  lemma {:induction false} FetchedDistinct(db: Database, sources: seq<Source>, hasTask: bool, hasRun: bool, n: nat)
    requires ValidDatabase(db) && Distinct(sources)
    ensures DistinctIds(Fetched(db, sources, hasTask, hasRun, n))
  {
    if sources != [] {
      var k := |sources| - 1;
      var early := Fetched(db, sources[..k], hasTask, hasRun, n);
      FetchedDistinct(db, sources[..k], hasTask, hasRun, n);
      if !Skipped(sources[k], hasTask, hasRun) {
        assert sources[k] !in sources[..k];
        var late := Entries(sources[k], Fetch(db(sources[k]), n));
        MoreDistinct(db, sources[..k], sources[k], hasTask, hasRun, n, early, late);
      }
    }
  }

  lemma MoreDistinct(db: Database, sources: seq<Source>, s: Source, hasTask: bool, hasRun: bool, n: nat,
                     early: seq<Entry>, late: seq<Entry>)
    requires ValidDatabase(db) && s !in sources && early == Fetched(db, sources, hasTask, hasRun, n)
    requires DistinctIds(early) && late == Entries(s, Fetch(db(s), n))
    ensures DistinctIds(early + late)
  {
    EntriesDistinct(db, s, n);
    forall a, b | a in early && b in late ensures a.id != b.id {
      FetchedMembers(db, sources, hasTask, hasRun, n, a);
      EntriesMembers(db, s, n, b);
      OtherSourceOtherId(db, n, a, b);
    }
    DistinctAppend(early, late);
  }

  lemma DistinctAppend(a: seq<Entry>, b: seq<Entry>)
    requires DistinctIds(a) && DistinctIds(b) && forall x, y :: x in a && y in b ==> x.id != y.id
    ensures DistinctIds(a + b)
  {
    forall i, j | 0 <= i < |a| && 0 <= j < |b| ensures a[i].id != b[j].id {
      assert a[i] in a && b[j] in b;
    }
  }

  lemma DistinctIdsPermute(a: seq<Entry>, b: seq<Entry>)
    requires DistinctIds(a) && multiset(a) == multiset(b)
    ensures DistinctIds(b)
  {
    DistinctPermutes(a, b);
    forall i, j | 0 <= i < j < |b| ensures b[i].id != b[j].id {
      assert b[i] in multiset(b) && b[j] in multiset(b);
      assert b[i] in a && b[j] in a;
      var x :| 0 <= x < |a| && a[x] == b[i];
      var y :| 0 <= y < |a| && a[y] == b[j];
      assert x != y;
      assert a[x].id != a[y].id by { if x < y { } else { } }
    }
  }

  lemma FetchedIsWellFormed(db: Database, n: nat, e: Entry)
    requires ValidDatabase(db) && FromFetch(db, n, e)
    ensures WellFormed(e)
  {
    var rows := Fetch(db(e.source), n);
    var r :| r in rows && e == EntryOf(e.source, r);
    FetchTakesNewest(db(e.source), n, rows);
    assert r in db(e.source);
    EntryIdRoundTrip(e.source, r.key);
  }

  lemma SortedDescends(list: seq<Entry>)
    requires SortedBy(list, NewestFirst) && DistinctIds(list)
    ensures Descending(list)
  {
    forall i, j | 0 <= i < j < |list| ensures Newer(list[i], list[j]) {
      assert NewestFirst(list[i], list[j]) && list[i].id != list[j].id;
    }
  }

  lemma FetchedIs(db: Database, req: Request, n: nat, fetched: seq<Entry>)
    requires ValidDatabase(db) && fetched == Fetched(db, SourcesOf(req), req.hasTask, req.hasRun, n)
    ensures DistinctIds(fetched)
    ensures forall e :: e in fetched <==> Live(req, e.source) && FromFetch(db, n, e)
  {
    SourcesDistinct(req);
    FetchedDistinct(db, SourcesOf(req), req.hasTask, req.hasRun, n);
    forall e { FetchedIffLive(db, req, n, fetched, e); }
  }

  lemma SourcesDistinct(req: Request)
    ensures Distinct(SourcesOf(req))
  {
    DedupedDistinct(req.sources);
  }

  lemma FetchedIffLive(db: Database, req: Request, n: nat, fetched: seq<Entry>, e: Entry)
    requires fetched == Fetched(db, SourcesOf(req), req.hasTask, req.hasRun, n)
    ensures e in fetched <==> Live(req, e.source) && FromFetch(db, n, e)
  {
    FetchedMembers(db, SourcesOf(req), req.hasTask, req.hasRun, n, e);
  }

  lemma SortedIds(fetched: seq<Entry>) returns (sorted: seq<Entry>)
    requires DistinctIds(fetched)
    ensures sorted == Sort(fetched, NewestFirst) && SortedBy(sorted, NewestFirst) && DistinctIds(sorted)
    ensures forall e :: e in sorted <==> e in fetched
  {
    sorted := EntriesSorted(fetched);
    DistinctIdsPermute(fetched, sorted);
  }

  lemma MergedIsFetched(db: Database, req: Request, n: nat, list: seq<Entry>)
    requires ValidDatabase(db) && n == PerSourceLimit(EffectiveLimit(req.limit)) && list == Merged(db, req)
    ensures SortedBy(list, NewestFirst) && DistinctIds(list)
    ensures forall e :: e in list <==> Live(req, e.source) && FromFetch(db, n, e)
  {
    var fetched := Fetched(db, SourcesOf(req), req.hasTask, req.hasRun, n);
    FetchedIs(db, req, n, fetched);
    var sorted := SortedIds(fetched);
    assert list == sorted;
  }

  /** The merged list holds exactly the fetched rows of the live sources, strictly
      newest first. */
  lemma MergedIsPageable(db: Database, req: Request)
    requires ValidDatabase(db)
    ensures Pageable(Merged(db, req)) && DistinctIds(Merged(db, req))
    ensures forall e :: (e in Merged(db, req)) ==
                        (Live(req, e.source) && FromFetch(db, PerSourceLimit(EffectiveLimit(req.limit)), e))
  {
    var list, n := Merged(db, req), PerSourceLimit(EffectiveLimit(req.limit));
    MergedIsFetched(db, req, n, list);
    SortedDescends(list);
    forall i | 0 <= i < |list| ensures WellFormed(list[i]) {
      assert list[i] in list;
      FetchedIsWellFormed(db, n, list[i]);
    }
  }

  // ------------------------------------------------- the query, spelled out

  /** Which sources a query reads: those asked for, or all; logs and traces only without a
      run, secretary events only without a task, the others only without either. */
  lemma LiveIff(req: Request, s: Source)
    ensures Live(req, s) <==>
      && (req.sources == [] || s in req.sources)
      && (s in {TaskLog, TaskTrace} ==> !req.hasRun)
      && (s == SecretaryEvent ==> !req.hasTask)
      && (s in {SecretaryCompression, SecretaryChat} ==> !req.hasTask && !req.hasRun)
  {
    DedupedDistinct(req.sources);
    assert s in ALL_SOURCES;
  }

  /** How many entries a page holds, and how many rows are read of each source. */
  lemma LimitsAre(limit: int)
    ensures EffectiveLimit(limit) == if limit <= 0 then 100 else if limit > 500 then 500 else limit
    ensures 1 <= limit <= 50 ==> PerSourceLimit(EffectiveLimit(limit)) == 200
    ensures 50 <= limit <= 500 ==> PerSourceLimit(EffectiveLimit(limit)) == 4 * limit
  {
  }

  /** The merged list: of every live source its newest rows, up to the limit of a source;
      newest first, and of those as old as each other the one with the larger id. */
  lemma MergedOrder(db: Database, req: Request, list: seq<Entry>, i: nat, j: nat)
    requires ValidDatabase(db) && list == Merged(db, req) && i < j < |list|
    ensures list[i].time > list[j].time || (list[i].time == list[j].time && Less(list[j].id, list[i].id))
  {
    MergedIsPageable(db, req);
    assert Newer(list[i], list[j]);
  }

  /** What a cursor leaves of a list: what is older than its time, or as old with a smaller
      id. */
  lemma {:induction false} OlderIs(list: seq<Entry>, c: Cursor, e: Entry)
    ensures e in Older(list, Some(c)) <==>
      e in list && (e.time < c.timeMs || (e.time == c.timeMs && Less(e.id, c.id)))
  {
    if list != [] {
      var n := |list| - 1;
      OlderIs(list[..n], c, e);
      assert list == list[..n] + [list[n]];
    }
  }

  /** It stays in order. */
  lemma {:induction false} OlderDescends(list: seq<Entry>, c: Cursor)
    requires Descending(list)
    ensures Descending(Older(list, Some(c)))
  {
    if list != [] {
      var n := |list| - 1;
      OlderDescends(list[..n], c);
      forall i | 0 <= i < n ensures Newer(list[..n][i], list[n]) { assert Newer(list[i], list[n]); }
      OlderStaysNewer(list[..n], c, list[n]);
    }
  }

  lemma {:induction false} OlderStaysNewer(list: seq<Entry>, c: Cursor, e: Entry)
    requires forall i :: 0 <= i < |list| ==> Newer(list[i], e)
    ensures forall i :: 0 <= i < |Older(list, Some(c))| ==> Newer(Older(list, Some(c))[i], e)
  {
    if list != [] { OlderStaysNewer(list[..|list| - 1], c, e); }
  }

  /** What a query answers on the merged list: nothing for a cursor without a time or an
      id; else the next entries up to the limit, with a cursor exactly if there are more,
      which names the last of them. */
  lemma AnswerIs(list: seq<Entry>, limit: nat, cursor: Option<Cursor>, rest: seq<Entry>)
    requires limit > 0 && rest == Older(list, cursor)
    ensures Answer(list, limit, cursor).None? <==>
      cursor.Some? && (cursor.value.timeMs <= 0 || White(cursor.value.id))
    ensures Answer(list, limit, cursor).Some? ==>
      var page := Answer(list, limit, cursor).value;
      && page.entries == (if |rest| > limit then rest[..limit] else rest)
      && (page.next.Some? <==> |rest| > limit)
      && (|rest| > limit ==> page.next == Some(Cursor(rest[limit - 1].time, Trim(rest[limit - 1].id))))
    ensures cursor.None? ==> rest == list
  {
    if cursor.Some? { TrimEmptyIsWhite(cursor.value.id); }
  }

  // ------------------------------------------------------- newness of page one

  lemma {:induction false} SetOfSize<T>(s: seq<T>)
    ensures |set x | x in s| <= |s|
    ensures Distinct(s) ==> |set x | x in s| == |s|
  {
    if s != [] {
      var n := |s| - 1;
      SetOfSize(s[..n]);
      assert (set x | x in s) == (set x | x in s[..n]) + {s[n]};
    }
  }

  lemma SubsetSize<T>(a: set<T>, b: set<T>)
    requires a <= b
    ensures |a| <= |b|
  {
    assert b == a + (b - a);
  }

  /** `own` distinct entries no older than `t` push everything older than `t` behind
      the first |own| places. */
  lemma Pigeonhole(list: seq<Entry>, own: seq<Entry>, k: nat, t: int)
    requires Descending(list) && Distinct(own) && 0 < k <= |own|
    requires forall e :: e in own ==> e in list && e.time >= t
    ensures |list| >= |own| && list[k - 1].time >= t
  {
    var mine := set e | e in own;
    SetOfSize(own);
    SetOfSize(list);
    SubsetSize(mine, set e | e in list);
    if list[k - 1].time < t {
      var head := list[..k - 1];
      forall e | e in own ensures e in head {
        var i :| 0 <= i < |list| && list[i] == e;
        assert i < k - 1;
        assert head[i] == e;
      }
      SetOfSize(head);
      SubsetSize(mine, set e | e in head);
    }
  }

  lemma OwnEntries(db: Database, req: Request, s: Source, r: Row) returns (own: seq<Entry>)
    requires ValidDatabase(db) && Live(req, s) && r in db(s)
    requires r !in Fetch(db(s), PerSourceLimit(EffectiveLimit(req.limit)))
    ensures |own| > EffectiveLimit(req.limit) && Distinct(own)
    ensures forall e :: e in own ==> e in Merged(db, req) && e.time >= r.ts
  {
    var n := PerSourceLimit(EffectiveLimit(req.limit));
    var rows := Fetch(db(s), n);
    FetchTakesNewest(db(s), n, Fetch(db(s), n));
    MergedIsPageable(db, req);
    EntriesDistinct(db, s, n);
    own := Entries(s, rows);
    forall e | e in own ensures e in Merged(db, req) && e.time >= r.ts {
      EntriesMembers(db, s, n, e);
      var i :| 0 <= i < |own| && own[i] == e;
      assert rows[i] in rows;
    }
  }

  /** A source that was cut off at the per-source limit alone fills the first page:
      no row left out of the fetch is newer than the page's oldest entry. */
  lemma UnfetchedIsNotNewer(db: Database, req: Request, s: Source, r: Row, list: seq<Entry>, limit: nat)
    requires ValidDatabase(db) && Live(req, s) && list == Merged(db, req) && limit == EffectiveLimit(req.limit)
    requires r in db(s) && r !in Fetch(db(s), PerSourceLimit(limit))
    ensures |list| > limit && list[limit - 1].time >= r.ts
  {
    var own := OwnEntries(db, req, s, r);
    MergedIsPageable(db, req);
    Pigeonhole(list, own, limit, r.ts);
  }

  lemma CutPage(list: seq<Entry>, limit: nat, page: seq<Entry>)
    requires 0 < limit < |list| && page == PageOf(list, limit).entries
    ensures |page| == limit && page[limit - 1] == list[limit - 1]
  {
  }

  lemma FetchedIsPlaced(list: seq<Entry>, limit: nat, e: Entry, page: seq<Entry>)
    requires limit > 0 && Descending(list) && e in list && page == PageOf(list, limit).entries
    ensures e in page || (page != [] && page[|page| - 1].time >= e.time)
  {
    var i :| 0 <= i < |list| && list[i] == e;
    if i < |page| {
      assert page[i] == e;
    } else {
      assert Newer(list[|page| - 1], list[i]);
    }
  }

  lemma FetchedIsMerged(db: Database, req: Request, s: Source, r: Row, n: nat)
    requires ValidDatabase(db) && Live(req, s) && n == PerSourceLimit(EffectiveLimit(req.limit)) && r in Fetch(db(s), n)
    ensures Descending(Merged(db, req)) && EntryOf(s, r) in Merged(db, req)
  {
    assert FromFetch(db, n, EntryOf(s, r));
    MergedIsPageable(db, req);
  }

  lemma FetchedIsOnTime(db: Database, req: Request, s: Source, r: Row, list: seq<Entry>, limit: nat, page: seq<Entry>)
    requires ValidDatabase(db) && Live(req, s) && list == Merged(db, req) && limit == EffectiveLimit(req.limit)
    requires page == PageOf(list, limit).entries && r in Fetch(db(s), PerSourceLimit(limit))
    ensures EntryOf(s, r) in page || (page != [] && page[|page| - 1].time >= r.ts)
  {
    FetchedIsMerged(db, req, s, r, PerSourceLimit(limit));
    FetchedIsPlaced(list, limit, EntryOf(s, r), page);
  }

  lemma UnfetchedIsLate(db: Database, req: Request, s: Source, r: Row, list: seq<Entry>, limit: nat, page: seq<Entry>)
    requires ValidDatabase(db) && Live(req, s) && list == Merged(db, req) && limit == EffectiveLimit(req.limit)
    requires page == PageOf(list, limit).entries && r in db(s) && r !in Fetch(db(s), PerSourceLimit(limit))
    ensures page != [] && page[|page| - 1].time >= r.ts
  {
    UnfetchedIsNotNewer(db, req, s, r, list, limit);
    CutPage(list, limit, page);
  }

  /** No selected row that is missing from the first page is newer than the oldest
      entry on it. */
  lemma FirstPageHasTheNewest(db: Database, req: Request, s: Source, r: Row, page: seq<Entry>)
    requires ValidDatabase(db) && Live(req, s) && r in db(s)
    requires page == PageOf(Merged(db, req), EffectiveLimit(req.limit)).entries
    ensures EntryOf(s, r) in page || (page != [] && page[|page| - 1].time >= r.ts)
  {
    var list, limit := Merged(db, req), EffectiveLimit(req.limit);
    if r in Fetch(db(s), PerSourceLimit(limit)) {
      FetchedIsOnTime(db, req, s, r, list, limit, page);
    } else {
      UnfetchedIsLate(db, req, s, r, list, limit, page);
    }
  }

  /** A row beyond the per-source limit is on no page at all. */
  lemma UnfetchedIsNeverReached(db: Database, req: Request, s: Source, r: Row, fuel: nat)
    requires ValidDatabase(db) && r in db(s) && fuel > |Merged(db, req)|
    requires r !in Fetch(db(s), PerSourceLimit(EffectiveLimit(req.limit)))
    ensures EntryOf(s, r) !in Concat(Follow(c => Answer(Merged(db, req), EffectiveLimit(req.limit), c), None, fuel))
  {
    var n := PerSourceLimit(EffectiveLimit(req.limit));
    PagesAreTheMergedList(db, req, fuel);
    MergedIsPageable(db, req);
    if FromFetch(db, n, EntryOf(s, r)) {
      var q :| q in Fetch(db(s), n) && EntryOf(s, r) == EntryOf(s, q);
      FetchTakesNewest(db(s), n, Fetch(db(s), n));
      SameIdSameRow(s, r, s, q);
    }
  }
}
