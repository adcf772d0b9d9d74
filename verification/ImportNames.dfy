/** Provider profiles with names unique ignoring case (internal/providers/store.go), and
    the names given to imported ones (internal/api/providers.go). */
module ImportNames {
  import opened Sorting
  import opened Text
  import opened Wrappers

  datatype Profile = Profile(id: string, name: string, targets: string, createdAt: int, updatedAt: int)

  datatype Error = NameRequired | NameExists | ProfilesRequired

  /** strings.ToLower, given the lower case of a character. */
  function Lower(s: string, lower: char -> char): (r: string)
    ensures |r| == |s| && forall i :: 0 <= i < |s| ==> r[i] == lower(s[i])
  {
    if s == "" then "" else [lower(s[0])] + Lower(s[1..], lower)
  }

  /** Names are compared by key. */
  function Key(name: string, lower: char -> char): string {
    Lower(Trim(name), lower)
  }

  // ------------------------------------------------------------ numbered names

  function Digit(d: nat): char
    requires d < 10
  {
    ('0' as int + d) as char
  }

  function Itoa(n: nat): (r: string)
    ensures r != ""
  {
    if n < 10 then [Digit(n)] else Itoa(n / 10) + [Digit(n % 10)]
  }

  /** Different numbers are printed differently. */
  lemma {:induction false} ItoaInjective(m: nat, n: nat)
    ensures Itoa(m) == Itoa(n) ==> m == n
  {
    if Itoa(m) == Itoa(n) && m >= 10 && n >= 10 {
      LastDigit(Itoa(m / 10), Digit(m % 10), Itoa(n / 10), Digit(n % 10));
      ItoaInjective(m / 10, n / 10);
    }
  }

  lemma LastDigit(a: string, x: char, b: string, y: char)
    requires a + [x] == b + [y]
    ensures a == b && x == y
  {
    assert a == (a + [x])[..|a + [x]| - 1] && b == (b + [y])[..|b + [y]| - 1];
    assert x == (a + [x])[|a|] && y == (b + [y])[|b|];
  }

  const IMPORTED := " (导入"

  /** What is appended on the i-th attempt. */
  function Suffix(i: nat): (s: string)
    ensures s != "" && s[0] == ' ' && s[|s| - 1] == ')'
  {
    if i <= 1 then IMPORTED + ")" else IMPORTED + " " + Itoa(i) + ")"
  }

  lemma SuffixesDiffer(i: nat, j: nat)
    requires 0 < i < j
    ensures Suffix(i) != Suffix(j)
  {
    if i > 1 {
      var n := |IMPORTED| + 1;
      assert Suffix(i)[n..|Suffix(i)| - 1] == Itoa(i);
      assert Suffix(j)[n..|Suffix(j)| - 1] == Itoa(j);
      ItoaInjective(i, j);
    } else {
      assert |Suffix(j)| > |Suffix(i)|;
    }
  }

  // ---------------------------------------------------------- choosing a name

  const DEFAULT_NAME := "导入配置"

  function Base(name: string): string {
    if Trim(name) == "" then DEFAULT_NAME else Trim(name)
  }

  /** The i-th name tried. */
  function Attempt(name: string, i: nat): string {
    if i == 0 then Base(name) else Base(name) + Suffix(i)
  }

  /** Characters of the suffixes have no upper case. */
  ghost predicate FixesSuffixes(lower: char -> char) {
    forall i, k :: 0 <= k < |Suffix(i)| ==> lower(Suffix(i)[k]) == Suffix(i)[k]
  }

  /** The names tried, and what they end in. */
  lemma AttemptsAre(name: string, i: nat)
    requires !White(name)
    ensures Attempt(name, i) == if i == 0 then Trim(name) else Trim(name) + Suffix(i)
  {
    TrimEmptyIsWhite(name);
  }

  lemma SuffixesAre(i: nat)
    ensures Suffix(1) == " (导入" + ")"
    ensures i > 1 ==> Suffix(i) == " (导入" + " " + Itoa(i) + ")"
  {
  }

  function DigitValue(c: char): int {
    c as int - '0' as int
  }

  /** The number that decimal digits stand for. */
  function ValueOf(s: string): int {
    if s == "" then 0 else 10 * ValueOf(s[..|s| - 1]) + DigitValue(s[|s| - 1])
  }

  lemma {:induction false} ItoaIsDecimal(n: nat)
    ensures ValueOf(Itoa(n)) == n && forall i :: 0 <= i < |Itoa(n)| ==> '0' <= Itoa(n)[i] <= '9'
  {
    if n >= 10 { ItoaIsDecimal(n / 10); }
    assert Itoa(n)[..|Itoa(n)| - 1] == if n < 10 then "" else Itoa(n / 10);
  }

  lemma {:induction false} LowerAppend(s: string, t: string, lower: char -> char)
    ensures Lower(s + t, lower) == Lower(s, lower) + Lower(t, lower)
  {
    if s == "" {
      assert s + t == t;
    } else {
      assert (s + t)[1..] == s[1..] + t;
      LowerAppend(s[1..], t, lower);
    }
  }

  lemma AttemptIsTrimmed(name: string, i: nat)
    ensures Attempt(name, i) != "" && Trim(Attempt(name, i)) == Attempt(name, i)
  {
    TrimIsTrimmed(name);
    TrimIsTrimmed(Attempt(name, i));
  }

  lemma AttemptKey(name: string, i: nat, lower: char -> char)
    requires FixesSuffixes(lower)
    ensures Key(Attempt(name, i), lower) == Lower(Base(name), lower) + (if i == 0 then "" else Suffix(i))
  {
    AttemptIsTrimmed(name, i);
    if i > 0 {
      LowerAppend(Base(name), Suffix(i), lower);
      assert Lower(Suffix(i), lower) == Suffix(i);
    }
  }

  /** No two attempts have the same key. */
  lemma AttemptsDiffer(name: string, i: nat, j: nat, lower: char -> char)
    requires FixesSuffixes(lower) && i < j
    ensures Key(Attempt(name, i), lower) != Key(Attempt(name, j), lower)
  {
    AttemptKey(name, i, lower);
    AttemptKey(name, j, lower);
    var b := Lower(Base(name), lower);
    if i > 0 {
      SuffixesDiffer(i, j);
      assert (b + Suffix(i))[|b|..] == Suffix(i) && (b + Suffix(j))[|b|..] == Suffix(j);
    } else {
      assert |b + Suffix(j)| > |b|;
    }
  }

  /** Distinct elements of a set are no more than it has. */
  lemma {:induction false} Pigeonhole(keys: seq<string>, used: set<string>)
    requires Distinct(keys) && forall k :: 0 <= k < |keys| ==> keys[k] in used
    ensures |keys| <= |used|
  {
    if keys != [] {
      var n := |keys| - 1;
      Pigeonhole(keys[..n], used - {keys[n]});
    }
  }

  /** `keys` are those of the first attempts, all of them in use. */
  ghost predicate InUse(keys: seq<string>, name: string, used: set<string>, lower: char -> char) {
    forall k :: 0 <= k < |keys| ==> keys[k] in used && IsKey(keys[k], name, k, lower)
  }

  predicate IsKey(key: string, name: string, i: nat, lower: char -> char) {
    key == Key(Attempt(name, i), lower)
  }

  lemma AttemptsAreBounded(keys: seq<string>, name: string, used: set<string>, lower: char -> char)
    requires FixesSuffixes(lower) && InUse(keys, name, used, lower)
    ensures |keys| <= |used|
  {
    forall i, j | 0 <= i < j < |keys| ensures keys[i] != keys[j] {
      assert IsKey(keys[i], name, i, lower) && IsKey(keys[j], name, j, lower);
      AttemptsDiffer(name, i, j, lower);
    }
    Pigeonhole(keys, used);
  }

  /** The first attempt whose key is free. */
  predicate FirstFree(name: string, used: set<string>, lower: char -> char, i: nat) {
    Key(Attempt(name, i), lower) !in used && forall k | 0 <= k < i :: Key(Attempt(name, k), lower) in used
  }

  lemma InUseGrows(keys: seq<string>, name: string, used: set<string>, lower: char -> char, key: string)
    requires InUse(keys, name, used, lower) && IsKey(key, name, |keys|, lower) && key in used
    ensures InUse(keys + [key], name, used, lower)
  {
    var more := keys + [key];
    forall k | 0 <= k < |more| ensures more[k] in used && IsKey(more[k], name, k, lower) {
      if k < |keys| {
        assert more[k] == keys[k] && IsKey(keys[k], name, k, lower);
      } else {
        assert k == |keys| && more[k] == key;
      }
    }
  }

  lemma FirstFreeIs(keys: seq<string>, name: string, used: set<string>, lower: char -> char, key: string)
    requires InUse(keys, name, used, lower) && IsKey(key, name, |keys|, lower) && key !in used
    ensures FirstFree(name, used, lower, |keys|)
  {
    forall k | 0 <= k < |keys| ensures Key(Attempt(name, k), lower) in used {
      assert IsKey(keys[k], name, k, lower);
    }
  }

  /** Takes the first free name, within |used| + 1 attempts. */
  method NextImportedProviderName(name: string, used: set<string>, lower: char -> char)
    returns (chosen: string, used': set<string>, ghost i: nat)
    requires FixesSuffixes(lower)
    ensures i <= |used| && FirstFree(name, used, lower, i) && chosen == Attempt(name, i)
    ensures used' == used + {Key(chosen, lower)}
  {
    var base := Base(name);
    var key := Key(base, lower);
    ghost var keys: seq<string> := [];
    if key !in used {
      FirstFreeIs(keys, name, used, lower, key);
      return base, used + {key}, 0;
    }
    keys := [key];
    AttemptsAreBounded(keys, name, used, lower);
    var n := 1;
    while true
      invariant n == |keys| > 0 && InUse(keys, name, used, lower) && |keys| <= |used|
      decreases |used| - n
    {
      var candidate := base + Suffix(n);
      key := Key(candidate, lower);
      if key !in used {
        FirstFreeIs(keys, name, used, lower, key);
        return candidate, used + {key}, n;
      }
      InUseGrows(keys, name, used, lower, key);
      keys := keys + [key];
      AttemptsAreBounded(keys, name, used, lower);
      n := n + 1;
    }
  }

  // --------------------------------------------------------------- the store

  function Normalized(p: Profile): Profile {
    p.(id := Trim(p.id), name := Trim(p.name))
  }

  /** Some profile other than `exceptId` has the name, ignoring case. */
  predicate NameTaken(ps: seq<Profile>, name: string, exceptId: string, lower: char -> char) {
    Key(name, lower) != "" && exists i | 0 <= i < |ps| ::
      (exceptId == "" || ps[i].id != exceptId) && Key(ps[i].name, lower) == Key(name, lower)
  }

  /** The position of a profile, the length if there is none. */
  function IndexOf(ps: seq<Profile>, id: string): (i: nat)
    ensures i <= |ps| && (i < |ps| ==> ps[i].id == id) && forall j :: 0 <= j < i ==> ps[j].id != id
  {
    if ps == [] || ps[0].id == id then 0 else 1 + IndexOf(ps[1..], id)
  }

  function UpsertError(ps: seq<Profile>, p: Profile, lower: char -> char): Option<Error> {
    if Trim(p.name) == "" then Some(NameRequired)
    else if NameTaken(ps, Trim(p.name), Trim(p.id), lower) then Some(NameExists)
    else None
  }

  /** The profile as it is stored. */
  function Saved(ps: seq<Profile>, p: Profile, freshId: string, now: int): Profile {
    var p := Normalized(p);
    if p.id == "" then p.(id := freshId, createdAt := now, updatedAt := now)
    else
      var i := IndexOf(ps, p.id);
      p.(createdAt := if i < |ps| then ps[i].createdAt else now, updatedAt := now)
  }

  function AfterUpsert(ps: seq<Profile>, p: Profile, freshId: string, now: int): seq<Profile> {
    var saved, i := Saved(ps, p, freshId, now), IndexOf(ps, Trim(p.id));
    if Trim(p.id) != "" && i < |ps| then ps[i := saved] else ps + [saved]
  }

  /** What a profile is refused for: a blank name, or one that another profile has. */
  lemma UpsertRefuses(ps: seq<Profile>, p: Profile, lower: char -> char)
    ensures UpsertError(ps, p, lower) == Some(NameRequired) <==> White(p.name)
    ensures UpsertError(ps, p, lower) == Some(NameExists) <==>
      !White(p.name) && Lower(Trim(p.name), lower) != "" && exists i :: 0 <= i < |ps| && Clashes(ps[i], p, lower)
    ensures UpsertError(ps, p, lower) in {None, Some(NameRequired), Some(NameExists)}
  {
    TrimEmptyIsWhite(p.name);
    TakenIff(ps, p, lower);
  }

  lemma TakenIff(ps: seq<Profile>, p: Profile, lower: char -> char)
    ensures NameTaken(ps, Trim(p.name), Trim(p.id), lower) <==>
      Lower(Trim(p.name), lower) != "" && exists i :: 0 <= i < |ps| && Clashes(ps[i], p, lower)
  {
    TrimIsTrimmed(p.name);
    forall i | 0 <= i < |ps|
      ensures Clashes(ps[i], p, lower) <==>
        (Trim(p.id) == "" || ps[i].id != Trim(p.id)) && Key(ps[i].name, lower) == Key(Trim(p.name), lower)
    {
      ClashIs(ps[i], p, lower);
    }
  }

  lemma ClashIs(q: Profile, p: Profile, lower: char -> char)
    ensures Clashes(q, p, lower) <==>
      (Trim(p.id) == "" || q.id != Trim(p.id)) && Key(q.name, lower) == Key(Trim(p.name), lower)
  {
    TrimEmptyIsWhite(p.id);
    TrimIsTrimmed(p.name);
  }

  /** Another profile with the name, ignoring case. */
  predicate Clashes(q: Profile, p: Profile, lower: char -> char) {
    (White(p.id) || q.id != Trim(p.id)) && Lower(Trim(q.name), lower) == Lower(Trim(p.name), lower)
  }

  /** What is stored: over the profile with that id, whose date of creation stays, or at
      the end. */
  lemma UpsertStores(ps: seq<Profile>, p: Profile, freshId: string, now: int, k: nat)
    requires k <= |ps| && (forall j :: 0 <= j < k ==> ps[j].id != Trim(p.id)) && (k < |ps| ==> ps[k].id == Trim(p.id))
    ensures AfterUpsert(ps, p, freshId, now)
         == if White(p.id) then ps + [Profile(freshId, Trim(p.name), p.targets, now, now)]
            else if k < |ps| then ps[k := Profile(Trim(p.id), Trim(p.name), p.targets, ps[k].createdAt, now)]
            else ps + [Profile(Trim(p.id), Trim(p.name), p.targets, now, now)]
  {
    TrimEmptyIsWhite(p.id);
    var i := IndexOf(ps, Trim(p.id));
    assert i == k;
  }

  /** What Upsert keeps: ids and, ignoring case, names are unique and not blank. */
  predicate Unique(ps: seq<Profile>, lower: char -> char) {
    && (forall i | 0 <= i < |ps| :: ps[i].id != "" && Key(ps[i].name, lower) != "")
    && (forall i, j | 0 <= i < j < |ps| :: Differ(ps[i], ps[j], lower))
  }

  class ProviderStore {
    var profiles: seq<Profile>
    const lower: char -> char

    constructor (profiles: seq<Profile>, lower: char -> char)
      ensures this.profiles == profiles && this.lower == lower
    {
      this.profiles, this.lower := profiles, lower;
    }

    method HasProfileName(name: string, exceptId: string) returns (taken: bool)
      ensures taken <==> NameTaken(profiles, name, exceptId, lower)
    {
      var key := Key(name, lower);
      if key == "" {
        return false;
      }
      for i := 0 to |profiles|
        invariant forall k :: 0 <= k < i ==>
          !((exceptId == "" || profiles[k].id != exceptId) && Key(profiles[k].name, lower) == key)
      {
        if exceptId != "" && profiles[i].id == exceptId { continue; }
        if Key(profiles[i].name, lower) == key {
          return true;
        }
      }
      return false;
    }

    /** `freshId` is the id drawn for a new profile. */
    method Upsert(profile: Profile, freshId: string, now: int) returns (r: Result<Profile, Error>)
      modifies this
      ensures match UpsertError(old(profiles), profile, lower)
        case Some(why) => r == Err(why) && profiles == old(profiles)
        case None =>
          && r == Ok(Saved(old(profiles), profile, freshId, now))
          && profiles == AfterUpsert(old(profiles), profile, freshId, now)
    {
      var p := Normalized(profile);
      if p.name == "" {
        return Err(NameRequired);
      }
      var taken := HasProfileName(p.name, p.id);
      if taken {
        return Err(NameExists);
      }
      if p.id == "" {
        p := p.(id := freshId, createdAt := now, updatedAt := now);
        profiles := profiles + [p];
        return Ok(p);
      }
      for i := 0 to |profiles|
        invariant profiles == old(profiles) && forall k :: 0 <= k < i ==> profiles[k].id != p.id
      {
        if profiles[i].id == p.id {
          p := p.(createdAt := profiles[i].createdAt, updatedAt := now);
          profiles := profiles[i := p];
          return Ok(p);
        }
      }
      p := p.(createdAt := now, updatedAt := now);
      profiles := profiles + [p];
      return Ok(p);
    }
  }

  lemma PutKeepsUnique(ps: seq<Profile>, n: nat, p: Profile, lower: char -> char)
    requires Unique(ps, lower) && n <= |ps| && p.id != "" && Key(p.name, lower) != ""
    requires forall k :: 0 <= k < |ps| && k != n ==> Differ(ps[k], p, lower)
    ensures Unique(if n < |ps| then ps[n := p] else ps + [p], lower)
  {
    var after := if n < |ps| then ps[n := p] else ps + [p];
    forall i | 0 <= i < |after| ensures after[i].id != "" && Key(after[i].name, lower) != "" {
      if i != n { assert after[i] == ps[i]; }
    }
    forall i, j | 0 <= i < j < |after| ensures Differ(after[i], after[j], lower) {
      if i != n { assert after[i] == ps[i]; }
      if j != n { assert after[j] == ps[j]; }
    }
  }

  predicate Differ(p: Profile, q: Profile, lower: char -> char) {
    p.id != q.id && Key(p.name, lower) != Key(q.name, lower)
  }

  lemma SavedKeepsName(ps: seq<Profile>, p: Profile, freshId: string, now: int, lower: char -> char)
    ensures Key(Saved(ps, p, freshId, now).name, lower) == Key(p.name, lower)
    ensures Saved(ps, p, freshId, now).id == if Trim(p.id) == "" then freshId else Trim(p.id)
  {
    TrimIsTrimmed(p.name);
  }

  lemma NotTaken(ps: seq<Profile>, p: Profile, lower: char -> char, k: nat)
    requires UpsertError(ps, p, lower).None? && Key(p.name, lower) != "" && k < |ps|
    requires Trim(p.id) == "" || ps[k].id != Trim(p.id)
    ensures Key(ps[k].name, lower) != Key(p.name, lower)
  {
    TrimIsTrimmed(p.name);
  }

  /** A successful Upsert keeps ids and names unique. */
  lemma UpsertKeepsUnique(ps: seq<Profile>, p: Profile, freshId: string, now: int, lower: char -> char)
    requires Unique(ps, lower) && UpsertError(ps, p, lower).None? && Key(p.name, lower) != ""
    requires freshId != "" && forall i :: 0 <= i < |ps| ==> ps[i].id != freshId
    ensures Unique(AfterUpsert(ps, p, freshId, now), lower)
  {
    var saved := Saved(ps, p, freshId, now);
    var i := if Trim(p.id) == "" then |ps| else IndexOf(ps, Trim(p.id));
    SavedKeepsName(ps, p, freshId, now, lower);
    forall k | 0 <= k < |ps| && k != i ensures Differ(ps[k], saved, lower) {
      if i < |ps| { assert Differ(ps[if k < i then k else i], ps[if k < i then i else k], lower); }
      NotTaken(ps, p, lower, k);
    }
    PutKeepsUnique(ps, i, saved, lower);
  }

  // --------------------------------------------------------------- the import

  /** The names taken, by key. */
  function KeysOf(ps: seq<Profile>, lower: char -> char): set<string> {
    if ps == [] then {} else
      KeysOf(ps[..|ps| - 1], lower)
      + (if Key(ps[|ps| - 1].name, lower) == "" then {} else {Key(ps[|ps| - 1].name, lower)})
  }

  lemma {:induction false} KeyOfMember(ps: seq<Profile>, lower: char -> char, i: nat)
    requires i < |ps| && Key(ps[i].name, lower) != ""
    ensures Key(ps[i].name, lower) in KeysOf(ps, lower)
  {
    if i < |ps| - 1 { KeyOfMember(ps[..|ps| - 1], lower, i); }
  }

  method UsedNames(ps: seq<Profile>, lower: char -> char) returns (used: set<string>)
    ensures used == KeysOf(ps, lower)
  {
    used := {};
    for i := 0 to |ps|
      invariant used == KeysOf(ps[..i], lower)
    {
      assert ps[..i + 1][..i] == ps[..i];
      var k := Key(ps[i].name, lower);
      if k != "" {
        used := used + {k};
      }
    }
    assert ps[..|ps|] == ps;
  }

  /** A profile is imported under the first free name, with a fresh id. */
  ghost predicate ImportedAs(before: seq<Profile>, source: Profile, saved: Profile, freshId: string, now: int,
                             lower: char -> char) {
    exists i: nat :: i <= |KeysOf(before, lower)| && FirstFree(source.name, KeysOf(before, lower), lower, i)
      && saved == Profile(freshId, Attempt(source.name, i), source.targets, now, now)
  }

  lemma FreeNameIsNotTaken(ps: seq<Profile>, name: string, lower: char -> char)
    requires Key(name, lower) !in KeysOf(ps, lower)
    ensures !NameTaken(ps, name, "", lower)
  {
    forall i | 0 <= i < |ps| && Key(ps[i].name, lower) != "" ensures Key(ps[i].name, lower) != Key(name, lower) {
      KeyOfMember(ps, lower, i);
    }
  }

  /** A free name is accepted, and then the only further one taken. */
  lemma FreeNameIsAccepted(ps: seq<Profile>, p: Profile, freshId: string, now: int, lower: char -> char)
    requires p.id == "" && p.name == Trim(p.name) != "" && Key(p.name, lower) !in KeysOf(ps, lower)
    ensures UpsertError(ps, p, lower).None?
    ensures var saved := p.(id := freshId, createdAt := now, updatedAt := now);
      && Saved(ps, p, freshId, now) == saved && AfterUpsert(ps, p, freshId, now) == ps + [saved]
      && KeysOf(ps + [saved], lower) == KeysOf(ps, lower) + {Key(p.name, lower)}
  {
    FreeNameIsNotTaken(ps, p.name, lower);
    TrimIsTrimmed("");
    var saved := p.(id := freshId, createdAt := now, updatedAt := now);
    assert (ps + [saved])[..|ps|] == ps;
  }

  /** The loop body. `used` holds the names taken. */
  method ImportOne(store: ProviderStore, profile: Profile, used: set<string>, freshId: string, now: int)
    returns (r: Result<Profile, Error>, used': set<string>)
    requires FixesSuffixes(store.lower) && used == KeysOf(store.profiles, store.lower)
    modifies store
    ensures r.Ok? && store.profiles == old(store.profiles) + [r.value] && used' == KeysOf(store.profiles, store.lower)
    ensures ImportedAs(old(store.profiles), profile, r.value, freshId, now, store.lower)
  {
    ghost var i;
    var name;
    name, used', i := NextImportedProviderName(profile.name, used, store.lower);
    var p := profile.(id := "", name := name);
    AttemptIsTrimmed(profile.name, i);
    FreeNameIsAccepted(store.profiles, p, freshId, now, store.lower);
    r := store.Upsert(p, freshId, now);
  }

  /** Imports a batch; `freshIds` are the ids drawn for it. No profile is rejected. */
  method Import(store: ProviderStore, batch: seq<Profile>, freshIds: nat -> string, now: int)
    returns (r: Result<seq<Profile>, Error>)
    requires FixesSuffixes(store.lower)
    modifies store
    ensures r.Err? <==> batch == []
    ensures r.Err? ==> r.error == ProfilesRequired && store.profiles == old(store.profiles)
    ensures r.Ok? ==>
      && |r.value| == |batch| && store.profiles == old(store.profiles) + r.value
      && ImportedAll(old(store.profiles), batch, r.value, freshIds, now, store.lower)
  {
    if |batch| == 0 {
      return Err(ProfilesRequired);
    }
    r := ImportAll(store, batch, freshIds, now);
  }

  method ImportAll(store: ProviderStore, batch: seq<Profile>, freshIds: nat -> string, now: int)
    returns (r: Result<seq<Profile>, Error>)
    requires FixesSuffixes(store.lower)
    modifies store
    ensures r.Ok? && |r.value| == |batch| && store.profiles == old(store.profiles) + r.value
    ensures ImportedAll(old(store.profiles), batch, r.value, freshIds, now, store.lower)
  {
    var used := UsedNames(store.profiles, store.lower);
    var imported: seq<Profile> := [];
    ghost var before := store.profiles;
    var i := 0;
    while i < |batch|
      invariant |imported| == i <= |batch| && store.profiles == before + imported
      invariant used == KeysOf(store.profiles, store.lower)
      invariant ImportedAll(before, batch, imported, freshIds, now, store.lower)
    {
      var saved;
      saved, used := ImportOne(store, batch[i], used, freshIds(i), now);
      match saved {
        case Err(why) => return Err(why);
        case Ok(p) =>
          ImportedMore(before, batch, imported, freshIds, now, store.lower, p);
          imported := imported + [p];
      }
      i := i + 1;
    }
    r := Ok(imported);
  }

  ghost predicate ImportedAll(before: seq<Profile>, batch: seq<Profile>, imported: seq<Profile>,
                              freshIds: nat -> string,
                              now: int, lower: char -> char) {
    |imported| <= |batch| && forall i: nat :: i < |imported| ==>
      ImportedAs(before + imported[..i], batch[i], imported[i], freshIds(i), now, lower)
  }

  lemma ImportedMore(before: seq<Profile>, batch: seq<Profile>, imported: seq<Profile>, freshIds: nat -> string,
                     now: int, lower: char -> char, p: Profile)
    requires ImportedAll(before, batch, imported, freshIds, now, lower) && |imported| < |batch|
    requires ImportedAs(before + imported, batch[|imported|], p, freshIds(|imported|), now, lower)
    ensures ImportedAll(before, batch, imported + [p], freshIds, now, lower)
    ensures before + imported + [p] == before + (imported + [p])
  {
    var more := imported + [p];
    forall i: nat | i < |more| ensures ImportedAs(before + more[..i], batch[i], more[i], freshIds(i), now, lower) {
      if i < |imported| {
        Earlier(imported, p, i);
      } else {
        assert more[..i] == imported && more[i] == p;
      }
    }
  }

  lemma Earlier(imported: seq<Profile>, p: Profile, i: nat)
    requires i < |imported|
    ensures (imported + [p])[..i] == imported[..i] && (imported + [p])[i] == imported[i]
  {
  }

  lemma ImportedNameIsNew(taken: seq<Profile>, source: Profile, saved: Profile, freshId: string, now: int,
                          lower: char -> char, m: nat)
    requires ImportedAs(taken, source, saved, freshId, now, lower) && m < |taken|
    ensures Key(taken[m].name, lower) != Key(saved.name, lower)
  {
    var k: nat :| FirstFree(source.name, KeysOf(taken, lower), lower, k) && saved.name == Attempt(source.name, k);
    AttemptIsTrimmed(source.name, k);
    if Key(taken[m].name, lower) != "" { KeyOfMember(taken, lower, m); }
  }

  /** The names chosen for a batch differ, ignoring case, from all stored before and from
      each other. */
  lemma ImportedNamesAreNew(before: seq<Profile>, batch: seq<Profile>, imported: seq<Profile>, freshIds: nat -> string,
                            now: int, lower: char -> char, i: nat, m: nat)
    requires ImportedAll(before, batch, imported, freshIds, now, lower) && i < |imported| && m < |before| + i
    ensures Key((before + imported)[m].name, lower) != Key(imported[i].name, lower)
  {
    var taken := before + imported[..i];
    assert taken[m] == (before + imported)[m];
    ImportedNameIsNew(taken, batch[i], imported[i], freshIds(i), now, lower, m);
  }
}
