/** Strings as the Go program sees them: white-space trimming and byte order.
    A `string` is a sequence of Unicode scalar values; comparing scalar values
    position by position orders strings as their UTF-8 bytes do. */
module Text {

  /** Go's unicode.IsSpace. */
  predicate IsSpace(c: char) {
    || c == ' ' || '\U{0009}' <= c <= '\U{000D}'
    || c == '\U{0085}' || c == '\U{00A0}' || c == '\U{1680}'
    || '\U{2000}' <= c <= '\U{200A}'
    || c == '\U{2028}' || c == '\U{2029}' || c == '\U{202F}' || c == '\U{205F}' || c == '\U{3000}'
  }

  function TrimLeft(s: string): string {
    if s != [] && IsSpace(s[0]) then TrimLeft(s[1..]) else s
  }

  function TrimRight(s: string): string {
    if s != [] && IsSpace(s[|s| - 1]) then TrimRight(s[..|s| - 1]) else s
  }

  /** strings.TrimSpace */
  function Trim(s: string): string {
    TrimRight(TrimLeft(s))
  }

  /** No white space at either end. */
  predicate Trimmed(s: string) {
    s == [] || (!IsSpace(s[0]) && !IsSpace(s[|s| - 1]))
  }

  lemma {:induction false} TrimRightPrefix(s: string)
    ensures TrimRight(s) <= s
    ensures TrimRight(s) == [] || !IsSpace(TrimRight(s)[|TrimRight(s)| - 1])
  {
    if s != [] && IsSpace(s[|s| - 1]) {
      TrimRightPrefix(s[..|s| - 1]);
    }
  }

  lemma {:induction false} TrimLeftHead(s: string)
    ensures TrimLeft(s) == [] || !IsSpace(TrimLeft(s)[0])
    ensures |TrimLeft(s)| <= |s|
  {
    if s != [] && IsSpace(s[0]) {
      TrimLeftHead(s[1..]);
    }
  }

  /** Trimming yields a trimmed string, and leaves a trimmed string alone. */
  lemma {:induction false} TrimIsTrimmed(s: string)
    ensures Trimmed(Trim(s))
    ensures Trimmed(s) ==> Trim(s) == s
    ensures |Trim(s)| <= |s|
  {
    TrimLeftHead(s);
    TrimRightPrefix(TrimLeft(s));
  }

  predicate White(s: string) {
    forall c | c in s :: IsSpace(c)
  }

  /** Trimming takes off white space at both ends, and nothing else. */
  lemma TrimTakesWhite(s: string) returns (front: string, back: string)
    ensures s == front + Trim(s) + back && White(front) && White(back) && Trimmed(Trim(s))
  {
    front := LeftWhite(s);
    back := RightWhite(TrimLeft(s));
    assert front + (Trim(s) + back) == front + Trim(s) + back;
    TrimIsTrimmed(s);
  }

  lemma {:induction false} LeftWhite(s: string) returns (front: string)
    ensures s == front + TrimLeft(s) && White(front)
  {
    front := "";
    if s != [] && IsSpace(s[0]) {
      var rest := LeftWhite(s[1..]);
      front := [s[0]] + rest;
      assert s == [s[0]] + s[1..];
    }
  }

  lemma {:induction false} RightWhite(s: string) returns (back: string)
    ensures s == TrimRight(s) + back && White(back)
  {
    back := "";
    if s != [] && IsSpace(s[|s| - 1]) {
      var rest := RightWhite(s[..|s| - 1]);
      back := rest + [s[|s| - 1]];
      assert s == s[..|s| - 1] + [s[|s| - 1]];
    }
  }

  lemma {:induction false} TrimLeftWhite(w: string, s: string)
    requires White(w)
    ensures TrimLeft(w + s) == TrimLeft(s)
  {
    if w == "" {
      assert w + s == s;
    } else {
      assert (w + s)[1..] == w[1..] + s;
      TrimLeftWhite(w[1..], s);
    }
  }

  lemma {:induction false} TrimEmptyIsWhite(s: string)
    ensures Trim(s) == "" <==> White(s)
  {
    TrimLeftHead(s);
    TrimRightPrefix(TrimLeft(s));
    LeftEmptyIsWhite(s);
    if TrimLeft(s) != "" { RightKeepsHead(TrimLeft(s)); }
  }

  lemma {:induction false} RightKeepsHead(s: string)
    requires s != "" && !IsSpace(s[0])
    ensures TrimRight(s) != ""
  {
    if IsSpace(s[|s| - 1]) { RightKeepsHead(s[..|s| - 1]); }
  }

  lemma {:induction false} LeftEmptyIsWhite(s: string)
    ensures TrimLeft(s) == "" <==> White(s)
  {
    if s != "" {
      LeftEmptyIsWhite(s[1..]);
      assert s[0] in s && forall c :: c in s <==> c == s[0] || c in s[1..];
    }
  }

  lemma {:induction false} TrimLeftKeeps(x: string, y: string)
    requires !White(x)
    ensures TrimLeft(x + y) == TrimLeft(x) + y
  {
    assert (x + y)[0] == x[0];
    if IsSpace(x[0]) {
      assert (x + y)[1..] == x[1..] + y;
      assert !White(x[1..]) by { var c :| c in x && !IsSpace(c); assert c in x[1..]; }
      TrimLeftKeeps(x[1..], y);
    }
  }

  /** Trimming the left end leaves the right end as it is. */
  lemma {:induction false} TrimLeftIsSuffix(s: string)
    ensures TrimLeft(s) != "" ==> TrimLeft(s)[|TrimLeft(s)| - 1] == s[|s| - 1]
  {
    if s != "" && IsSpace(s[0]) { TrimLeftIsSuffix(s[1..]); }
  }

  lemma {:induction false} TrimRightKeeps(x: string, y: string)
    requires x != "" && !IsSpace(x[|x| - 1])
    ensures TrimRight(x + y) == x + TrimRight(y)
  {
    if y == "" {
      assert x + y == x;
    } else if IsSpace(y[|y| - 1]) {
      assert (x + y)[..|x + y| - 1] == x + y[..|y| - 1];
      TrimRightKeeps(x, y[..|y| - 1]);
    }
  }

  /** Byte order on strings: s < t in Go. */
  predicate Less(s: string, t: string) {
    t != [] && (s == [] || s[0] < t[0] || (s[0] == t[0] && Less(s[1..], t[1..])))
  }

  predicate LessEq(s: string, t: string) {
    s == t || Less(s, t)
  }

  lemma {:induction false} LessIrreflexive(s: string)
    ensures !Less(s, s)
  {
    if s != [] {
      LessIrreflexive(s[1..]);
    }
  }

  lemma {:induction false} LessTransitive(s: string, t: string, u: string)
    requires Less(s, t) && Less(t, u)
    ensures Less(s, u)
  {
    if s != [] && s[0] == t[0] == u[0] {
      LessTransitive(s[1..], t[1..], u[1..]);
    }
  }

  lemma {:induction false} LessTotal(s: string, t: string)
    ensures s == t || Less(s, t) || Less(t, s)
  {
    if s != [] && t != [] && s[0] == t[0] {
      LessTotal(s[1..], t[1..]);
      assert s == [s[0]] + s[1..] && t == [t[0]] + t[1..];
    }
  }

  /** The first character in which two strings differ decides, and a proper prefix comes
      first. */
  lemma {:induction false} LessIff(s: string, t: string)
    ensures Less(s, t) <==> exists i: nat :: DiffersFirstAt(s, t, i)
  {
    if s != [] && t != [] && s[0] == t[0] {
      LessIff(s[1..], t[1..]);
      if Less(s, t) {
        var i: nat :| DiffersFirstAt(s[1..], t[1..], i);
        assert forall k :: 0 <= k < i + 1 ==> s[k] == (if k == 0 then s[0] else s[1..][k - 1]);
        assert forall k :: 0 <= k < i + 1 ==> t[k] == (if k == 0 then t[0] else t[1..][k - 1]);
        assert DiffersFirstAt(s, t, i + 1);
      }
      if i: nat :| DiffersFirstAt(s, t, i) {
        assert forall k :: 0 <= k < i - 1 ==> s[1..][k] == s[k + 1] && t[1..][k] == t[k + 1];
        assert DiffersFirstAt(s[1..], t[1..], i - 1);
      }
    } else {
      if Less(s, t) { assert DiffersFirstAt(s, t, 0); }
    }
  }

  /** They agree up to `i`, where `s` has ended or has the smaller character. */
  predicate DiffersFirstAt(s: string, t: string, i: nat) {
    && i < |t| && i <= |s| && (forall k | 0 <= k < i :: s[k] == t[k])
    && (i == |s| || s[i] < t[i])
  }

  /** Less is a strict total order: at most one of the two directions holds. */
  lemma LessAsymmetric(s: string, t: string)
    requires Less(s, t)
    ensures !Less(t, s)
  {
    if Less(t, s) {
      LessTransitive(s, t, s);
      LessIrreflexive(s);
    }
  }

  lemma LessEqIsTotalOrder()
    ensures forall s, t :: LessEq(s, t) || LessEq(t, s)
    ensures forall s, t, u :: LessEq(s, t) && LessEq(t, u) ==> LessEq(s, u)
    ensures forall s, t :: LessEq(s, t) && LessEq(t, s) ==> s == t
  {
    forall s, t ensures LessEq(s, t) || LessEq(t, s) { LessTotal(s, t); }
    forall s, t, u | LessEq(s, t) && LessEq(t, u) ensures LessEq(s, u) {
      if s != t && t != u { LessTransitive(s, t, u); }
    }
    forall s, t | LessEq(s, t) && LessEq(t, s) ensures s == t {
      if s != t { LessAsymmetric(s, t); }
    }
  }
}
