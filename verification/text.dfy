/** The handful of Python `str` operations the game applies to what the
    player types and to the prompts it renders: `strip()`, `lower()`,
    the substring test `p in s`, and `str()` of a non-negative integer. */
module Text {

  /** Python's `str.isspace()` for one character: TAB..CR, FS..US, the space,
      NEL, NBSP and the Unicode space separators. */
  predicate IsSpace(c: char) {
    var n := c as int;
    || n == 0x20 || 0x09 <= n <= 0x0D || 0x1C <= n <= 0x1F
    || n == 0x85 || n == 0xA0 || n == 0x1680 || 0x2000 <= n <= 0x200A
    || n == 0x2028 || n == 0x2029 || n == 0x202F || n == 0x205F || n == 0x3000
  }

  predicate IsUpper(c: char) { 'A' <= c <= 'Z' }

  predicate IsDigit(c: char) { '0' <= c <= '9' }

  predicate AllSpace(s: string) {
    forall i :: 0 <= i < |s| ==> IsSpace(s[i])
  }

  /** Lower-cases one ASCII letter and leaves every other character alone. */
  function LowerChar(c: char): (d: char)
    ensures !IsUpper(d)
  {
    if IsUpper(c) then (c as int + 32) as char else c
  }

  /** Python's `str.lower()`, restricted to ASCII case mapping. */
  function Lower(s: string): (r: string)
    ensures |r| == |s|
    ensures forall i :: 0 <= i < |s| ==> r[i] == LowerChar(s[i])
    ensures forall i :: 0 <= i < |r| ==> !IsUpper(r[i])
  {
    seq(|s|, i requires 0 <= i < |s| => LowerChar(s[i]))
  }

  lemma LowerIdempotent(s: string)
    ensures Lower(Lower(s)) == Lower(s)
  {
  }

  /** Lower-casing works character by character, so it distributes over
      concatenation. */
  lemma LowerConcat(a: string, b: string)
    ensures Lower(a + b) == Lower(a) + Lower(b)
  {
    assert forall i :: 0 <= i < |a + b| ==> Lower(a + b)[i] == (Lower(a) + Lower(b))[i];
  }

  /** Python's `str.lstrip()`: the longest suffix not starting with whitespace. */
  function TrimStart(s: string): (r: string)
    ensures |r| <= |s| && r == s[|s| - |r|..]
    ensures AllSpace(s[..|s| - |r|])
    ensures r == [] || !IsSpace(r[0])
  {
    if s != [] && IsSpace(s[0]) then TrimStart(s[1..]) else s
  }

  /** Python's `str.rstrip()`: the longest prefix not ending with whitespace. */
  function TrimEnd(s: string): (r: string)
    ensures |r| <= |s| && r == s[..|r|]
    ensures AllSpace(s[|r|..])
    ensures r == [] || !IsSpace(r[|r| - 1])
  {
    if s != [] && IsSpace(s[|s| - 1]) then
      var r := TrimEnd(s[..|s| - 1]);
      assert s[|r|..] == s[..|s| - 1][|r|..] + [s[|s| - 1]];
      r
    else s
  }

  /** `s` is `r` with some whitespace before it (the first `i` characters)
      and some whitespace after it. */
  predicate Surrounds(s: string, i: int, r: string) {
    && 0 <= i <= |s| - |r|
    && s[i..i + |r|] == r
    && AllSpace(s[..i])
    && AllSpace(s[i + |r|..])
  }

  /** Lower-casing keeps a padded word padded: whitespace has no case, so
      only the word itself changes. */
  lemma LowerSurrounds(s: string, i: int, w: string)
    requires Surrounds(s, i, w)
    ensures Surrounds(Lower(s), i, Lower(w))
  {
    var j := i + |w|;
    LowerSlice(s, 0, i);
    LowerSlice(s, i, j);
    LowerSlice(s, j, |s|);
    LowerKeepsSpace(s[..i]);
    LowerKeepsSpace(s[j..]);
    assert s[0..i] == s[..i] && s[j..|s|] == s[j..];
    assert Lower(s)[0..i] == Lower(s)[..i] && Lower(s)[j..|s|] == Lower(s)[j..];
  }

  /** Lower-casing a slice is slicing the lower-cased text. */
  lemma LowerSlice(s: string, a: int, b: int)
    requires 0 <= a <= b <= |s|
    ensures Lower(s)[a..b] == Lower(s[a..b])
  {
    assert forall k :: 0 <= k < b - a ==> Lower(s)[a..b][k] == LowerChar(s[a..b][k]);
  }

  /** Whitespace has no case. */
  lemma LowerKeepsSpace(t: string)
    requires AllSpace(t)
    ensures Lower(t) == t
  {
    assert forall k :: 0 <= k < |t| ==> Lower(t)[k] == t[k];
  }

  /** Python's `str.strip()`. */
  function Trim(s: string): (r: string)
    ensures r == [] || (!IsSpace(r[0]) && !IsSpace(r[|r| - 1]))
    ensures exists i :: Surrounds(s, i, r)
  {
    var t := TrimStart(s);
    var r := TrimEnd(t);
    StripBothEnds(s, t, r);
    r
  }

  /** Removing leading whitespace and then trailing whitespace leaves a
      middle part surrounded by whitespace. */
  lemma StripBothEnds(s: string, t: string, r: string)
    requires |t| <= |s| && t == s[|s| - |t|..] && AllSpace(s[..|s| - |t|])
    requires |r| <= |t| && r == t[..|r|] && AllSpace(t[|r|..])
    requires t == [] || !IsSpace(t[0])
    ensures Surrounds(s, |s| - |t|, r)
    ensures r == [] || !IsSpace(r[0])
  {
    assert r != [] ==> r[0] == t[0] by {
      if r != [] { assert t[..|r|][0] == t[0]; }
    }
    var i := |s| - |t|;
    assert s[i..i + |r|] == r by {
      assert s[i..][..|r|] == r;
    }
    assert s[i + |r|..] == t[|r|..];
  }

  /** Whitespace-only text, and only that, strips to the empty string. */
  lemma TrimEmpty(s: string)
    ensures AllSpace(s) <==> Trim(s) == []
  {
    var r := Trim(s);
    var i := TrimWitness(s);
    if r == [] {
      assert s[i + |r|..] == s[i..];
      AllSpaceSplit(s, i);
    } else {
      assert s[i] == r[0] by {
        assert s[i..i + |r|][0] == s[i];
      }
      assert !IsSpace(s[i]);
    }
  }

  /** Text is all whitespace exactly when both parts of any split of it are. */
  lemma AllSpaceSplit(s: string, i: int)
    requires 0 <= i <= |s|
    ensures AllSpace(s) <==> AllSpace(s[..i]) && AllSpace(s[i..])
  {
    if AllSpace(s[..i]) && AllSpace(s[i..]) {
      forall k | 0 <= k < |s|
        ensures IsSpace(s[k])
      {
        if k < i { assert s[..i][k] == s[k]; } else { assert s[i..][k - i] == s[k]; }
      }
    }
  }

  /** Text without surrounding whitespace strips to itself. */
  lemma TrimUnchanged(s: string)
    ensures s == [] || (!IsSpace(s[0]) && !IsSpace(s[|s| - 1])) ==> Trim(s) == s
  {
    var r := Trim(s);
    var i :| Surrounds(s, i, r);
    assert i > 0 ==> IsSpace(s[0]) by {
      if i > 0 {
        assert s[..i][0] == s[0];
      }
    }
    assert i + |r| < |s| ==> IsSpace(s[|s| - 1]) by {
      if i + |r| < |s| {
        assert s[i + |r|..][|s| - 1 - i - |r|] == s[|s| - 1];
      }
    }
  }

  /** `i` is the index of the first non-whitespace character (or `|s|`). */
  predicate LeadsWith(s: string, i: int) {
    && 0 <= i <= |s|
    && (forall k :: 0 <= k < i ==> IsSpace(s[k]))
    && (i < |s| ==> !IsSpace(s[i]))
  }

  /** `e` is one past the last non-whitespace character (or 0). */
  predicate TrailsFrom(s: string, e: int) {
    && 0 <= e <= |s|
    && (forall k :: e <= k < |s| ==> IsSpace(s[k]))
    && (e > 0 ==> !IsSpace(s[e - 1]))
  }

  lemma LeadsWithUnique(s: string, i: int, j: int)
    requires LeadsWith(s, i) && LeadsWith(s, j)
    ensures i == j
  {
  }

  lemma TrailsFromUnique(s: string, e: int, f: int)
    requires TrailsFrom(s, e) && TrailsFrom(s, f)
    ensures e == f
  {
  }

  lemma SurroundsBounds(s: string, i: int, w: string)
    requires Surrounds(s, i, w) && w != [] && !IsSpace(w[0]) && !IsSpace(w[|w| - 1])
    ensures LeadsWith(s, i) && TrailsFrom(s, i + |w|)
  {
    assert s[i] == w[0] && s[i + |w| - 1] == w[|w| - 1];
    assert forall k :: 0 <= k < i ==> s[..i][k] == s[k];
    assert forall k :: i + |w| <= k < |s| ==> s[i + |w|..][k - i - |w|] == s[k];
  }

  /** A non-empty text without surrounding whitespace is what `strip()`
      returns for any padding of it with whitespace. */
  lemma TrimOfSurrounded(s: string, i: int, w: string)
    requires Surrounds(s, i, w) && w != [] && !IsSpace(w[0]) && !IsSpace(w[|w| - 1])
    ensures Trim(s) == w
  {
    assert s[i] == w[0] by {
      assert s[i..i + |w|][0] == s[i];
    }
    var r := TrimNonEmpty(s, i);
    var j := TrimWitness(s);
    SurroundedUnique(s, i, w, j, r);
  }

  /** At most one word without surrounding whitespace is surrounded by
      whitespace in a given text. */
  lemma SurroundedUnique(s: string, i: int, w: string, j: int, r: string)
    requires Surrounds(s, i, w) && w != [] && !IsSpace(w[0]) && !IsSpace(w[|w| - 1])
    requires Surrounds(s, j, r) && r != [] && !IsSpace(r[0]) && !IsSpace(r[|r| - 1])
    ensures w == r
  {
    SurroundsBounds(s, i, w);
    SurroundsBounds(s, j, r);
    LeadsWithUnique(s, i, j);
    TrailsFromUnique(s, i + |w|, j + |r|);
  }

  /** Where the stripped text sits inside the original. */
  lemma TrimWitness(s: string) returns (j: int)
    ensures Surrounds(s, j, Trim(s))
  {
    j :| Surrounds(s, j, Trim(s));
  }

  /** Text with a non-whitespace character strips to something non-empty. */
  lemma TrimNonEmpty(s: string, i: int) returns (r: string)
    requires 0 <= i < |s| && !IsSpace(s[i])
    ensures r == Trim(s) && r != [] && !IsSpace(r[0]) && !IsSpace(r[|r| - 1])
  {
    TrimEmpty(s);
    r := Trim(s);
  }

  lemma TrimIdempotent(s: string)
    ensures Trim(Trim(s)) == Trim(s)
  {
    TrimUnchanged(Trim(s));
  }

  /** `p` occurs in `s` starting at index `i`. */
  predicate ContainsAt(s: string, p: string, i: nat) {
    i + |p| <= |s| && s[i..i + |p|] == p
  }

  /** Python's substring test `p in s`. */
  predicate Contains(s: string, p: string) {
    exists i: nat | i <= |s| :: ContainsAt(s, p, i)
  }

  /** A text that lacks one of the pattern's characters cannot contain it. */
  lemma MissingChar(s: string, p: string, k: nat)
    requires k < |p| && p[k] !in s
    ensures !Contains(s, p)
  {
  }

  /** An occurrence in either half is an occurrence in the concatenation. */
  lemma ContainsConcat(a: string, b: string, p: string)
    ensures Contains(a, p) ==> Contains(a + b, p)
    ensures Contains(b, p) ==> Contains(a + b, p)
  {
    if Contains(a, p) {
      var i: nat :| i <= |a| && ContainsAt(a, p, i);
      assert (a + b)[i..i + |p|] == a[i..i + |p|];
      assert ContainsAt(a + b, p, i);
    }
    if Contains(b, p) {
      var i: nat :| i <= |b| && ContainsAt(b, p, i);
      assert (a + b)[|a| + i..|a| + i + |p|] == b[i..i + |p|];
      assert ContainsAt(a + b, p, |a| + i);
    }
  }

  /** When a character on either side of the seam is not in `p`, no occurrence
      of `p` can straddle the seam, so it lies in one half. */
  lemma ContainsSplit(a: string, b: string, p: string)
    ensures Contains(a + b, p) && ((a != [] && a[|a| - 1] !in p) || (b != [] && b[0] !in p))
            ==> Contains(a, p) || Contains(b, p)
  {
    if Contains(a + b, p) {
      var i: nat :| i <= |a + b| && ContainsAt(a + b, p, i);
      if i + |p| <= |a| {
        assert a[i..i + |p|] == (a + b)[i..i + |p|];
        assert ContainsAt(a, p, i);
      } else if i >= |a| {
        assert b[i - |a|..i - |a| + |p|] == (a + b)[i..i + |p|];
        assert ContainsAt(b, p, i - |a|);
      } else {
        assert p[|a| - 1 - i] == (a + b)[|a| - 1] == a[|a| - 1];
        assert p[|a| - i] == (a + b)[|a|] == b[0];
      }
    }
  }

  function DigitChar(d: nat): (c: char)
    requires d < 10
    ensures IsDigit(c)
  {
    ('0' as int + d) as char
  }

  /** The number a string of decimal digits denotes. */
  function DecimalValue(s: string): nat
    requires forall i :: 0 <= i < |s| ==> IsDigit(s[i])
  {
    if s == [] then 0
    else
      assert IsDigit(s[|s| - 1]);
      10 * DecimalValue(s[..|s| - 1]) + (s[|s| - 1] as int - '0' as int)
  }

  /** Python's `str(n)` for a non-negative integer: decimal digits, no
      leading zero, denoting `n`. */
  function Decimal(n: nat): (r: string)
    ensures |r| >= 1
    ensures forall i :: 0 <= i < |r| ==> IsDigit(r[i])
    ensures r[0] == '0' ==> n == 0
    ensures DecimalValue(r) == n
  {
    if n < 10 then [DigitChar(n)]
    else
      var r := Decimal(n / 10) + [DigitChar(n % 10)];
      assert r[..|r| - 1] == Decimal(n / 10);
      r
  }
}
