/** Shared vocabulary of the model: optional values, the byte range and the
    few string operations the JavaScript and Python sources lean on
    (lower-casing, substring search, whitespace trimming, decimal text). */
module Common {

  /** `null`/`undefined` in TypeScript and `None` in Python. */
  datatype Option<+T> = None | Some(value: T)

  /** An unsigned byte, as stored in a `Uint8Array`. */
  newtype byte = x: int | 0 <= x < 256

  function Min(a: int, b: int): (r: int)
    ensures r <= a && r <= b && (r == a || r == b)
  {
    if a <= b then a else b
  }

  function Max(a: int, b: int): (r: int)
    ensures r >= a && r >= b && (r == a || r == b)
  {
    if a >= b then a else b
  }

  /** The first `n` elements, or all of them when there are fewer
      (`slice(0, n)` in TypeScript, `[:n]` in Python). */
  function Take<T>(xs: seq<T>, n: nat): (r: seq<T>)
    ensures |r| == Min(n, |xs|) && r == xs[..|r|]
  {
    xs[..Min(n, |xs|)]
  }

  // ---------------------------------------------------------------------
  // Characters and case

  predicate IsUpperAscii(c: char) { 'A' <= c <= 'Z' }

  /** Lower-casing restricted to ASCII letters; every other character is
      left alone. */
  function LowerChar(c: char): (r: char)
    ensures IsUpperAscii(c) ==> r as int == c as int + 32
    ensures !IsUpperAscii(c) ==> r == c
    ensures !IsUpperAscii(r)
  {
    if IsUpperAscii(c) then (c as int + 32) as char else c
  }

  function Lower(s: string): (r: string)
    ensures |r| == |s|
    ensures forall i :: 0 <= i < |s| ==> r[i] == LowerChar(s[i])
  {
    if |s| == 0 then [] else [LowerChar(s[0])] + Lower(s[1..])
  }

  // ---------------------------------------------------------------------
  // Substrings

  /** Lower-casing character by character gives `t`. */
  lemma LowerMatches(s: string, t: string)
    requires |s| == |t| && forall i :: 0 <= i < |s| ==> LowerChar(s[i]) == t[i]
    ensures Lower(s) == t
  {
  }

  /** `pat` occurs in `s` starting at position `p`. */
  predicate OccursAt(s: string, pat: string, p: int)
  {
    0 <= p && p + |pat| <= |s| && s[p..p + |pat|] == pat
  }

  /** `s.includes(pat)` / `pat in s`. */
  predicate Contains(s: string, pat: string)
  {
    exists p :: 0 <= p <= |s| - |pat| && OccursAt(s, pat, p)
  }

  /** Position of the first occurrence of `pat` in `s` at or after `from`. */
  function IndexOfFrom(s: string, pat: string, from: nat): (r: Option<nat>)
    decreases |s| - from
    ensures r.Some? ==> from <= r.value && OccursAt(s, pat, r.value)
    ensures r.Some? ==> forall q :: from <= q < r.value ==> !OccursAt(s, pat, q)
    ensures r.None? ==> forall q :: from <= q ==> !OccursAt(s, pat, q)
  {
    if from + |pat| > |s| then None
    else if s[from..from + |pat|] == pat then Some(from)
    else IndexOfFrom(s, pat, from + 1)
  }

  lemma ContainsIffIndexOf(s: string, pat: string)
    ensures Contains(s, pat) <==> IndexOfFrom(s, pat, 0).Some?
  {
    var r := IndexOfFrom(s, pat, 0);
    if r.Some? {
      assert 0 <= r.value <= |s| - |pat| && OccursAt(s, pat, r.value);
    }
  }

  // ---------------------------------------------------------------------
  // Whitespace and trimming (ECMAScript WhiteSpace and LineTerminator)

  predicate IsJsWhitespace(c: char)
  {
    c == '\t' || c == '\n' || c == '\U{000B}' || c == '\U{000C}' || c == '\r' || c == ' '
    || c == '\U{00A0}' || c == '\U{1680}' || ('\U{2000}' <= c <= '\U{200A}')
    || c == '\U{2028}' || c == '\U{2029}' || c == '\U{202F}' || c == '\U{205F}'
    || c == '\U{3000}' || c == '\U{FEFF}'
  }

  predicate AllWhitespace(s: string)
  {
    forall i :: 0 <= i < |s| ==> IsJsWhitespace(s[i])
  }

  function TrimStart(s: string): (r: string)
    ensures |r| <= |s| && r == s[|s| - |r|..]
    ensures AllWhitespace(s[..|s| - |r|])
    ensures |r| > 0 ==> !IsJsWhitespace(r[0])
  {
    if |s| > 0 && IsJsWhitespace(s[0]) then TrimStart(s[1..]) else s
  }

  function TrimEnd(s: string): (r: string)
    ensures |r| <= |s| && r == s[..|r|]
    ensures AllWhitespace(s[|r|..])
    ensures |r| > 0 ==> !IsJsWhitespace(r[|r| - 1])
  {
    if |s| > 0 && IsJsWhitespace(s[|s| - 1]) then TrimEnd(s[..|s| - 1]) else s
  }

  /** `String.prototype.trim`: the longest slice without leading or trailing
      whitespace, obtained by dropping only whitespace. */
  function Trim(s: string): (r: string)
    ensures exists i, j :: (0 <= i <= j <= |s| && r == s[i..j]
                            && AllWhitespace(s[..i]) && AllWhitespace(s[j..]))
    ensures |r| > 0 ==> !IsJsWhitespace(r[0]) && !IsJsWhitespace(r[|r| - 1])
  {
    var a := TrimStart(s);
    var r := TrimEnd(a);
    TrimWitness(s, a, r, |s| - |a|);
    r
  }

  /** `Trim`'s contract from the two halves' contracts. */
  lemma TrimWitness(s: string, a: string, r: string, i: nat)
    requires i <= |s| && a == s[i..] && AllWhitespace(s[..i])
    requires |a| > 0 ==> !IsJsWhitespace(a[0])
    requires |r| <= |a| && r == a[..|r|] && AllWhitespace(a[|r|..])
    requires |r| > 0 ==> !IsJsWhitespace(r[|r| - 1])
    ensures exists i, j :: (0 <= i <= j <= |s| && r == s[i..j]
                            && AllWhitespace(s[..i]) && AllWhitespace(s[j..]))
    ensures |r| > 0 ==> !IsJsWhitespace(r[0]) && !IsJsWhitespace(r[|r| - 1])
  {
    SliceOfSuffix(s, i, |r|);
    SuffixOfSuffix(s, i, |r|);
    assert 0 <= i <= i + |r| <= |s| && r == s[i..i + |r|]
      && AllWhitespace(s[..i]) && AllWhitespace(s[i + |r|..]);
    if |r| > 0 {
      assert r[0] == a[0];
    }
  }

  lemma SliceOfSuffix(s: string, i: nat, n: nat)
    requires i + n <= |s|
    ensures s[i..][..n] == s[i..i + n]
  {
  }

  lemma SuffixOfSuffix(s: string, i: nat, n: nat)
    requires i + n <= |s|
    ensures s[i..][n..] == s[i + n..]
  {
  }

  /** A string trims to "" exactly when it is all whitespace. */
  lemma TrimEmptyIffBlank(s: string)
    ensures Trim(s) == "" <==> AllWhitespace(s)
  {
    var a := TrimStart(s);
    var r := TrimEnd(a);
    var i := |s| - |a|;
    assert Trim(s) == r;
    if r == "" {
      assert a[|r|..] == a;
      assert s == s[..i] + a;
      BlankJoin(s[..i], a);
    } else {
      assert r[0] == a[0] == s[i];
    }
  }

  lemma BlankJoin(x: string, y: string)
    requires AllWhitespace(x) && AllWhitespace(y)
    ensures AllWhitespace(x + y)
  {
    forall k | 0 <= k < |x + y| ensures IsJsWhitespace((x + y)[k]) {
      if k < |x| { assert (x + y)[k] == x[k]; } else { assert (x + y)[k] == y[k - |x|]; }
    }
  }

  // ---------------------------------------------------------------------
  // Decimal text

  predicate IsDigit(c: char) { '0' <= c <= '9' }

  function DigitChar(d: nat): (c: char)
    requires d < 10
    ensures IsDigit(c) && c as int - '0' as int == d
  {
    ('0' as int + d) as char
  }

  /** Shortest decimal rendering of a natural number, as `String(n)` gives. */
  function NatToString(n: nat): (r: string)
    ensures |r| > 0
    ensures forall i :: 0 <= i < |r| ==> IsDigit(r[i])
    ensures |r| > 1 ==> r[0] != '0'
  {
    if n < 10 then [DigitChar(n)] else NatToString(n / 10) + [DigitChar(n % 10)]
  }

  /** Reads a string of decimal digits back as a number. */
  function ParseDecimal(s: string): nat
  {
    if |s| == 0 then 0
    else
      var d := s[|s| - 1] as int - '0' as int;
      ParseDecimal(s[..|s| - 1]) * 10 + (if 0 <= d < 10 then d else 0)
  }

  lemma {:induction false} ParseNatToString(n: nat)
    ensures ParseDecimal(NatToString(n)) == n
  {
    if n >= 10 {
      var s := NatToString(n / 10) + [DigitChar(n % 10)];
      assert s[..|s| - 1] == NatToString(n / 10);
      ParseNatToString(n / 10);
    }
  }

  /** Signed decimal rendering of an integer. */
  function IntToString(i: int): (r: string)
    ensures |r| > 0
  {
    if i < 0 then "-" + NatToString(-i) else NatToString(i)
  }
}
