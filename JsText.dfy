/**
 * The pieces of JavaScript's string semantics the controller relies on:
 * the white-space class shared by `\s` and `String.prototype.trim`,
 * ASCII case folding for `/i` patterns, searching, counting, decimal digits
 * and the global `parseInt`.
 */
module JsText {
  import opened Wrappers

  /** A character in JavaScript's WhiteSpace or LineTerminator sets; both `\s` and `trim` use exactly these. */
  predicate IsSpace(c: char) {
    c == '\t' || c == '\n' || c == '\U{000B}' || c == '\U{000C}' || c == '\r' || c == ' ' ||
    c == '\U{00A0}' || c == '\U{1680}' || ('\U{2000}' <= c <= '\U{200A}') ||
    c == '\U{2028}' || c == '\U{2029}' || c == '\U{202F}' || c == '\U{205F}' ||
    c == '\U{3000}' || c == '\U{FEFF}'
  }

  predicate IsDigit(c: char) { '0' <= c <= '9' }

  predicate IsHexDigit(c: char) { IsDigit(c) || 'a' <= c <= 'f' || 'A' <= c <= 'F' }

  predicate AllSpace(s: string) { forall k :: 0 <= k < |s| ==> IsSpace(s[k]) }

  /** No white space at either end. */
  predicate IsTrimmed(s: string) { s == [] || (!IsSpace(s[0]) && !IsSpace(s[|s| - 1])) }

  /** `t` is a contiguous piece of `s`. */
  ghost predicate IsSlice(t: string, s: string) {
    exists i, j :: 0 <= i <= j <= |s| && t == s[i..j]
  }

  lemma {:induction false} SliceOf(s: string, i: nat, j: nat)
    requires i <= j <= |s|
    ensures IsSlice(s[i..j], s)
  {
  }

  lemma {:induction false} SliceTrans(a: string, b: string, c: string)
    requires IsSlice(a, b) && IsSlice(b, c)
    ensures IsSlice(a, c)
  {
    var i, j :| 0 <= i <= j <= |c| && b == c[i..j];
    var k, l :| 0 <= k <= l <= |b| && a == b[k..l];
    assert forall x :: 0 <= x < |a| ==> a[x] == c[i + k + x];
    assert a == c[i + k..i + l];
  }

  /** The index just past the run of white space that starts at `i`. */
  function SkipSpaces(s: string, i: nat): (j: nat)
    requires i <= |s|
    ensures i <= j <= |s|
    ensures forall k :: i <= k < j ==> IsSpace(s[k])
    ensures j == |s| || !IsSpace(s[j])
    decreases |s| - i
  {
    if i < |s| && IsSpace(s[i]) then SkipSpaces(s, i + 1) else i
  }

  /** The start of the run of white space that ends at `j`, not going below `lo`. */
  function BackSpaces(s: string, lo: nat, j: nat): (i: nat)
    requires lo <= j <= |s|
    ensures lo <= i <= j
    ensures forall k :: i <= k < j ==> IsSpace(s[k])
    ensures i == lo || !IsSpace(s[i - 1])
    decreases j - lo
  {
    if lo < j && IsSpace(s[j - 1]) then BackSpaces(s, lo, j - 1) else j
  }

  /** `String.prototype.trim`: what is left once the white space at both ends is removed. */
  function Trim(s: string): (r: string)
    ensures IsTrimmed(r)
    ensures exists i, j :: 0 <= i <= j <= |s| && r == s[i..j] && AllSpace(s[..i]) && AllSpace(s[j..])
  {
    var i := SkipSpaces(s, 0);
    var j := BackSpaces(s, i, |s|);
    assert AllSpace(s[..i]) && AllSpace(s[j..]);
    s[i..j]
  }

  lemma {:induction false} TrimIsSlice(s: string)
    ensures IsSlice(Trim(s), s)
  {
  }

  lemma {:induction false} TrimOfTrimmed(s: string)
    requires IsTrimmed(s)
    ensures Trim(s) == s
  {
    if s != [] {
      assert SkipSpaces(s, 0) == 0;
      assert BackSpaces(s, 0, |s|) == |s|;
    }
  }

  /** ASCII-only lower-casing: a JavaScript `/i` pattern without the `u` flag folds no other letter onto ASCII. */
  function LowerAscii(c: char): (r: char)
    ensures ('A' <= c <= 'Z') ==> r as int == c as int + 32
    ensures !('A' <= c <= 'Z') ==> r == c
  {
    if 'A' <= c <= 'Z' then (c as int + 32) as char else c
  }

  /** `pat` (written in lower case) occurs at position `i` of `s`, ignoring ASCII case. */
  predicate MatchesCi(s: string, i: nat, pat: string) {
    i + |pat| <= |s| && forall k :: 0 <= k < |pat| ==> LowerAscii(s[i + k]) == pat[k]
  }

  /** `pat` occurs at position `i` of `s`. */
  predicate OccursAt(s: string, i: nat, pat: string) {
    i + |pat| <= |s| && s[i..i + |pat|] == pat
  }

  /** `indexOf`: the first position of `c`, or -1. */
  function IndexOf(s: string, c: char): (r: int)
    ensures -1 <= r < |s|
    ensures r == -1 <==> c !in s
    ensures r >= 0 ==> s[r] == c && c !in s[..r]
  {
    if s == [] then -1
    else if s[0] == c then 0
    else var k := IndexOf(s[1..], c); if k == -1 then -1 else k + 1
  }

  /** The first occurrence of `pat` at or after `from`. */
  function FindFrom(s: string, pat: string, from: nat): (r: Option<nat>)
    requires from <= |s|
    ensures r.Some? ==> from <= r.value && OccursAt(s, r.value, pat)
    ensures r.Some? ==> forall k :: from <= k < r.value ==> !OccursAt(s, k, pat)
    ensures r.None? ==> forall k :: from <= k <= |s| ==> !OccursAt(s, k, pat)
    decreases |s| - from
  {
    if OccursAt(s, from, pat) then Some(from)
    else if from + |pat| >= |s| then None
    else FindFrom(s, pat, from + 1)
  }

  /** Number of occurrences of `c` in `s`, as `(s.match(/c/g) || []).length` counts them. */
  function Count(s: string, c: char): nat {
    if s == [] then 0 else Count(s[..|s| - 1], c) + (if s[|s| - 1] == c then 1 else 0)
  }

  lemma {:induction false} CountAppend(a: string, b: string, c: char)
    ensures Count(a + b, c) == Count(a, c) + Count(b, c)
    decreases |b|
  {
    if b == [] {
      assert a + b == a;
    } else {
      assert (a + b)[..|a + b| - 1] == a + b[..|b| - 1];
      CountAppend(a, b[..|b| - 1], c);
    }
  }

  /** The characters of `s` that satisfy `keep`, in order. */
  function Filter(s: string, keep: char -> bool): string {
    if s == [] then [] else Filter(s[..|s| - 1], keep) + (if keep(s[|s| - 1]) then [s[|s| - 1]] else [])
  }

  lemma {:induction false} FilterAppend(a: string, b: string, keep: char -> bool)
    ensures Filter(a + b, keep) == Filter(a, keep) + Filter(b, keep)
    decreases |b|
  {
    if b == [] {
      assert a + b == a;
    } else {
      assert (a + b)[..|a + b| - 1] == a + b[..|b| - 1];
      FilterAppend(a, b[..|b| - 1], keep);
    }
  }

  /** Filtering with a predicate that keeps `c` does not change how often `c` occurs. */
  lemma {:induction false} CountFilter(s: string, keep: char -> bool, c: char)
    requires keep(c)
    ensures Count(Filter(s, keep), c) == Count(s, c)
    decreases |s|
  {
    if s != [] {
      var last := s[|s| - 1];
      CountFilter(s[..|s| - 1], keep, c);
      CountAppend(Filter(s[..|s| - 1], keep), if keep(last) then [last] else [], c);
    }
  }

  /** `n` copies of `c`, as `c.repeat(n)`. */
  function Repeat(c: char, n: nat): (r: string)
    ensures |r| == n && forall k :: 0 <= k < n ==> r[k] == c
  {
    if n == 0 then [] else [c] + Repeat(c, n - 1)
  }

  lemma {:induction false} CountRepeat(c: char, n: nat)
    ensures Count(Repeat(c, n), c) == n
  {
    if n > 0 {
      assert Repeat(c, n) == Repeat(c, n - 1) + [c];
      CountRepeat(c, n - 1);
      CountAppend(Repeat(c, n - 1), [c], c);
    }
  }

  function DigitValue(c: char): nat
    requires IsHexDigit(c)
  {
    if IsDigit(c) then c as nat - '0' as nat
    else if 'a' <= c <= 'f' then c as nat - 'a' as nat + 10
    else c as nat - 'A' as nat + 10
  }

  predicate AllDigits(s: string) { forall k :: 0 <= k < |s| ==> IsDigit(s[k]) }

  /** The value of a run of digits in base `radix`. */
  function DigitsValue(ds: string, radix: nat): nat
    requires forall k :: 0 <= k < |ds| ==> IsHexDigit(ds[k])
  {
    if ds == [] then 0 else DigitsValue(ds[..|ds| - 1], radix) * radix + DigitValue(ds[|ds| - 1])
  }

  function DigitChar(d: nat): (c: char)
    requires d < 10
    ensures IsDigit(c) && DigitValue(c) == d
  {
    ('0' as int + d) as char
  }

  /** The shortest decimal numeral of `n`. */
  function NatToString(n: nat): (r: string)
    ensures |r| >= 1 && AllDigits(r)
    ensures |r| > 1 ==> r[0] != '0'
  {
    if n < 10 then [DigitChar(n)] else NatToString(n / 10) + [DigitChar(n % 10)]
  }

  lemma {:induction false} DigitsValueOfNatToString(n: nat)
    ensures DigitsValue(NatToString(n), 10) == n
  {
    if n >= 10 {
      var s := NatToString(n);
      assert s[..|s| - 1] == NatToString(n / 10);
      DigitsValueOfNatToString(n / 10);
    }
  }

  /** The index just past the run of characters satisfying `ok` that starts at `i`. */
  function RunEnd(s: string, i: nat, ok: char -> bool): (j: nat)
    requires i <= |s|
    ensures i <= j <= |s|
    ensures forall k :: i <= k < j ==> ok(s[k])
    ensures j == |s| || !ok(s[j])
    decreases |s| - i
  {
    if i < |s| && ok(s[i]) then RunEnd(s, i + 1, ok) else i
  }

  /** A run of `ok` characters from `i` that ends before a character that is not `ok`, or at the end, is the one `RunEnd` finds. */
  lemma {:induction false} RunEndIs(s: string, i: nat, e: nat, ok: char -> bool)
    requires i <= e <= |s|
    requires forall k :: i <= k < e ==> ok(s[k])
    requires e == |s| || !ok(s[e])
    ensures RunEnd(s, i, ok) == e
    decreases e - i
  {
    if i < e {
      RunEndIs(s, i + 1, e, ok);
    }
  }

  /** The start of the run of characters satisfying `ok` that ends at `j`, not going below `lo`. */
  function RunStart(s: string, lo: nat, j: nat, ok: char -> bool): (i: nat)
    requires lo <= j <= |s|
    ensures lo <= i <= j
    ensures forall k :: i <= k < j ==> ok(s[k])
    ensures i == lo || !ok(s[i - 1])
    decreases j - lo
  {
    if lo < j && ok(s[j - 1]) then RunStart(s, lo, j - 1, ok) else j
  }

  /**
   * The global `parseInt(s)` with no radix: leading white space, an optional sign,
   * a `0x`/`0X` prefix switching to base 16, then the longest run of digits;
   * `None` stands for NaN (no digit at all).
   */
  function ParseInt(s: string): Option<int>
  {
    var t := s[SkipSpaces(s, 0)..];
    if t != [] && t[0] == '-' then ParseUnsigned(t[1..], -1)
    else if t != [] && t[0] == '+' then ParseUnsigned(t[1..], 1)
    else ParseUnsigned(t, 1)
  }

  /** `parseInt` once white space and sign are gone. */
  function ParseUnsigned(u: string, sign: int): (r: Option<int>)
    ensures r.Some? ==> u != [] && IsDigit(u[0])
  {
    if |u| >= 2 && u[0] == '0' && (u[1] == 'x' || u[1] == 'X') then
      var h := RunEnd(u, 2, IsHexDigit);
      if h == 2 then None else Some(sign * DigitsValue(u[2..h], 16))
    else
      var d := RunEnd(u, 0, IsDigit);
      if d == 0 then None else Some(sign * DigitsValue(u[..d], 10))
  }

  /** The decimal numeral of an integer, as `String(n)` writes it. */
  function IntToString(n: int): (r: string)
    ensures r != [] && !IsSpace(r[0])
  {
    if n < 0 then "-" + NatToString(-n) else NatToString(n)
  }

  /** `parseInt(String(n))` gives `n` back, for every integer. */
  lemma {:induction false} ParseIntOfNumeral(n: int)
    ensures ParseInt(IntToString(n)) == Some(n)
  {
    var m: nat := if n < 0 then -n else n;
    var s := IntToString(n);
    assert SkipSpaces(s, 0) == 0;
    assert s[0..] == s;
    ParseUnsignedNumeral(m, if n < 0 then -1 else 1);
    if n < 0 {
      assert s[1..] == NatToString(m);
    }
  }

  lemma {:induction false} ParseUnsignedNumeral(m: nat, sign: int)
    ensures ParseUnsigned(NatToString(m), sign) == Some(sign * m)
  {
    var u := NatToString(m);
    assert !(|u| >= 2 && (u[1] == 'x' || u[1] == 'X'));
    RunEndAll(u, 0, IsDigit);
    assert u[..|u|] == u;
    DigitsValueOfNatToString(m);
  }

  lemma {:induction false} RunEndAll(s: string, i: nat, ok: char -> bool)
    requires i <= |s|
    requires forall k :: i <= k < |s| ==> ok(s[k])
    ensures RunEnd(s, i, ok) == |s|
    decreases |s| - i
  {
    if i < |s| {
      RunEndAll(s, i + 1, ok);
    }
  }
}
