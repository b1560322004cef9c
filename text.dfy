/**
 * The two pieces of Python's string behaviour that the harness relies on:
 * `str.strip()` with no argument, and the decimal rendering of an `int`
 * inside an f-string.
 */
module Text {

  /** `c.isspace()` in Python 3: exactly the characters `str.strip()` removes. */
  predicate IsSpace(c: char) {
    var n := c as int;
    (9 <= n <= 13) || (28 <= n <= 32) || n == 0x85 || n == 0xA0 || n == 0x1680
    || (0x2000 <= n <= 0x200A) || n == 0x2028 || n == 0x2029 || n == 0x202F
    || n == 0x205F || n == 0x3000
  }

  predicate AllSpace(s: string) {
    forall i :: 0 <= i < |s| ==> IsSpace(s[i])
  }

  /** A string that `strip()` leaves alone: empty, or non-space at both ends. */
  predicate IsCore(s: string) {
    s == [] || (!IsSpace(s[0]) && !IsSpace(s[|s| - 1]))
  }

  /** The length of the run of whitespace that starts `s`. */
  function LeadingSpace(s: string): (n: nat)
    ensures n <= |s|
  {
    if s == [] || !IsSpace(s[0]) then 0 else 1 + LeadingSpace(s[1..])
  }

  /** The length of the run of whitespace that ends `s`. */
  function TrailingSpace(s: string): (n: nat)
    ensures n <= |s|
  {
    if s == [] || !IsSpace(s[|s| - 1]) then 0 else 1 + TrailingSpace(s[..|s| - 1])
  }

  /** `LeadingSpace` counts whitespace only, and stops at the first non-space. */
  lemma {:induction false} LeadingSpaceSpec(s: string)
    ensures forall k :: 0 <= k < LeadingSpace(s) ==> IsSpace(s[k])
    ensures LeadingSpace(s) < |s| ==> !IsSpace(s[LeadingSpace(s)])
  {
    if s != [] && IsSpace(s[0]) {
      var t := s[1..];
      LeadingSpaceSpec(t);
      forall k | 0 <= k < LeadingSpace(s) ensures IsSpace(s[k]) {
        if k > 0 {
          assert s[k] == t[k - 1];
        }
      }
      if LeadingSpace(s) < |s| {
        assert s[LeadingSpace(s)] == t[LeadingSpace(t)];
      }
    }
  }

  /** `TrailingSpace` counts whitespace only, and stops at the last non-space. */
  lemma {:induction false} TrailingSpaceSpec(s: string)
    ensures forall k :: |s| - TrailingSpace(s) <= k < |s| ==> IsSpace(s[k])
    ensures TrailingSpace(s) < |s| ==> !IsSpace(s[|s| - 1 - TrailingSpace(s)])
  {
    if s != [] && IsSpace(s[|s| - 1]) {
      var t := s[..|s| - 1];
      TrailingSpaceSpec(t);
      forall k | |s| - TrailingSpace(s) <= k < |s| ensures IsSpace(s[k]) {
        if k < |s| - 1 {
          assert s[k] == t[k];
        }
      }
      if TrailingSpace(s) < |s| {
        assert s[|s| - 1 - TrailingSpace(s)] == t[|t| - 1 - TrailingSpace(t)];
      }
    }
  }

  /** `s.strip()`: `s` without its leading and trailing whitespace. */
  function Strip(s: string): (r: string)
    ensures IsCore(r) && |r| <= |s|
  {
    var t := s[LeadingSpace(s)..];
    LeadingSpaceSpec(s);
    TrailingSpaceSpec(t);
    var r := t[..|t| - TrailingSpace(t)];
    assert r != [] ==> r[0] == s[LeadingSpace(s)] && r[|r| - 1] == t[|t| - 1 - TrailingSpace(t)];
    r
  }

  /** `LeadingSpace` is the only length whose prefix is all whitespace and is followed by a non-space. */
  lemma LeadingSpaceUnique(s: string, n: nat)
    requires n <= |s| && (forall k :: 0 <= k < n ==> IsSpace(s[k]))
    requires n < |s| ==> !IsSpace(s[n])
    ensures LeadingSpace(s) == n
  {
    LeadingSpaceSpec(s);
  }

  /** `TrailingSpace` is the only length whose suffix is all whitespace and is preceded by a non-space. */
  lemma TrailingSpaceUnique(s: string, n: nat)
    requires n <= |s| && (forall k :: |s| - n <= k < |s| ==> IsSpace(s[k]))
    requires n < |s| ==> !IsSpace(s[|s| - 1 - n])
    ensures TrailingSpace(s) == n
  {
    TrailingSpaceSpec(s);
  }

  lemma LeadingSpaceAppend(p: string, x: string)
    requires AllSpace(p)
    ensures LeadingSpace(p + x) == |p| + LeadingSpace(x)
  {
    var s, n := p + x, LeadingSpace(x);
    LeadingSpaceSpec(x);
    forall k | 0 <= k < |p| + n ensures IsSpace(s[k]) {
      if k >= |p| {
        assert s[k] == x[k - |p|];
      }
    }
    if |p| + n < |s| {
      assert s[|p| + n] == x[n];
    }
    LeadingSpaceUnique(s, |p| + n);
  }

  lemma TrailingSpaceAppend(x: string, q: string)
    requires AllSpace(q)
    ensures TrailingSpace(x + q) == TrailingSpace(x) + |q|
  {
    var s, n := x + q, TrailingSpace(x);
    TrailingSpaceSpec(x);
    forall k | |s| - (n + |q|) <= k < |s| ensures IsSpace(s[k]) {
      if k < |x| {
        assert s[k] == x[k];
      } else {
        assert s[k] == q[k - |x|];
      }
    }
    if n + |q| < |s| {
      assert s[|s| - 1 - (n + |q|)] == x[|x| - 1 - n];
    }
    TrailingSpaceUnique(s, n + |q|);
  }

  /**
   * `strip()` is determined by the core of its argument: whatever the
   * whitespace around a core string, stripping returns exactly that core.
   */
  lemma StripCore(p: string, x: string, q: string)
    requires AllSpace(p) && AllSpace(q) && IsCore(x)
    ensures Strip(p + x + q) == x
  {
    var s := p + x + q;
    assert s == p + (x + q);
    LeadingSpaceAppend(p, x + q);
    if x == [] {
      assert x + q == q;
      LeadingSpaceUnique(q, |q|);
      assert s[LeadingSpace(s)..] == [];
    } else {
      assert LeadingSpace(x + q) == 0;
      var t := s[LeadingSpace(s)..];
      assert t == x + q;
      TrailingSpaceAppend(x, q);
      assert TrailingSpace(x) == 0;
      assert t[..|t| - TrailingSpace(t)] == x;
    }
  }

  /** Every string is its stripped core with whitespace before and after it. */
  lemma StripSplit(s: string) returns (p: string, q: string)
    ensures AllSpace(p) && AllSpace(q) && s == p + Strip(s) + q
  {
    var i := LeadingSpace(s);
    var t := s[i..];
    var j := TrailingSpace(t);
    LeadingSpaceSpec(s);
    TrailingSpaceSpec(t);
    var k := |s| - j;
    assert t[..|t| - j] == s[i..k] && t[|t| - j..] == s[k..];
    p, q := s[..i], s[k..];
    SplitThree(s, i, k);
  }

  lemma SplitThree(s: string, i: nat, k: nat)
    requires i <= k <= |s|
    ensures s == s[..i] + s[i..k] + s[k..]
  {
  }

  lemma ConcatAssoc(a: string, b: string, c: string, d: string, e: string)
    ensures a + (b + c + d) + e == (a + b) + c + (d + e)
  {
  }

  lemma AllSpaceConcat(a: string, b: string)
    requires AllSpace(a) && AllSpace(b)
    ensures AllSpace(a + b)
  {
  }

  /** Stripping twice is stripping once. */
  lemma StripIdempotent(s: string)
    ensures Strip(Strip(s)) == Strip(s)
  {
    StripCore([], Strip(s), []);
    assert [] + Strip(s) + [] == Strip(s);
  }

  /** Extra whitespace around a string never changes what `strip()` returns. */
  lemma StripIgnoresPadding(p: string, s: string, q: string)
    requires AllSpace(p) && AllSpace(q)
    ensures Strip(p + s + q) == Strip(s)
  {
    var p', q' := StripSplit(s);
    var c := Strip(s);
    assert p + s + q == (p + p') + c + (q' + q) by {
      assert s == p' + c + q';
      ConcatAssoc(p, p', c, q', q);
    }
    AllSpaceConcat(p, p');
    AllSpaceConcat(q', q);
    StripCore(p + p', c, q' + q);
  }

  /** Two strings whose cores differ still differ after any padding. */
  lemma StripKeepsCoresApart(p: string, x: string, q: string, p': string, y: string, q': string)
    requires AllSpace(p) && AllSpace(q) && AllSpace(p') && AllSpace(q')
    requires IsCore(x) && IsCore(y) && x != y
    ensures Strip(p + x + q) != Strip(p' + y + q')
  {
    StripCore(p, x, q);
    StripCore(p', y, q');
  }

  // ---------------------------------------------------------------------
  // Decimal rendering of integers, as `f"{n}"` does it.

  function DigitChar(d: nat): (c: char)
    requires d < 10
    ensures IsDigit(c) && (c as int) - ('0' as int) == d
  {
    "0123456789"[d]
  }

  predicate IsDigit(c: char) {
    '0' as int <= c as int <= '9' as int
  }

  /** The decimal digits of `n`, most significant first, with no leading zero. */
  function NatToString(n: nat): (s: string)
    ensures |s| >= 1 && IsDigit(s[0])
    ensures (|s| == 1) == (n < 10)
    decreases n
  {
    if n < 10 then [DigitChar(n)] else NatToString(n / 10) + [DigitChar(n % 10)]
  }

  /** Every character of a rendering is a decimal digit. */
  lemma {:induction false} NatToStringDigits(n: nat)
    ensures forall i :: 0 <= i < |NatToString(n)| ==> IsDigit(NatToString(n)[i])
    decreases n
  {
    if n >= 10 {
      NatToStringDigits(n / 10);
    }
  }

  /** Only `0` renders with a leading `0`. */
  lemma {:induction false} NatToStringNoLeadingZero(n: nat)
    requires n >= 1
    ensures NatToString(n)[0] != '0'
    decreases n
  {
    if n >= 10 {
      NatToStringNoLeadingZero(n / 10);
      assert NatToString(n)[0] == NatToString(n / 10)[0];
    }
  }

  /** The number a string of decimal digits denotes. */
  function DecimalValue(s: string): int
  {
    if s == [] then 0
    else DecimalValue(s[..|s| - 1]) * 10 + ((s[|s| - 1] as int) - ('0' as int))
  }

  /** Reading the rendered digits back gives the number: the rendering loses nothing. */
  lemma {:induction false} DecimalRoundTrip(n: nat)
    ensures DecimalValue(NatToString(n)) == n
    decreases n
  {
    if n >= 10 {
      DecimalRoundTrip(n / 10);
      var s := NatToString(n);
      assert s[..|s| - 1] == NatToString(n / 10);
    }
  }

  lemma NatToStringInjective(m: nat, n: nat)
    requires NatToString(m) == NatToString(n)
    ensures m == n
  {
    DecimalRoundTrip(m);
    DecimalRoundTrip(n);
  }

  /** `f"{i}"` for any integer: a minus sign before the digits of a negative value. */
  function IntToString(i: int): (s: string)
    ensures |s| >= 1 && (s[0] == '-' <==> i < 0)
  {
    if i < 0 then "-" + NatToString(-i) else NatToString(i)
  }

  /** After its minus sign, a negative value renders as the digits of its magnitude. */
  lemma IntToStringNegative(i: int)
    requires i < 0
    ensures IntToString(i)[1..] == NatToString(-i)
  {
    assert IntToString(i) == "-" + NatToString(-i);
  }

  lemma IntToStringInjective(i: int, j: int)
    requires IntToString(i) == IntToString(j)
    ensures i == j
  {
    if IntToString(i)[0] == '-' {
      IntToStringNegative(i);
      IntToStringNegative(j);
      NatToStringInjective(-i, -j);
    } else {
      NatToStringInjective(i, j);
    }
  }

}
