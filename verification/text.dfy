/** Python's string primitives as the endpoints use them: `strip()`,
    `str(int)`, `int(float)` and slicing with `[:n]`. */
module Text {

  /** The whitespace `str.strip()` and the regular expression `\s` remove
      (the ASCII subset: space, tab, line feed, carriage return, vertical tab,
      form feed). */
  predicate IsSpace(c: char) {
    c == ' ' || c == '\t' || c == '\n' || c == '\r' || c == '\U{000B}' || c == '\U{000C}'
  }

  /** A string that `strip()` leaves unchanged. */
  predicate Clean(s: string) {
    s == [] || (!IsSpace(s[0]) && !IsSpace(s[|s| - 1]))
  }

  predicate AllSpace(s: string) {
    forall i :: 0 <= i < |s| ==> IsSpace(s[i])
  }

  /** `s.lstrip()`: drops the leading whitespace (see `LStripDropsLeadingSpace`). */
  function LStrip(s: string): (r: string)
    ensures |r| <= |s|
    ensures r == [] || !IsSpace(r[0])
  {
    if s != [] && IsSpace(s[0]) then LStrip(s[1..]) else s
  }

  /** `s.rstrip()`: drops the trailing whitespace, keeping a prefix of `s`. */
  function RStrip(s: string): (r: string)
    ensures |r| <= |s| && r == s[..|r|]
    ensures r == [] || !IsSpace(r[|r| - 1])
  {
    if s != [] && IsSpace(s[|s| - 1]) then RStrip(s[..|s| - 1]) else s
  }

  /** `s.strip()`: the result is clean, and a clean string is its own strip
      (see `StripTrims` for what is removed). */
  function Strip(s: string): (r: string)
    ensures Clean(r)
    ensures Clean(s) ==> r == s
  {
    RStrip(LStrip(s))
  }

  /** `lstrip` removes exactly the leading run of whitespace. */
  lemma {:induction false} LStripDropsLeadingSpace(s: string)
    ensures LStrip(s) == s[|s| - |LStrip(s)|..]
    ensures AllSpace(s[..|s| - |LStrip(s)|])
    decreases |s|
  {
    if s != [] && IsSpace(s[0]) {
      LStripDropsLeadingSpace(s[1..]);
      var r := LStrip(s);
      assert r == LStrip(s[1..]);
      assert s[1..][|s[1..]| - |r|..] == s[|s| - |r|..];
      assert s[..|s| - |r|] == [s[0]] + s[1..][..|s[1..]| - |r|];
    }
  }

  /** `rstrip` removes exactly the trailing run of whitespace. */
  lemma {:induction false} RStripDropsTrailingSpace(s: string)
    ensures AllSpace(s[|RStrip(s)|..])
    decreases |s|
  {
    if s != [] && IsSpace(s[|s| - 1]) {
      RStripDropsTrailingSpace(s[..|s| - 1]);
      var r := RStrip(s);
      assert r == RStrip(s[..|s| - 1]);
      assert s[|r|..] == s[..|s| - 1][|r|..] + [s[|s| - 1]];
    }
  }

  /** `r` is `s[i..j]` and only whitespace lies outside it. */
  predicate Trimmed(s: string, r: string, i: int, j: int) {
    0 <= i <= j <= |s| && r == s[i..j] && AllSpace(s[..i]) && AllSpace(s[j..])
  }

  /** `strip` keeps what lies between the leading and the trailing whitespace. */
  lemma StripTrims(s: string)
    ensures exists i, j :: Trimmed(s, Strip(s), i, j)
  {
    var a := LStrip(s);
    var r := RStrip(a);
    LStripDropsLeadingSpace(s);
    RStripDropsTrailingSpace(a);
    var i := |s| - |a|;
    assert r == s[i..i + |r|];
    assert s[i + |r|..] == a[|r|..];
    assert Trimmed(s, r, i, i + |r|);
    assert Strip(s) == r;
  }

  lemma {:induction false} LStripSkipsSpace(w: string, x: string)
    requires AllSpace(w)
    ensures LStrip(w + x) == LStrip(x)
    decreases |w|
  {
    if w != [] {
      assert IsSpace((w + x)[0]) by { assert (w + x)[0] == w[0]; }
      assert (w + x)[1..] == w[1..] + x;
      LStripSkipsSpace(w[1..], x);
      assert LStrip(w + x) == LStrip((w + x)[1..]);
    } else {
      assert w + x == x;
    }
  }

  lemma {:induction false} RStripSkipsSpace(x: string, w: string)
    requires AllSpace(w)
    ensures RStrip(x + w) == RStrip(x)
    decreases |w|
  {
    if w != [] {
      assert IsSpace((x + w)[|x + w| - 1]) by { assert (x + w)[|x + w| - 1] == w[|w| - 1]; }
      assert (x + w)[..|x + w| - 1] == x + w[..|w| - 1];
      RStripSkipsSpace(x, w[..|w| - 1]);
      assert RStrip(x + w) == RStrip((x + w)[..|x + w| - 1]);
    } else {
      assert x + w == x;
    }
  }

  function DigitChar(d: nat): (c: char)
    requires d < 10
    ensures '0' <= c <= '9'
  {
    "0123456789"[d]
  }

  predicate AllDigits(s: string) {
    forall i :: 0 <= i < |s| ==> '0' <= s[i] <= '9'
  }

  /** `str(n)` for a natural number: its decimal digits, most significant first. */
  function NatToString(n: nat): (r: string)
    ensures r != [] && AllDigits(r)
    decreases n
  {
    if n < 10 then [DigitChar(n)] else NatToString(n / 10) + [DigitChar(n % 10)]
  }

  /** The number a string of decimal digits denotes. */
  function DecimalValue(s: string): nat
    requires AllDigits(s)
  {
    if s == [] then 0 else 10 * DecimalValue(s[..|s| - 1]) + (s[|s| - 1] - '0') as nat
  }

  /** Reading back what `str(n)` wrote gives `n`. */
  lemma {:induction false} DecimalOfNatToString(n: nat)
    ensures DecimalValue(NatToString(n)) == n
    decreases n
  {
    var r := NatToString(n);
    if n >= 10 {
      DecimalOfNatToString(n / 10);
      assert r[..|r| - 1] == NatToString(n / 10);
      assert r[|r| - 1] == DigitChar(n % 10);
    }
  }

  /** `str(i)` for an integer: the decimal digits of `i`, after a minus sign
      when `i` is negative. */
  function IntToString(i: int): (r: string)
    ensures r != [] && Clean(r)
  {
    var n: nat := if i < 0 then -i else i;
    var d := NatToString(n);
    DigitsAreClean(d);
    MinusDigits(d);
    if i < 0 then "-" + d else d
  }

  /** What `str(i)` wrote reads back as `i`: the digits of `i` itself, or a
      minus sign followed by the digits of `-i`. */
  lemma IntToStringValue(i: int)
    ensures var r := IntToString(i);
      && (i >= 0 ==> AllDigits(r) && DecimalValue(r) == i)
      && (i < 0 ==> r[0] == '-' && r[1..] != [] && AllDigits(r[1..]) && DecimalValue(r[1..]) == -i)
  {
    var n: nat := if i < 0 then -i else i;
    DecimalOfNatToString(n);
    MinusDigits(NatToString(n));
  }

  /** Digits carry no surrounding whitespace. */
  lemma DigitsAreClean(d: string)
    requires AllDigits(d)
    ensures Clean(d)
  {
    if d != [] {
      assert '0' <= d[0] <= '9' && '0' <= d[|d| - 1] <= '9';
    }
  }

  /** A minus sign in front of digits: unpadded, and the digits follow it. */
  lemma MinusDigits(d: string)
    requires d != [] && AllDigits(d)
    ensures var r := "-" + d; r != [] && r[0] == '-' && r[1..] == d && Clean(r)
  {
    var r := "-" + d;
    assert r[|r| - 1] == d[|d| - 1];
  }

  /** Python's `int(x)` on a float: truncation toward zero. */
  function Trunc(x: real): (r: int)
    ensures 0.0 <= x ==> r as real <= x < r as real + 1.0
    ensures x < 0.0 ==> r as real - 1.0 < x <= r as real
  {
    if x >= 0.0 then x.Floor else -((-x).Floor)
  }

  /** `s[:n]`: the first `n` characters, or all of `s` when it is shorter. */
  function Take(s: string, n: nat): (r: string)
    ensures |r| <= n && r <= s
    ensures |s| <= n ==> r == s
    ensures |s| > n ==> |r| == n
  {
    if |s| <= n then s else s[..n]
  }
}
