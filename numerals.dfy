/**
 * The arithmetic the generator does on `Math.random()` draws and the way it
 * prints numbers into shader text: `Math.floor(r * k)`, an integer's decimal
 * `toString`, and `Number.prototype.toFixed`, computed on exact rationals.
 */
module Numerals {

  /** A value `Math.random()` can return. */
  predicate Unit(r: real) {
    0.0 <= r < 1.0
  }

  /** `Math.floor(r * k)`: the index a draw picks among `k` equally likely choices. */
  function FloorScaled(r: real, k: nat): (n: int)
    requires Unit(r) && k > 0
    ensures 0 <= n < k
  {
    ScaleBelow(r, k as real);
    (r * k as real).Floor
  }

  /** Scaling by a value in `[0, 1)` keeps a positive quantity below itself. */
  lemma ScaleBelow(r: real, m: real)
    requires 0.0 <= r < 1.0 && m > 0.0
    ensures 0.0 <= r * m < m
  {
    var d := 1.0 - r;
    assert d * m > 0.0;
    assert r * m == m - d * m;
  }

  /** Every one of the `k` choices is drawn by some value of `Math.random()`. */
  lemma FloorScaledOnto(i: nat, k: nat)
    requires i < k
    ensures Unit(i as real / k as real) && FloorScaled(i as real / k as real, k) == i
  {
    var r := i as real / k as real;
    assert r * k as real == i as real;
  }

  // ----------------------------------------------------------------- digits

  predicate IsDigit(c: char) {
    '0' <= c <= '9'
  }

  predicate AllDigits(s: string) {
    forall k :: 0 <= k < |s| ==> IsDigit(s[k])
  }

  /** A character that can appear in a printed non-negative number. */
  predicate IsNumeralChar(c: char) {
    IsDigit(c) || c == '.'
  }

  predicate IsNumeral(s: string) {
    forall k :: 0 <= k < |s| ==> IsNumeralChar(s[k])
  }

  function DigitChar(d: nat): (c: char)
    requires d < 10
    ensures IsDigit(c) && c as int - '0' as int == d
  {
    ('0' as int + d) as char
  }

  /** The number a string of decimal digits denotes. */
  function DigitsValue(s: string): nat
    requires AllDigits(s)
  {
    if s == [] then 0 else DigitsValue(s[..|s| - 1]) * 10 + (s[|s| - 1] as int - '0' as int)
  }

  /** `String(n)` for a non-negative integer: its digits, without leading zeros. */
  function Decimal(n: nat): (s: string)
    ensures 1 <= |s| && AllDigits(s)
    ensures s[0] == '0' ==> n == 0
  {
    if n < 10 then [DigitChar(n)] else Decimal(n / 10) + [DigitChar(n % 10)]
  }

  /** Printing an integer and reading its digits back gives the integer. */
  lemma {:induction false} DecimalRoundTrip(n: nat)
    ensures DigitsValue(Decimal(n)) == n
  {
    var s := Decimal(n);
    if n >= 10 {
      assert s[..|s| - 1] == Decimal(n / 10);
      DecimalRoundTrip(n / 10);
    }
  }

  /** A digit string without a leading zero is what `Decimal` prints for its value. */
  lemma {:induction false} DecimalOfDigits(s: string)
    requires AllDigits(s) && s != [] && (s[0] == '0' ==> |s| == 1)
    ensures Decimal(DigitsValue(s)) == s
    decreases |s|
  {
    if |s| > 1 {
      var init := s[..|s| - 1];
      DecimalOfDigits(init);
      PositiveValue(init);
      assert DigitsValue(s) / 10 == DigitsValue(init);
    }
  }

  lemma {:induction false} PositiveValue(s: string)
    requires AllDigits(s) && s != [] && s[0] != '0'
    ensures DigitsValue(s) > 0
    decreases |s|
  {
    if |s| > 1 {
      PositiveValue(s[..|s| - 1]);
    }
  }

  lemma DigitsAreNumeral(s: string)
    requires AllDigits(s)
    ensures IsNumeral(s)
  {
  }

  // ---------------------------------------------------------------- toFixed

  function Pow10(f: nat): (p: nat)
    ensures p >= 1
  {
    if f == 0 then 1 else 10 * Pow10(f - 1)
  }

  function Zeros(k: nat): (s: string)
    ensures |s| == k && AllDigits(s)
  {
    if k == 0 then [] else "0" + Zeros(k - 1)
  }

  /** The integer `toFixed` prints: `x * 10^f` rounded to the nearest integer, ties upward. */
  function ScaledRound(x: real, f: nat): (n: nat)
    requires x >= 0.0
  {
    (x * Pow10(f) as real + 0.5).Floor
  }

  /** `n` with zeros in front so that it has more than `f` digits. */
  function Padded(n: nat, f: nat): (s: string)
    ensures |s| > f && AllDigits(s)
  {
    var m := Decimal(n);
    if |m| <= f then Zeros(f + 1 - |m|) + m else m
  }

  /**
   * `x.toFixed(f)` for `0 <= x < 10^21`: the digits of `x` rounded to `f`
   * places, with a decimal point before the last `f` of them when `f > 0`.
   */
  function ToFixed(x: real, f: nat): (s: string)
    requires 0.0 <= x < 1000000000000000000000.0
    ensures IsNumeral(s) && s != [] && IsDigit(s[0])
    ensures f == 0 ==> AllDigits(s)
    ensures f > 0 ==> |s| >= f + 2 && s[|s| - f - 1] == '.'
                      && AllDigits(s[..|s| - f - 1]) && AllDigits(s[|s| - f..])
  {
    var p := Padded(ScaledRound(x, f), f);
    if f == 0 then p else p[..|p| - f] + "." + p[|p| - f..]
  }

  /** The integer a fixed-point literal with `f` decimals denotes once its point is dropped. */
  function ScaledDigits(s: string, f: nat): nat
    requires |s| >= f + 2 && AllDigits(s[..|s| - f - 1]) && AllDigits(s[|s| - f..])
  {
    var whole, frac := s[..|s| - f - 1], s[|s| - f..];
    DigitsValue(whole) * Pow10(f) + DigitsValue(frac)
  }

  lemma AllDigitsConcat(a: string, b: string)
    requires AllDigits(a) && AllDigits(b)
    ensures AllDigits(a + b)
  {
    forall k | 0 <= k < |a + b| ensures IsDigit((a + b)[k]) {
      if k < |a| {
        assert (a + b)[k] == a[k];
      } else {
        assert (a + b)[k] == b[k - |a|];
      }
    }
  }

  lemma Regroup(x: int, p: int, y: int, d: int)
    ensures (x * p + y) * 10 + d == x * (10 * p) + (y * 10 + d)
  {
  }

  lemma {:induction false} DigitsValueAppend(a: string, b: string)
    requires AllDigits(a) && AllDigits(b)
    ensures AllDigits(a + b) && DigitsValue(a + b) == DigitsValue(a) * Pow10(|b|) + DigitsValue(b)
    decreases |b|
  {
    AllDigitsConcat(a, b);
    if b == [] {
      assert a + b == a;
    } else {
      var init := b[..|b| - 1];
      var d := b[|b| - 1] as int - '0' as int;
      assert AllDigits(init);
      assert (a + b)[..|a + b| - 1] == a + init;
      assert (a + b)[|a + b| - 1] == b[|b| - 1];
      DigitsValueAppend(a, init);
      assert DigitsValue(a + b) == DigitsValue(a + init) * 10 + d;
      assert DigitsValue(b) == DigitsValue(init) * 10 + d;
      assert Pow10(|b|) == 10 * Pow10(|init|);
      Regroup(DigitsValue(a), Pow10(|init|), DigitsValue(init), d);
    }
  }

  lemma {:induction false} ZerosValue(k: nat, m: string)
    requires AllDigits(m)
    ensures DigitsValue(Zeros(k) + m) == DigitsValue(m)
  {
    DigitsValueAppend(Zeros(k), m);
    ZerosAreZero(k);
  }

  lemma {:induction false} ZerosAreZero(k: nat)
    ensures DigitsValue(Zeros(k)) == 0
  {
    if k > 0 {
      DigitsValueAppend("0", Zeros(k - 1));
      assert Zeros(k) == "0" + Zeros(k - 1);
      ZerosAreZero(k - 1);
    }
  }

  lemma PaddedValue(n: nat, f: nat)
    ensures DigitsValue(Padded(n, f)) == n
  {
    var m := Decimal(n);
    DecimalRoundTrip(n);
    var p := Padded(n, f);
    if |m| <= f {
      assert p == Zeros(f + 1 - |m|) + m;
      ZerosValue(f + 1 - |m|, m);
    } else {
      assert p == m;
    }
  }

  /** Dropping the point that `toFixed` inserts gives back the digits it split. */
  lemma PointValue(p: string, f: nat)
    requires |p| > f && AllDigits(p)
    ensures var s := p[..|p| - f] + "." + p[|p| - f..];
            |s| >= f + 2 && AllDigits(s[..|s| - f - 1]) && AllDigits(s[|s| - f..])
            && ScaledDigits(s, f) == DigitsValue(p)
  {
    var s := p[..|p| - f] + "." + p[|p| - f..];
    assert s[..|s| - f - 1] == p[..|p| - f];
    assert s[|s| - f..] == p[|p| - f..];
    DigitsValueAppend(p[..|p| - f], p[|p| - f..]);
    assert p[..|p| - f] + p[|p| - f..] == p;
  }

  /** `ScaledRound` is within half a unit of its argument, ties going up. */
  lemma ScaledRoundNearest(x: real, f: nat)
    requires x >= 0.0
    ensures var y := x * Pow10(f) as real;
            y - 0.5 < ScaledRound(x, f) as real <= y + 0.5
  {
  }

  /**
   * The literal `toFixed` prints denotes the multiple of `10^-f` nearest to
   * `x`, a tie going to the larger one.
   */
  lemma ToFixedValue(x: real, f: nat)
    requires 0.0 <= x < 1000000000000000000000.0 && f > 0
    ensures var n := ScaledDigits(ToFixed(x, f), f);
            x * Pow10(f) as real - 0.5 < n as real <= x * Pow10(f) as real + 0.5
  {
    var n := ScaledRound(x, f);
    var p := Padded(n, f);
    assert ToFixed(x, f) == p[..|p| - f] + "." + p[|p| - f..];
    PaddedValue(n, f);
    PointValue(p, f);
    ScaledRoundNearest(x, f);
  }
}
