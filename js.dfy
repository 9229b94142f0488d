/**
 * JavaScript number conventions the app relies on.  Numbers are `real`s;
 * a value that may be `null`, `undefined` or `NaN` is an `Option<real>`
 * whose `None` stands for all three (they behave alike wherever the app
 * uses them: as falsy, and as failing every comparison).
 */
module Js {
  import opened Text

  datatype Option<T> = None | Some(value: T)
  {
    /** `x ?? d` */
    function OrElse(d: T): T { if Some? then value else d }
  }

  /** A value, or the message of the exception the source throws. */
  datatype Result<T> = Ok(value: T) | Err(message: string)

  /** `x || d` for numbers: `0`, `NaN`, `null` and `undefined` fall back to `d`. */
  function OrNum(x: Option<real>, d: real): (r: real)
    ensures r == d || (x.Some? && r == x.value && r != 0.0)
    ensures x.Some? && x.value != 0.0 ==> r == x.value
  {
    if x.Some? && x.value != 0.0 then x.value else d
  }

  /** `x || null` for numbers: a zero becomes `null` as well. */
  function NonZero(x: Option<real>): (r: Option<real>)
    ensures r.Some? <==> x.Some? && x.value != 0.0
    ensures r.Some? ==> r == x
  {
    if x.Some? && x.value != 0.0 then x else None
  }

  /** `s || d` for strings: the empty string and `undefined` fall back to `d`. */
  function OrStr(s: Option<string>, d: string): (r: string)
    ensures s.Some? && s.value != "" ==> r == s.value
    ensures s.None? || s.value == "" ==> r == d
  {
    if s.Some? && s.value != "" then s.value else d
  }

  function Abs(x: real): real { if x < 0.0 then -x else x }
  function Max(a: real, b: real): real { if a >= b then a else b }
  function Min(a: real, b: real): real { if a <= b then a else b }

  /** `Math.max(lo, Math.min(hi, x))` */
  function Clamp(x: real, lo: real, hi: real): (r: real)
    requires lo <= hi
    ensures lo <= r <= hi
    ensures lo <= x <= hi ==> r == x
    ensures x < lo ==> r == lo
    ensures x > hi ==> r == hi
  {
    Max(lo, Min(hi, x))
  }

  // ------------------------------------------------------------------ rounding

  /** `Math.round(x)`: the nearest integer, halves rounded up. */
  function Round(x: real): (r: int)
    ensures r as real - 0.5 <= x < r as real + 0.5
  {
    (x + 0.5).Floor
  }

  lemma RoundMonotone(x: real, y: real)
    requires x <= y
    ensures Round(x) <= Round(y)
  {
  }

  lemma RoundWithin(x: real, lo: int, hi: int)
    requires lo as real <= x <= hi as real
    ensures lo <= Round(x) <= hi
  {
  }

  /** `Math.trunc(x)`: drops the fraction, towards zero. */
  function Trunc(x: real): (t: int)
    ensures x >= 0.0 ==> t as real <= x < t as real + 1.0
    ensures x < 0.0 ==> t as real - 1.0 < x <= t as real
  {
    if x >= 0.0 then x.Floor else -((-x).Floor)
  }

  function IntAbs(b: int): int { if b < 0 then -b else b }

  /** The quotient of integer division truncated towards zero, `Math.trunc(a / b)`. */
  function IntQuot(a: int, b: int): int
    requires b != 0
  {
    var q := if a >= 0 then a / IntAbs(b) else -((-a) / IntAbs(b));
    if b > 0 then q else -q
  }

  /**
   * `a % b` on integers: the remainder takes the sign of the dividend,
   * unlike Dafny's Euclidean `%`.
   */
  function IntRem(a: int, b: int): (r: int)
    requires b != 0
    ensures a >= 0 ==> 0 <= r < IntAbs(b)
    ensures a < 0 ==> -IntAbs(b) < r <= 0
  {
    var m := IntAbs(b);
    if a >= 0 then a % m else -((-a) % m)
  }

  /** The truncated quotient and the remainder put the dividend back together. */
  lemma IntRemQuot(a: int, b: int)
    requires b != 0
    ensures a == IntQuot(a, b) * b + IntRem(a, b)
  {
    var m := IntAbs(b);
    var x := if a >= 0 then a else -a;
    var q, r := x / m, x % m;
    assert x == q * m + r;
    if b < 0 {
      assert q * m == (-q) * b;
    }
  }

  /** `a % b` on numbers with a positive divisor. */
  function RealRem(a: real, b: real): (r: real)
    requires b > 0.0
    ensures a >= 0.0 ==> 0.0 <= r < b
    ensures a < 0.0 ==> -b < r <= 0.0
    ensures (a - r) / b == Trunc(a / b) as real
  {
    var q := a / b;
    assert b * q == a;
    QuotientSign(a, b);
    var t := Trunc(q) as real;
    RemainderBounds(a, b, q, t);
    RemovedDivisors(a, b, t);
    a - b * t
  }

  /**
   * Taking `t` divisors off `a`, where `t` is the quotient `q` truncated,
   * leaves less than one divisor, with the sign of `a`.
   */
  lemma RemainderBounds(a: real, b: real, q: real, t: real)
    requires b > 0.0 && b * q == a
    requires a >= 0.0 ==> t <= q < t + 1.0
    requires a < 0.0 ==> t - 1.0 < q <= t
    ensures a >= 0.0 ==> 0.0 <= a - b * t
    ensures a >= 0.0 ==> a - b * t < b
    ensures a < 0.0 ==> -b < a - b * t
    ensures a < 0.0 ==> a - b * t <= 0.0
  {
    var f := q - t;
    assert b * f == a - b * t;
    if a >= 0.0 {
      ScaledFraction(b, f);
      assert b * f < b;
    } else {
      ScaledNegativeFraction(b, f);
      assert -b < b * f;
    }
  }

  /** What the remainder leaves of the dividend is exactly `t` divisors. */
  lemma RemovedDivisors(a: real, b: real, t: real)
    requires b > 0.0
    ensures (a - (a - b * t)) / b == t
  {
    assert a - (a - b * t) == b * t;
  }

  /** The quotient by a positive divisor has the dividend's sign. */
  lemma QuotientSign(a: real, b: real)
    requires b > 0.0
    ensures a >= 0.0 ==> a / b >= 0.0
    ensures a < 0.0 ==> a / b < 0.0
  {
  }

  lemma ScaledFraction(b: real, f: real)
    requires b > 0.0 && 0.0 <= f < 1.0
    ensures 0.0 <= b * f
    ensures b * f < b
  {
  }

  lemma ScaledNegativeFraction(b: real, f: real)
    requires b > 0.0 && -1.0 < f <= 0.0
    ensures -b < b * f
    ensures b * f <= 0.0
  {
  }

  // ------------------------------------------------------------------- toFixed

  function Pow10(d: nat): (p: nat)
    ensures p >= 1
  {
    if d == 0 then 1 else 10 * Pow10(d - 1)
  }

  /** `n` written with at least `d` digits, zeros in front. */
  function ZeroPad(n: nat, d: nat): (s: string)
    ensures |s| >= d && |s| >= 1
    ensures forall k :: 0 <= k < |s| ==> IsDigit(s[k])
    decreases d
  {
    var digits := NatToString(n);
    if |digits| >= d then digits else "0" + ZeroPad(n, d - 1)
  }

  /**
   * The integer `n` that `x.toFixed(d)` writes out, scaled by `10^d`: the
   * nearest to `|x| * 10^d`, the larger one on a tie.
   */
  function FixedUnits(x: real, d: nat): (n: nat)
    ensures n as real - 0.5 <= Abs(x) * Pow10(d) as real < n as real + 0.5
  {
    Round(Abs(x) * Pow10(d) as real)
  }

  /** The digits of `whole`, a point, and `frac` padded to `d` digits. */
  function FixedDigits(whole: nat, frac: nat, d: nat): (s: string)
    requires d > 0 && frac < Pow10(d)
    ensures |s| >= d + 2 && s[|s| - d - 1] == '.' && IsDigit(s[0])
    ensures forall k :: |s| - d <= k < |s| ==> IsDigit(s[k])
  {
    var f := ZeroPad(frac, d);
    assert |f| == d by {
      FewDigits(frac, d);
    }
    NatToString(whole) + "." + f
  }

  /** The unsigned text of `x.toFixed(d)` for the scaled integer `n`. */
  function FixedBody(n: nat, d: nat): (s: string)
    ensures |s| >= 1 && IsDigit(s[0])
    ensures d > 0 ==> |s| >= d + 2 && s[|s| - d - 1] == '.'
    ensures d > 0 ==> forall k :: |s| - d <= k < |s| ==> IsDigit(s[k])
  {
    if d == 0 then NatToString(n)
    else
      var p := Pow10(d);
      DivModBounds(n, p);
      FixedDigits(n / p, n % p, d)
  }

  lemma DivModBounds(n: nat, p: nat)
    requires p >= 1
    ensures n / p >= 0 && 0 <= n % p < p
  {
  }

  /** `x.toFixed(d)`: a minus sign for negatives, the integer part, and `d` fraction digits. */
  function ToFixed(x: real, d: nat): (s: string)
    ensures x < 0.0 <==> |s| > 0 && s[0] == '-'
    ensures d > 0 ==> |s| >= d + 2 && s[|s| - d - 1] == '.'
    ensures d > 0 ==> forall k :: |s| - d <= k < |s| ==> IsDigit(s[k])
  {
    var body := FixedBody(FixedUnits(x, d), d);
    if x < 0.0 then "-" + body else body
  }

  /** A number below `10^d` has at most `d` digits. */
  lemma {:induction false} FewDigits(n: nat, d: nat)
    requires d >= 1 && n < Pow10(d)
    ensures |NatToString(n)| <= d
    ensures |ZeroPad(n, d)| == d
    decreases d
  {
    if n >= 10 {
      assert d >= 2;
      FewDigits(n / 10, d - 1);
    }
    if |NatToString(n)| < d {
      ZeroPadLength(n, d);
    }
  }

  lemma {:induction false} ZeroPadLength(n: nat, d: nat)
    requires |NatToString(n)| <= d
    ensures |ZeroPad(n, d)| == d
    decreases d
  {
    if |NatToString(n)| < d {
      ZeroPadLength(n, d - 1);
    }
  }

  /** `+x.toFixed(d)`: the number the fixed-point text stands for. */
  function ToFixedValue(x: real, d: nat): (r: real)
    ensures Abs(r - x) <= 0.5 / Pow10(d) as real
    ensures x >= 0.0 ==> r >= 0.0
  {
    var units := FixedUnits(x, d);
    var p := Pow10(d) as real;
    var n := units as real / p;
    RoundingErrorScaled(units as real, Abs(x), p);
    if x < 0.0 then -n else n
  }

  /** `+x.toFixed(d)` is a whole number of units of `10^-d`. */
  lemma ToFixedValueUnits(x: real, d: nat)
    ensures ToFixedValue(x, d) * Pow10(d) as real
      == (if x < 0.0 then -(FixedUnits(x, d) as int) else FixedUnits(x, d) as int) as real
  {
    var p := Pow10(d) as real;
    var u := FixedUnits(x, d) as real;
    assert (u / p) * p == u;
    assert (-(u / p)) * p == -u;
  }

  /** Rounding `y * p` to `n` misses `y` by at most half a unit of `1 / p`. */
  lemma RoundingErrorScaled(n: real, y: real, p: real)
    requires p > 0.0
    requires n - 0.5 <= y * p
    requires y * p < n + 0.5
    ensures n / p - y <= 0.5 / p
    ensures -(0.5 / p) <= n / p - y
  {
    var e := n - y * p;
    assert n == e + y * p;
    assert n / p == e / p + y;
    DivideMonotone(e, 0.5, p);
    DivideMonotone(-0.5, e, p);
    assert -0.5 / p == -(0.5 / p);
  }

  lemma DivideMonotone(a: real, b: real, p: real)
    requires p > 0.0 && a <= b
    ensures a / p <= b / p
  {
  }

  // -------------------------------------------------------------------- arrays

  /** `s.slice(0, end)`: a negative `end` counts back from the end of `s`. */
  function SliceTo<T>(s: seq<T>, end: int): (r: seq<T>)
    ensures r <= s
    ensures end >= 0 ==> |r| == if end < |s| then end else |s|
    ensures end < 0 ==> |r| == if |s| + end < 0 then 0 else |s| + end
  {
    if end >= 0 then (if end < |s| then s[..end] else s)
    else if |s| + end < 0 then []
    else s[..|s| + end]
  }

  /** `xs.findIndex(p)`: the first position whose element satisfies `p`, or −1. */
  function FindIndex<T>(xs: seq<T>, p: T -> bool): (r: int)
    ensures -1 <= r < |xs|
    ensures r >= 0 ==> p(xs[r]) && forall j :: 0 <= j < r ==> !p(xs[j])
    ensures r == -1 <==> forall j :: 0 <= j < |xs| ==> !p(xs[j])
  {
    FindIndexFrom(xs, p, 0)
  }

  /** The scan of `FindIndex` from position `from` on. */
  function FindIndexFrom<T>(xs: seq<T>, p: T -> bool, from: nat): (r: int)
    requires from <= |xs|
    ensures -1 <= r < |xs|
    ensures r >= 0 ==> from <= r && p(xs[r]) && forall j :: from <= j < r ==> !p(xs[j])
    ensures r == -1 ==> forall j :: from <= j < |xs| ==> !p(xs[j])
    decreases |xs| - from
  {
    if from == |xs| then -1
    else if p(xs[from]) then from
    else FindIndexFrom(xs, p, from + 1)
  }

  /** `xs.findLastIndex(p)`: the last position whose element satisfies `p`, or −1. */
  function FindLastIndex<T>(xs: seq<T>, p: T -> bool): (r: int)
    ensures -1 <= r < |xs|
    ensures r >= 0 ==> p(xs[r]) && forall j :: r < j < |xs| ==> !p(xs[j])
    ensures r == -1 <==> forall j :: 0 <= j < |xs| ==> !p(xs[j])
  {
    if |xs| == 0 then -1
    else if p(xs[|xs| - 1]) then |xs| - 1
    else
      var r := FindLastIndex(xs[..|xs| - 1], p);
      assert forall j :: r < j < |xs| - 1 ==> xs[j] == xs[..|xs| - 1][j];
      r
  }

  /** `xs.filter(p)`: the elements satisfying `p`, in their order (see `FilterMembers`). */
  function Filter<T>(xs: seq<T>, p: T -> bool): (r: seq<T>)
    ensures |r| <= |xs|
  {
    if |xs| == 0 then []
    else Filter(xs[..|xs| - 1], p) + (if p(xs[|xs| - 1]) then [xs[|xs| - 1]] else [])
  }

  /** `filter` keeps exactly the elements satisfying `p`. */
  lemma {:induction false} FilterMembers<T>(xs: seq<T>, p: T -> bool)
    ensures forall k :: 0 <= k < |Filter(xs, p)| ==> Filter(xs, p)[k] in xs && p(Filter(xs, p)[k])
    ensures forall k :: 0 <= k < |xs| && p(xs[k]) ==> xs[k] in Filter(xs, p)
  {
    if |xs| > 0 {
      var front := xs[..|xs| - 1];
      FilterMembers(front, p);
      assert xs == front + [xs[|xs| - 1]];
    }
  }

  /** `filter` keeps every copy of an element satisfying `p` and no copy of any other. */
  lemma {:induction false} FilterMultiset<T>(xs: seq<T>, p: T -> bool)
    ensures forall x :: multiset(Filter(xs, p))[x] == if p(x) then multiset(xs)[x] else 0
  {
    if |xs| > 0 {
      var front, last := xs[..|xs| - 1], xs[|xs| - 1];
      FilterMultiset(front, p);
      assert xs == front + [last];
      assert multiset(xs) == multiset(front) + multiset{last};
    }
  }

  /**
   * `filter` keeps something exactly when some element satisfies `p`, and
   * the last element it keeps is the one at `findLastIndex`.
   */
  lemma {:induction false} FilterLast<T>(xs: seq<T>, p: T -> bool)
    ensures |Filter(xs, p)| > 0 <==> FindLastIndex(xs, p) >= 0
    ensures |Filter(xs, p)| > 0 ==> Filter(xs, p)[|Filter(xs, p)| - 1] == xs[FindLastIndex(xs, p)]
  {
    if |xs| > 0 && !p(xs[|xs| - 1]) {
      var front := xs[..|xs| - 1];
      FilterLast(front, p);
      assert Filter(xs, p) == Filter(front, p);
      if FindLastIndex(front, p) >= 0 {
        assert xs[FindLastIndex(front, p)] == front[FindLastIndex(front, p)];
      }
    }
  }

  /** The last match in the suffix after `h` is the last match of `xs`, when that lies after `h`. */
  lemma FindLastIndexSuffix<T>(xs: seq<T>, p: T -> bool, h: int)
    requires -1 <= h < |xs|
    ensures var r, t := FindLastIndex(xs, p), FindLastIndex(xs[h + 1..], p);
      (t >= 0 <==> r > h) && (t >= 0 ==> r == h + 1 + t)
  {
    var tail := xs[h + 1..];
    var r, t := FindLastIndex(xs, p), FindLastIndex(tail, p);
    if t >= 0 {
      assert xs[h + 1 + t] == tail[t];
      forall j | h + 1 + t < j < |xs|
        ensures !p(xs[j])
      {
        assert xs[j] == tail[j - h - 1];
      }
    }
  }

  /**
   * The last element kept when filtering the suffix after `h` is the last
   * element of `xs` satisfying `p`, which must then lie after `h`.
   */
  lemma FilterSuffixLastIndex<T>(xs: seq<T>, p: T -> bool, h: int)
    requires -1 <= h < |xs|
    ensures var rows := Filter(xs[h + 1..], p);
      (|rows| > 0 <==> FindLastIndex(xs, p) > h)
      && (|rows| > 0 ==> rows[|rows| - 1] == xs[FindLastIndex(xs, p)])
  {
    var tail := xs[h + 1..];
    FilterLast(tail, p);
    FindLastIndexSuffix(xs, p, h);
    var t := FindLastIndex(tail, p);
    if t >= 0 {
      assert tail[t] == xs[h + 1 + t];
    }
  }
}
