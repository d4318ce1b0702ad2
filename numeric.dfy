/**
 * Numeric foundations shared by the whole model: doubles that may be
 * infinite, left-to-right sums, clamping, and the decimal logarithm used by
 * the column-generation gap test.
 */
module Numeric {

  /** A Java double that is finite or one of the two infinities. */
  datatype XReal = NegInf | Finite(value: real) | PosInf

  /** Strict IEEE order on non-NaN doubles. */
  predicate Less(a: XReal, b: XReal) {
    match a
    case NegInf => !b.NegInf?
    case Finite(x) => (b.Finite? && x < b.value) || b.PosInf?
    case PosInf => false
  }

  predicate LessEq(a: XReal, b: XReal) {
    a == b || Less(a, b)
  }

  lemma LessTrans(a: XReal, b: XReal, c: XReal)
    requires Less(a, b) && Less(b, c)
    ensures Less(a, c)
  {
  }

  lemma LessTotal(a: XReal, b: XReal)
    ensures Less(a, b) || a == b || Less(b, a)
  {
  }

  /** `a + x` for a finite x. */
  function AddFinite(a: XReal, x: real): (r: XReal)
    ensures r.Finite? <==> a.Finite?
  {
    match a
    case Finite(v) => Finite(v + x)
    case _ => a
  }

  /** `a - x` for a finite x. */
  function SubFinite(a: XReal, x: real): (r: XReal)
    ensures r.Finite? <==> a.Finite?
  {
    match a
    case Finite(v) => Finite(v - x)
    case _ => a
  }

  /** Java's Double.MAX_VALUE, (2^53 - 1) * 2^971. */
  const MaxDouble: real := 179769313486231570814527423731704356798070567525844996598917476803157260780028538760589558632766878171540458953514382464234321326889464182768467546703537516986049910576551282076245490090389328944075868508455133942304583236903222948165808559332123348274797826204144723168738177180919299881250404026184124858368.0

  /** Sum of a sequence, accumulated from the left as the source's loops do. */
  function Sum(s: seq<real>): real
  {
    if |s| == 0 then 0.0 else Sum(s[..|s| - 1]) + s[|s| - 1]
  }

  lemma SumPrefixStep(s: seq<real>, i: nat)
    requires i < |s|
    ensures Sum(s[..i + 1]) == Sum(s[..i]) + s[i]
  {
    assert s[..i + 1][..i] == s[..i];
  }

  lemma SumAppend(s: seq<real>, x: real)
    ensures Sum(s + [x]) == Sum(s) + x
  {
    assert (s + [x])[..|s|] == s;
  }

  lemma {:induction false} SumConcat(s: seq<real>, t: seq<real>)
    ensures Sum(s + t) == Sum(s) + Sum(t)
    decreases |t|
  {
    if |t| == 0 {
      assert s + t == s;
    } else {
      var t' := t[..|t| - 1];
      assert s + t == (s + t') + [t[|t| - 1]];
      SumAppend(s + t', t[|t| - 1]);
      SumConcat(s, t');
      SumAppend(t', t[|t| - 1]);
      assert t == t' + [t[|t| - 1]];
    }
  }

  /** Replacing one entry changes the sum by the difference. */
  lemma {:induction false} SumUpdate(s: seq<real>, i: nat, x: real)
    requires i < |s|
    ensures Sum(s[i := x]) == Sum(s) - s[i] + x
    decreases |s|
  {
    var n := |s| - 1;
    if i == n {
      assert s[i := x][..n] == s[..n];
    } else {
      assert s[i := x][..n] == s[..n][i := x];
      SumUpdate(s[..n], i, x);
    }
  }

  function Zeros(n: nat): (r: seq<real>)
    ensures |r| == n && forall i :: 0 <= i < n ==> r[i] == 0.0
  {
    seq(n, _ => 0.0)
  }

  lemma {:induction false} SumZeros(n: nat)
    ensures Sum(Zeros(n)) == 0.0
  {
    if n > 0 {
      assert Zeros(n)[..n - 1] == Zeros(n - 1);
      SumZeros(n - 1);
    }
  }

  /** Every entry of a sequence lies in the closed interval [0, 1]. */
  predicate InUnit(s: seq<real>) {
    forall i :: 0 <= i < |s| ==> 0.0 <= s[i] <= 1.0
  }

  /** The two-sided clamp `if (p < 0) p = 0; if (p > 1) p = 1;`. */
  function Clamp01(x: real): (r: real)
    ensures 0.0 <= r <= 1.0
    ensures 0.0 <= x <= 1.0 ==> r == x
    ensures x < 0.0 ==> r == 0.0
    ensures x > 1.0 ==> r == 1.0
  {
    if x < 0.0 then 0.0 else if x > 1.0 then 1.0 else x
  }

  function Abs(x: real): real {
    if x < 0.0 then -x else x
  }

  /** 10 to an integer power. */
  function Pow10(n: int): (r: real)
    ensures r > 0.0
    decreases if n < 0 then -n else n
  {
    if n == 0 then 1.0 else if n > 0 then 10.0 * Pow10(n - 1) else Pow10(n + 1) / 10.0
  }

  lemma {:induction false} Pow10Succ(n: int)
    ensures Pow10(n + 1) == 10.0 * Pow10(n)
    decreases if n < 0 then -n else n
  {
    if n < -1 {
      Pow10Succ(n + 1);
    }
  }

  /**
   * ceil(log10(x)) for a positive x: the integer n with 10^(n-1) < x <= 10^n
   * (proved in CeilLog10Bounds).
   */
  function CeilLog10(x: real): int
    requires x > 0.0
    decreases (if x > 1.0 then x.Floor else 0), (if x <= 0.1 then (1.0 / x).Floor else 0)
  {
    if x > 1.0 then
      assert x / 10.0 > 1.0 ==> (x / 10.0).Floor < x.Floor;
      CeilLog10(x / 10.0) + 1
    else if x <= 0.1 then
      assert x * 10.0 <= 0.1 ==> (1.0 / (x * 10.0)).Floor < (1.0 / x).Floor by {
        assert 1.0 / (x * 10.0) == (1.0 / x) / 10.0;
      }
      CeilLog10(x * 10.0) - 1
    else
      0
  }

  lemma {:induction false} CeilLog10Bounds(x: real)
    requires x > 0.0
    ensures Pow10(CeilLog10(x) - 1) < x <= Pow10(CeilLog10(x))
    decreases (if x > 1.0 then x.Floor else 0), (if x <= 0.1 then (1.0 / x).Floor else 0)
  {
    if x > 1.0 {
      assert x / 10.0 > 1.0 ==> (x / 10.0).Floor < x.Floor;
      var n := CeilLog10(x / 10.0);
      CeilLog10Bounds(x / 10.0);
      Pow10Succ(n - 1);
      Pow10Succ(n);
    } else if x <= 0.1 {
      assert x * 10.0 <= 0.1 ==> (1.0 / (x * 10.0)).Floor < (1.0 / x).Floor by {
        assert 1.0 / (x * 10.0) == (1.0 / x) / 10.0;
      }
      var n := CeilLog10(x * 10.0);
      CeilLog10Bounds(x * 10.0);
      Pow10Succ(n - 2);
      Pow10Succ(n - 1);
    } else {
      assert Pow10(-1) == 0.1;
    }
  }

  /**
   * `Math.pow(10, Math.ceil(Math.log10(m)) - 3)`, the allowed optimality gap for
   * a best-known objective m. None stands for NaN (log10 of a negative number
   * or of minus infinity); log10(0) is minus infinity, so a zero m allows gap 0.
   */
  function AllowedGap(m: XReal): (r: Option<XReal>)
    ensures m.Finite? && m.value > 0.0 ==>
      r.Some? && r.value.Finite? && 100.0 * r.value.value < m.value <= 1000.0 * r.value.value
    ensures r.None? <==> (m.NegInf? || (m.Finite? && m.value < 0.0))
  {
    match m
    case PosInf => Some(PosInf)
    case NegInf => None
    case Finite(x) =>
      if x > 0.0 then
        CeilLog10Bounds(x);
        var n := CeilLog10(x);
        Pow10Succ(n - 3);
        Pow10Succ(n - 2);
        Pow10Succ(n - 1);
        Some(Finite(Pow10(n - 3)))
      else if x == 0.0 then Some(Finite(0.0))
      else None
  }

  /** The larger of two doubles, Math.max. */
  function MaxX(a: XReal, b: XReal): (r: XReal)
    ensures LessEq(a, r) && LessEq(b, r) && (r == a || r == b)
  {
    if Less(a, b) then b else a
  }

  datatype Option<T> = None | Some(value: T)

  /** Outcome of an operation that the source aborts with an exception or a failed assertion. */
  datatype Result<T> = Success(value: T) | Failure(error: string)

  /** Multiplication as a function, so that a product can be rewritten by substituting its factors. */
  function Times(x: real, y: real): real {
    x * y
  }

  lemma TimesZero(x: real)
    ensures Times(x, 0.0) == 0.0
  {
  }
}
