/**
 * Alpha vectors: one value per state, the action the vector starts with and
 * the belief point it was backed up at. A set of them represents a
 * piecewise-linear value function over beliefs.
 */
module AlphaVectors {
  import opened Numeric
  import opened Beliefs

  datatype AlphaVector = AlphaVector(entries: seq<real>, action: int, belief: Option<BeliefPoint>)

  /** new AlphaVector(entries): no action (-1) and no belief point yet. */
  function NewVector(entries: seq<real>): (v: AlphaVector)
    ensures v.entries == entries && v.action == -1 && v.belief.None?
  {
    AlphaVector(entries, -1, None)
  }

  /** x[0] y[0] + ... + x[n-1] y[n-1], accumulated from the left. */
  function Dot(x: seq<real>, y: seq<real>, n: nat): real
    requires n <= |x| && n <= |y|
  {
    if n == 0 then 0.0 else Dot(x, y, n - 1) + x[n - 1] * y[n - 1]
  }

  /** The value of vector u at belief b. */
  function DotProduct(u: AlphaVector, b: seq<real>): real
    requires |u.entries| == |b|
  {
    Dot(u.entries, b, |b|)
  }

  /** Every vector of U has one entry per component of b. */
  predicate Sized(U: seq<AlphaVector>, n: nat) {
    forall j :: 0 <= j < |U| ==> |U[j].entries| == n
  }

  /** getDotProduct(v): the lengths must agree. */
  method GetDotProduct(u: AlphaVector, v: seq<real>) returns (dp: real)
    requires |u.entries| == |v|
    ensures dp == DotProduct(u, v)
  {
    dp := 0.0;
    var i := 0;
    while i < |u.entries|
      invariant 0 <= i <= |u.entries|
      invariant dp == Dot(u.entries, v, i)
    {
      dp := dp + u.entries[i] * v[i];
      i := i + 1;
    }
  }

  /** The entrywise sum of two vectors of the same length. */
  function Plus(x: seq<real>, y: seq<real>): (r: seq<real>)
    requires |x| == |y|
    ensures |r| == |x| && forall i :: 0 <= i < |x| ==> r[i] == x[i] + y[i]
  {
    seq(|x|, i requires 0 <= i < |x| => x[i] + y[i])
  }

  /** The dot product is additive in the vector. */
  lemma {:induction false} DotPlus(x: seq<real>, y: seq<real>, b: seq<real>, n: nat)
    requires |x| == |y| && n <= |x| && n <= |b|
    ensures Dot(Plus(x, y), b, n) == Dot(x, b, n) + Dot(y, b, n)
  {
    if n > 0 {
      DotPlus(x, y, b, n - 1);
      var p := Plus(x, y);
      assert p[n - 1] * b[n - 1] == x[n - 1] * b[n - 1] + y[n - 1] * b[n - 1];
    }
  }

  /** Dotting with the point mass on state s picks entry s. */
  lemma {:induction false} DotUnit(x: seq<real>, b: seq<real>, s: nat, n: nat)
    requires n <= |x| && n <= |b| && s < |b|
    requires b[s] == 1.0 && forall i :: 0 <= i < |b| && i != s ==> b[i] == 0.0
    ensures Dot(x, b, n) == if s < n then x[s] else 0.0
  {
    if n > 0 {
      DotUnit(x, b, s, n - 1);
    }
  }

  /**
   * sumVectors(v1, v2): the sizes and the actions must agree; the sum keeps
   * the action and has no belief point.
   */
  method SumVectors(v1: AlphaVector, v2: AlphaVector) returns (r: AlphaVector)
    requires |v1.entries| == |v2.entries|
    requires v1.action == v2.action
    ensures r.entries == Plus(v1.entries, v2.entries)
    ensures r.action == v1.action && r.belief.None?
    ensures forall b: seq<real> :: |b| == |v1.entries| ==> DotProduct(r, b) == DotProduct(v1, b) + DotProduct(v2, b)
  {
    var newEntries := new real[|v1.entries|];
    var s := 0;
    while s < newEntries.Length
      invariant 0 <= s <= newEntries.Length
      invariant forall i :: 0 <= i < s ==> newEntries[i] == v1.entries[i] + v2.entries[i]
    {
      newEntries[s] := v1.entries[s] + v2.entries[s];
      s := s + 1;
    }
    r := NewVector(newEntries[..]);
    r := r.(action := v1.action);
    assert r.entries == Plus(v1.entries, v2.entries);
    forall b: seq<real> | |b| == |v1.entries|
      ensures DotProduct(r, b) == DotProduct(v1, b) + DotProduct(v2, b)
    {
      DotPlus(v1.entries, v2.entries, b, |b|);
    }
  }

  /** The first index from i on where x and y differ, or |x| when they agree from there. */
  function FirstDifference(x: seq<real>, y: seq<real>, i: nat): (d: nat)
    requires |x| == |y| && i <= |x|
    ensures i <= d <= |x|
    ensures forall j :: i <= j < d ==> x[j] == y[j]
    ensures d < |x| ==> x[d] != y[d]
    decreases |x| - i
  {
    if i == |x| then i
    else if x[i] != y[i] then i
    else FirstDifference(x, y, i + 1)
  }

  /** x is lexicographically greater than y: at the first entry where they differ, x is larger. */
  predicate LexGreaterThan(x: seq<real>, y: seq<real>)
    requires |x| == |y|
  {
    var d := FirstDifference(x, y, 0);
    d < |x| && x[d] > y[d]
  }

  /** The order is the lexicographic one: some entry of x is larger and all entries before it agree. */
  lemma LexGreaterThanIff(x: seq<real>, y: seq<real>, i: nat)
    requires |x| == |y| && i < |x|
    requires forall j :: 0 <= j < i ==> x[j] == y[j]
    ensures x[i] != y[i] ==> (LexGreaterThan(x, y) <==> x[i] > y[i])
  {
    var d := FirstDifference(x, y, 0);
    if x[i] != y[i] {
      assert d <= i;
      assert d == i;
    }
  }

  /** Equal vectors are not greater than each other; two different vectors are ordered one way. */
  lemma LexGreaterThanTotal(x: seq<real>, y: seq<real>)
    requires |x| == |y|
    ensures x == y ==> !LexGreaterThan(x, y)
    ensures x != y ==> (LexGreaterThan(x, y) <==> !LexGreaterThan(y, x))
  {
    var d := FirstDifference(x, y, 0);
    var e := FirstDifference(y, x, 0);
    if x != y {
      assert e <= d && d <= e;
    }
  }

  /** The order is transitive. */
  lemma LexGreaterThanTrans(x: seq<real>, y: seq<real>, z: seq<real>)
    requires |x| == |y| == |z|
    requires LexGreaterThan(x, y) && LexGreaterThan(y, z)
    ensures LexGreaterThan(x, z)
  {
    var d1 := FirstDifference(x, y, 0);
    var d2 := FirstDifference(y, z, 0);
    var m := if d1 < d2 then d1 else d2;
    assert forall j :: 0 <= j < m ==> x[j] == z[j];
    assert x[m] > z[m];
    LexGreaterThanIff(x, z, m);
  }

  /** lexGreater(v1, v2): the sizes must agree; scan to the first differing entry. */
  method LexGreater(v1: AlphaVector, v2: AlphaVector) returns (r: bool)
    requires |v1.entries| == |v2.entries|
    ensures r == LexGreaterThan(v1.entries, v2.entries)
  {
    var x, y := v1.entries, v2.entries;
    var i := 0;
    while i < |x|
      invariant 0 <= i <= |x|
      invariant FirstDifference(x, y, 0) == FirstDifference(x, y, i)
    {
      if x[i] != y[i] {
        return x[i] > y[i];
      }
      i := i + 1;
    }
    return false;
  }

  /**
   * What getBestVectorIndex promises of index w over the first n vectors:
   * U[w] has the largest value at b, no vector of the same value is
   * lexicographically greater, and no earlier vector of the same value has
   * the same entries.
   */
  predicate IsBestAmong(b: seq<real>, U: seq<AlphaVector>, n: nat, w: int)
    requires Sized(U, |b|) && n <= |U|
  {
    0 <= w < n &&
    (forall j :: 0 <= j < n ==> DotProduct(U[j], b) <= DotProduct(U[w], b)) &&
    (forall j :: 0 <= j < n && DotProduct(U[j], b) == DotProduct(U[w], b) ==>
      !LexGreaterThan(U[j].entries, U[w].entries)) &&
    (forall j :: 0 <= j < w && DotProduct(U[j], b) == DotProduct(U[w], b) ==> U[j].entries != U[w].entries)
  }

  /** At most one index meets the promise. */
  lemma BestIsUnique(b: seq<real>, U: seq<AlphaVector>, n: nat, w1: int, w2: int)
    requires Sized(U, |b|) && n <= |U|
    requires IsBestAmong(b, U, n, w1) && IsBestAmong(b, U, n, w2)
    ensures w1 == w2
  {
    LexGreaterThanTotal(U[w1].entries, U[w2].entries);
  }

  /**
   * getBestVectorIndex(b, U): -1 for an empty set, otherwise the index of a
   * vector of largest value at b, a tie going to the lexicographically
   * greater vector and then to the earlier one.
   */
  method GetBestVectorIndex(b: seq<real>, U: seq<AlphaVector>) returns (wIndex: int)
    requires Sized(U, |b|)
    ensures |U| == 0 ==> wIndex == -1
    ensures |U| > 0 ==> IsBestAmong(b, U, |U|, wIndex)
  {
    var max := NegInf;
    wIndex := -1;
    var i := 0;
    while i < |U|
      invariant 0 <= i <= |U|
      invariant i == 0 <==> max == NegInf
      invariant i == 0 ==> wIndex == -1
      invariant i > 0 ==> IsBestAmong(b, U, i, wIndex) && max == Finite(DotProduct(U[wIndex], b))
    {
      var u := U[i];
      var product := GetDotProduct(u, b);
      if Less(max, Finite(product)) {
        wIndex := i;
        max := Finite(product);
      } else if Finite(product) == max {
        var greater := LexGreater(u, U[wIndex]);
        if greater {
          forall j | 0 <= j < i && DotProduct(U[j], b) == product
            ensures !LexGreaterThan(U[j].entries, u.entries) && U[j].entries != u.entries
          {
            if LexGreaterThan(U[j].entries, u.entries) {
              LexGreaterThanTrans(U[j].entries, u.entries, U[wIndex].entries);
            }
          }
          LexGreaterThanTotal(u.entries, u.entries);
          wIndex := i;
        }
      }
      i := i + 1;
    }
  }

  /** The largest value at b over the first n vectors, minus infinity for none. */
  function MaxValue(b: seq<real>, U: seq<AlphaVector>, n: nat): (m: XReal)
    requires Sized(U, |b|) && n <= |U|
    ensures n == 0 <==> m == NegInf
    ensures n > 0 ==> m.Finite?
  {
    if n == 0 then NegInf
    else
      var prev := MaxValue(b, U, n - 1);
      var p := DotProduct(U[n - 1], b);
      if Less(prev, Finite(p)) then Finite(p) else prev
  }

  /** The value over the first n vectors is at least each of their values at b and is one of them. */
  lemma {:induction false} MaxValueIsMax(b: seq<real>, U: seq<AlphaVector>, n: nat)
    requires Sized(U, |b|) && n <= |U|
    ensures n > 0 ==> exists j :: 0 <= j < n && MaxValue(b, U, n).value == DotProduct(U[j], b)
    ensures forall j :: 0 <= j < n ==> LessEq(Finite(DotProduct(U[j], b)), MaxValue(b, U, n))
  {
    if n > 0 {
      MaxValueIsMax(b, U, n - 1);
      var prev, p := MaxValue(b, U, n - 1), DotProduct(U[n - 1], b);
      if n > 1 && !Less(prev, Finite(p)) {
        var j :| 0 <= j < n - 1 && prev.value == DotProduct(U[j], b);
        assert MaxValue(b, U, n).value == DotProduct(U[j], b);
      }
      forall j | 0 <= j < n - 1
        ensures LessEq(Finite(DotProduct(U[j], b)), MaxValue(b, U, n))
      {
        if Less(prev, Finite(p)) && Less(Finite(DotProduct(U[j], b)), prev) {
          LessTrans(Finite(DotProduct(U[j], b)), prev, Finite(p));
        }
      }
    }
  }

  /** getValue(b, U): the largest value at b, minus infinity for an empty set. */
  method GetValue(b: seq<real>, U: seq<AlphaVector>) returns (max: XReal)
    requires Sized(U, |b|)
    ensures max == MaxValue(b, U, |U|)
  {
    max := NegInf;
    var i := 0;
    while i < |U|
      invariant 0 <= i <= |U|
      invariant max == MaxValue(b, U, i)
    {
      var product := GetDotProduct(U[i], b);
      if Less(max, Finite(product)) {
        max := Finite(product);
      }
      i := i + 1;
    }
  }

  /** The best vector of a non-empty set attains the value of the set. */
  lemma BestAttainsValue(b: seq<real>, U: seq<AlphaVector>, w: int)
    requires Sized(U, |b|) && |U| > 0
    requires IsBestAmong(b, U, |U|, w)
    ensures MaxValue(b, U, |U|) == Finite(DotProduct(U[w], b))
  {
    var m := MaxValue(b, U, |U|);
    MaxValueIsMax(b, U, |U|);
    var j :| 0 <= j < |U| && m.value == DotProduct(U[j], b);
    assert LessEq(Finite(DotProduct(U[w], b)), m);
  }

  /** Adding vectors never lowers the value at any belief. */
  lemma {:induction false} MaxValueGrows(b: seq<real>, U: seq<AlphaVector>, V: seq<AlphaVector>)
    requires Sized(U, |b|) && Sized(V, |b|)
    ensures LessEq(MaxValue(b, U, |U|), MaxValue(b, U + V, |U + V|))
  {
    var W := U + V;
    if |U| > 0 {
      var m := MaxValue(b, U, |U|);
      MaxValueIsMax(b, U, |U|);
      MaxValueIsMax(b, W, |W|);
      var j :| 0 <= j < |U| && m.value == DotProduct(U[j], b);
      assert W[j] == U[j];
      assert LessEq(Finite(DotProduct(W[j], b)), MaxValue(b, W, |W|));
    }
  }

  /** The smallest of the first n entries, +infinity for none. */
  function MinEntry(s: seq<real>, n: nat): (m: XReal)
    requires n <= |s|
    ensures n == 0 <==> m == PosInf
    ensures n > 0 ==> m.Finite? && exists i :: 0 <= i < n && m.value == s[i]
    ensures forall i :: 0 <= i < n ==> LessEq(m, Finite(s[i]))
  {
    if n == 0 then PosInf
    else
      var prev := MinEntry(s, n - 1);
      if Less(Finite(s[n - 1]), prev) then Finite(s[n - 1]) else prev
  }

  /** getMinValue: the smallest entry, +infinity for an empty vector. */
  method GetMinValue(v: AlphaVector) returns (minValue: XReal)
    ensures minValue == MinEntry(v.entries, |v.entries|)
  {
    minValue := PosInf;
    var i := 0;
    while i < |v.entries|
      invariant 0 <= i <= |v.entries|
      invariant minValue == MinEntry(v.entries, i)
    {
      if Less(Finite(v.entries[i]), minValue) {
        minValue := Finite(v.entries[i]);
      }
      i := i + 1;
    }
  }
}
