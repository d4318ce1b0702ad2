/**
 * Drawing an item from a discrete distribution by inverting the cumulative
 * sum of the item probabilities at a supplied uniform number r in [0, 1).
 */
module Sampling {
  import opened Numeric

  datatype Item = Item(item: int, probability: real)

  function Probabilities(items: seq<Item>): (r: seq<real>)
    ensures |r| == |items| && forall i :: 0 <= i < |items| ==> r[i] == items[i].probability
  {
    seq(|items|, i requires 0 <= i < |items| => items[i].probability)
  }

  /** p[0] + ... + p[j]. */
  function Cumulative(p: seq<real>, j: nat): real
    requires j < |p|
  {
    Sum(p[..j + 1])
  }

  /**
   * The index the cumulative scan stops at: the first i whose cumulative sum
   * p[0] + ... + p[i] reaches r, or |p| when no prefix reaches r.
   */
  function FirstCovering(p: seq<real>, r: real): (i: nat)
    ensures i <= |p|
    ensures i < |p| ==> r <= Cumulative(p, i)
    ensures forall j :: 0 <= j < i ==> Cumulative(p, j) < r
  {
    FirstCoveringFrom(p, r, 0)
  }

  function FirstCoveringFrom(p: seq<real>, r: real, i: nat): (k: nat)
    requires i <= |p|
    requires forall j :: 0 <= j < i ==> Cumulative(p, j) < r
    ensures i <= k <= |p|
    ensures k < |p| ==> r <= Cumulative(p, k)
    ensures forall j :: 0 <= j < k ==> Cumulative(p, j) < r
    decreases |p| - i
  {
    if i == |p| then i
    else if r <= Cumulative(p, i) then i
    else FirstCoveringFrom(p, r, i + 1)
  }

  /** The item sampleItem returns: the covering one, or the last item when none covers r. */
  function Sampled(items: seq<Item>, r: real): int
    requires |items| > 0
  {
    var i := FirstCovering(Probabilities(items), r);
    if i < |items| then items[i].item else items[|items| - 1].item
  }

  /**
   * The sampler items a policy fills in before drawing: index i with its
   * probability clamped into [0, 1], for the first n indices, dropping
   * clamped zeros.
   */
  function ClampedItems(probabilities: seq<real>, n: nat): (items: seq<Item>)
    requires n <= |probabilities|
    ensures forall j :: 0 <= j < |items| ==> 0 <= items[j].item < n
    ensures forall j :: 0 <= j < |items| ==> 0.0 < items[j].probability <= 1.0
    ensures forall j :: 0 <= j < |items| ==> items[j].probability == Clamp01(probabilities[items[j].item])
  {
    if n == 0 then []
    else
      var p := Clamp01(probabilities[n - 1]);
      ClampedItems(probabilities, n - 1) + (if p > 0.0 then [Item(n - 1, p)] else [])
  }

  /** A sampler accumulating (item, probability) pairs with positive probability. */
  class ProbabilitySample {
    var items: seq<Item>
    var probabilitySum: real

    ghost predicate Valid()
      reads this
    {
      probabilitySum == Sum(Probabilities(items)) &&
      forall i :: 0 <= i < |items| ==> 0.0 < items[i].probability <= 1.0
    }

    constructor()
      ensures Valid() && items == [] && probabilitySum == 0.0
    {
      items := [];
      probabilitySum := 0.0;
    }

    /** addItem: a zero-probability item is dropped, any other one is appended. */
    method AddItem(item: int, probability: real)
      requires Valid()
      requires 0.0 <= probability <= 1.0
      modifies this
      ensures Valid()
      ensures items == old(items) + (if probability > 0.0 then [Item(item, probability)] else [])
    {
      if probability > 0.0 {
        assert Probabilities(items + [Item(item, probability)]) == Probabilities(items) + [probability];
        SumAppend(Probabilities(items), probability);
        items := items + [Item(item, probability)];
        probabilitySum := probabilitySum + probability;
      }
    }

    /** sampleItem at the uniform draw r. */
    method SampleItem(r: real) returns (x: int)
      requires Valid()
      requires Abs(probabilitySum - 1.0) < 0.001
      requires |items| > 0
      ensures x == Sampled(items, r)
      ensures exists i :: 0 <= i < |items| && x == items[i].item
    {
      var p := Probabilities(items);
      var cumulative := 0.0;
      x := items[|items| - 1].item;
      var i := 0;
      while i < |items|
        invariant 0 <= i <= |items|
        invariant cumulative == Sum(p[..i])
        invariant forall j :: 0 <= j < i ==> Cumulative(p, j) < r
      {
        SumPrefixStep(p, i);
        cumulative := cumulative + items[i].probability;
        if r <= cumulative {
          x := items[i].item;
          assert FirstCoveringFrom(p, r, i) == i;
          FirstCoveringSkip(p, r, i);
          return;
        }
        i := i + 1;
      }
      FirstCoveringSkip(p, r, |items|);
    }
  }

  /** Once every prefix below i misses r, the scan from 0 and the scan from i agree. */
  lemma {:induction false} FirstCoveringSkip(p: seq<real>, r: real, i: nat)
    requires i <= |p|
    requires forall j :: 0 <= j < i ==> Cumulative(p, j) < r
    ensures FirstCovering(p, r) == FirstCoveringFrom(p, r, i)
  {
    var k := 0;
    while k < i
      invariant 0 <= k <= i
      invariant FirstCoveringFrom(p, r, 0) == FirstCoveringFrom(p, r, k)
    {
      k := k + 1;
    }
  }

  /**
   * sampleObjectInline at the draw r. A single item is returned without
   * looking at r; otherwise the scan `while ((cumulative += p[index]) < r) index++`
   * runs off the end of the lists when no prefix reaches r, which is an
   * index-out-of-bounds failure.
   */
  method SampleObjectInline<T>(items: seq<T>, probabilities: seq<real>, r: real) returns (x: Result<T>)
    ensures |items| == 1 ==> x == Success(items[0])
    ensures |items| != 1 ==>
      var i := FirstCovering(probabilities, r);
      (x.Success? <==> i < |probabilities| && i < |items|) &&
      (x.Success? ==> x.value == items[i])
  {
    if |items| == 1 {
      return Success(items[0]);
    }
    var index := 0;
    var cumulative := 0.0;
    while true
      invariant 0 <= index <= |probabilities|
      invariant cumulative == Sum(probabilities[..index])
      invariant forall j :: 0 <= j < index ==> Cumulative(probabilities, j) < r
      decreases |probabilities| - index
    {
      if index >= |probabilities| {
        FirstCoveringSkip(probabilities, r, index);
        return Failure("index out of bounds");
      }
      SumPrefixStep(probabilities, index);
      cumulative := cumulative + probabilities[index];
      if !(cumulative < r) {
        break;
      }
      index := index + 1;
    }
    assert FirstCoveringFrom(probabilities, r, index) == index;
    FirstCoveringSkip(probabilities, r, index);
    if index >= |items| {
      return Failure("index out of bounds");
    }
    return Success(items[index]);
  }

  /** sampleItemInline: the same scan over parallel item and probability arrays. */
  method SampleItemInline(items: seq<int>, probabilities: seq<real>, r: real) returns (x: Result<int>)
    requires |items| > 0 && |probabilities| > 0 && |items| == |probabilities|
    ensures |items| == 1 ==> x == Success(items[0])
    ensures |items| > 1 ==>
      var i := FirstCovering(probabilities, r);
      (x.Success? <==> i < |items|) && (x.Success? ==> x.value == items[i])
  {
    x := SampleObjectInline(items, probabilities, r);
  }

  /** When the probabilities add up to at least r, the inline scan stops inside the list. */
  lemma InlineSucceedsWhenMassReachesR(p: seq<real>, r: real)
    requires |p| > 0 && r <= Sum(p)
    ensures FirstCovering(p, r) < |p|
  {
    assert p[..(|p| - 1) + 1] == p;
    assert r <= Cumulative(p, |p| - 1);
  }

  /** A draw at or below the first probability selects the first item. */
  lemma SmallDrawSelectsFirst(p: seq<real>, r: real)
    requires |p| > 0 && r <= p[0]
    ensures FirstCovering(p, r) == 0
  {
    SumPrefixStep(p, 0);
    assert Cumulative(p, 0) == p[0];
  }
}
