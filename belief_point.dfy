/**
 * A belief point: a probability vector over states together with the
 * bookkeeping the point-based solver hangs on it (a cache of P(o | b, a),
 * an upper bound on its value and whether that bound is tight, the beliefs
 * reached from it, and the action-observation history that identifies it).
 */
module Beliefs {
  import opened Numeric

  /** Java's `int` range. */
  const IntMin: int := -0x8000_0000
  const IntMax: int := 0x7fff_ffff

  /** Two's-complement wrap-around of an integer into the `int` range. */
  function WrapInt(x: int): (r: int)
    ensures IntMin <= r <= IntMax
    ensures IntMin <= x <= IntMax ==> r == x
  {
    (x - IntMin) % 0x1_0000_0000 + IntMin
  }

  /**
   * `List<Integer>.hashCode()`: h starts at 1 and becomes 31 * h + e for
   * every element e, in `int` arithmetic.
   */
  function HistoryHash(history: seq<int>): (h: int)
    ensures IntMin <= h <= IntMax
  {
    if |history| == 0 then 1
    else WrapInt(31 * HistoryHash(history[..|history| - 1]) + history[|history| - 1])
  }

  /**
   * `Integer x == Integer y` as the equality loop of equals writes it: the
   * references are compared, and two boxes of the same value are the same
   * object only when that value lies in the cache range -128..127 or the
   * two boxes are literally the same object (sameBox, which implies x == y).
   */
  function BoxedEqual(x: int, y: int, sameBox: bool): (r: bool)
    requires sameBox ==> x == y
    ensures r ==> x == y
  {
    sameBox || (x == y && -128 <= x <= 127)
  }

  /**
   * equals as written: the histories have the same length and their
   * elements compare equal as boxed Integers. sameBoxes says whether the two
   * lists hold the very same Integer objects, as a history copy does.
   */
  function AsWrittenEquals(h1: seq<int>, h2: seq<int>, sameBoxes: bool): (r: bool)
    requires sameBoxes ==> h1 == h2
    ensures r ==> h1 == h2
    ensures sameBoxes ==> r
  {
    |h1| == |h2| && forall i :: 0 <= i < |h1| ==> BoxedEqual(h1[i], h2[i], sameBoxes)
  }

  /** Two separately built histories [-200] (the point of state 199) are equal by value but not as written. */
  lemma AsWrittenEqualsMissesEqualHistories()
    ensures !AsWrittenEquals([-200], [-200], false)
  {
    assert !BoxedEqual([-200][0], [-200][0], false);
  }

  /** Within the Integer cache the reference comparison is the value comparison. */
  lemma {:induction false} AsWrittenEqualsInCache(h1: seq<int>, h2: seq<int>)
    requires forall i :: 0 <= i < |h1| ==> -128 <= h1[i] <= 127
    ensures AsWrittenEquals(h1, h2, false) <==> h1 == h2
  {
    if h1 == h2 {
      assert forall i :: 0 <= i < |h1| ==> BoxedEqual(h1[i], h2[i], false);
    }
  }

  class BeliefPoint {
    const belief: seq<real>
    var aoProbs: Option<seq<seq<real>>>
    var isStateBelief: bool
    var state: int
    var upperBound: XReal
    var upperBoundTight: bool
    /** The beliefs b^{a,o} computed from this point, or none where o cannot follow a. */
    var beliefTransitionMap: Option<seq<seq<Option<seq<real>>>>>
    var history: seq<int>

    /** A fresh point: no cached probabilities, not a state belief, bound +infinity and not tight, empty history. */
    constructor(belief: seq<real>)
      ensures this.belief == belief
      ensures aoProbs.None? && !isStateBelief && state == -1
      ensures upperBound == PosInf && !upperBoundTight
      ensures beliefTransitionMap.None? && history == []
    {
      this.belief := belief;
      aoProbs := None;
      isStateBelief := false;
      state := -1;
      upperBound := PosInf;
      upperBoundTight := false;
      beliefTransitionMap := None;
      history := [];
    }

    /** getBelief(s). */
    function GetBelief(s: int): (p: real)
      requires 0 <= s < |belief|
      ensures p == belief[s]
    {
      belief[s]
    }

    method AddToHistory(i: int)
      modifies this
      ensures history == old(history) + [i]
      ensures aoProbs == old(aoProbs) && isStateBelief == old(isStateBelief) && state == old(state)
      ensures upperBound == old(upperBound) && upperBoundTight == old(upperBoundTight)
      ensures beliefTransitionMap == old(beliefTransitionMap)
    {
      history := history + [i];
    }

    method SetHistory(h: seq<int>)
      modifies this
      ensures history == h
      ensures aoProbs == old(aoProbs) && isStateBelief == old(isStateBelief) && state == old(state)
      ensures upperBound == old(upperBound) && upperBoundTight == old(upperBoundTight)
      ensures beliefTransitionMap == old(beliefTransitionMap)
    {
      history := h;
    }

    /** getHistoryCopy: a list with the same elements; as a value it shares nothing with the point. */
    function GetHistoryCopy(): (h: seq<int>)
      reads this
      ensures |h| == |history| && forall i :: 0 <= i < |h| ==> h[i] == history[i]
    {
      history[..]
    }

    /** hashCode: the hash of the history list only. */
    function HashCode(): (h: int)
      reads this
      ensures IntMin <= h <= IntMax
    {
      HistoryHash(history)
    }

    /**
     * equals, with the elements compared by value: the histories have the
     * same length and agree element by element. The belief vector plays no
     * part, and equal points have equal hash codes. On histories within the
     * Integer cache this is the boxed comparison the source writes.
     */
    method Equals(other: BeliefPoint) returns (r: bool)
      ensures r <==> history == other.history
      ensures r ==> HashCode() == other.HashCode()
      ensures (forall i :: 0 <= i < |history| ==> -128 <= history[i] <= 127) ==> (r <==> AsWrittenEquals(history, other.history, false))
    {
      if forall i :: 0 <= i < |history| ==> -128 <= history[i] <= 127 {
        AsWrittenEqualsInCache(history, other.history);
      }
      var otherHistory := other.history;
      if |history| != |otherHistory| {
        return false;
      }
      var isEqual := true;
      var i := 0;
      while i < |history| && isEqual
        invariant 0 <= i <= |history|
        invariant isEqual <==> history[..i] == otherHistory[..i]
      {
        assert history[..i + 1] == history[..i] + [history[i]];
        assert otherHistory[..i + 1] == otherHistory[..i] + [otherHistory[i]];
        isEqual := isEqual && history[i] == otherHistory[i];
        i := i + 1;
      }
      assert history[..|history|] == history && otherHistory[..|history|] == otherHistory;
      if !isEqual {
        assert history[..i] != otherHistory[..i];
      }
      return isEqual;
    }

    function HasActionObservationProbabilities(): (r: bool)
      reads this
      ensures r <==> aoProbs.Some?
    {
      aoProbs.Some?
    }

    /** setActionObservationProbabilities: the cache may be filled once only. */
    method SetActionObservationProbabilities(probs: seq<seq<real>>)
      requires aoProbs.None?
      modifies this
      ensures aoProbs == Some(probs)
      ensures isStateBelief == old(isStateBelief) && state == old(state) && history == old(history)
      ensures upperBound == old(upperBound) && upperBoundTight == old(upperBoundTight)
      ensures beliefTransitionMap == old(beliefTransitionMap)
    {
      aoProbs := Some(probs);
    }

    /** getActionObservationProbability(a, o): P(o | b, a) from the cache, which must be filled. */
    function GetActionObservationProbability(a: int, o: int): (p: real)
      reads this
      requires aoProbs.Some? && 0 <= a < |aoProbs.value| && 0 <= o < |aoProbs.value[a]|
      ensures p == aoProbs.value[a][o]
    {
      aoProbs.value[a][o]
    }

    function GetUpperBound(): (u: XReal)
      reads this
      ensures u == upperBound
    {
      upperBound
    }

    /** setUpperBound: the new bound must exceed minus infinity. */
    method SetUpperBound(upper: XReal)
      requires upper != NegInf
      modifies this
      ensures upperBound == upper
      ensures aoProbs == old(aoProbs) && isStateBelief == old(isStateBelief) && state == old(state)
      ensures history == old(history) && upperBoundTight == old(upperBoundTight)
      ensures beliefTransitionMap == old(beliefTransitionMap)
    {
      upperBound := upper;
    }

    method SetStateBelief()
      modifies this
      ensures isStateBelief
      ensures aoProbs == old(aoProbs) && state == old(state) && history == old(history)
      ensures upperBound == old(upperBound) && upperBoundTight == old(upperBoundTight)
      ensures beliefTransitionMap == old(beliefTransitionMap)
    {
      isStateBelief := true;
    }

    method SetState(s: int)
      modifies this
      ensures state == s
      ensures aoProbs == old(aoProbs) && isStateBelief == old(isStateBelief) && history == old(history)
      ensures upperBound == old(upperBound) && upperBoundTight == old(upperBoundTight)
      ensures beliefTransitionMap == old(beliefTransitionMap)
    {
      state := s;
    }

    /** getState: only a state belief has a state. */
    function GetState(): (s: int)
      reads this
      requires isStateBelief
      ensures s == state
    {
      state
    }

    method SetUpperBoundTight()
      modifies this
      ensures upperBoundTight
      ensures aoProbs == old(aoProbs) && isStateBelief == old(isStateBelief) && state == old(state)
      ensures history == old(history) && upperBound == old(upperBound)
      ensures beliefTransitionMap == old(beliefTransitionMap)
    {
      upperBoundTight := true;
    }

    /** resetUpperBound: back to +infinity and not tight. */
    method ResetUpperBound()
      modifies this
      ensures upperBound == PosInf && !upperBoundTight
      ensures aoProbs == old(aoProbs) && isStateBelief == old(isStateBelief) && state == old(state)
      ensures history == old(history) && beliefTransitionMap == old(beliefTransitionMap)
    {
      upperBoundTight := false;
      upperBound := PosInf;
    }

    method SetBeliefTransitionMap(m: seq<seq<Option<seq<real>>>>)
      modifies this
      ensures beliefTransitionMap == Some(m)
      ensures aoProbs == old(aoProbs) && isStateBelief == old(isStateBelief) && state == old(state)
      ensures history == old(history) && upperBound == old(upperBound) && upperBoundTight == old(upperBoundTight)
    {
      beliefTransitionMap := Some(m);
    }
  }
}
