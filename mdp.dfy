/**
 * The finite-horizon MDP of one agent: states, actions, a decision horizon,
 * a (possibly time-dependent) reward table, a sparse (possibly
 * time-dependent) transition function and per-time feasible action lists.
 */
module Mdp {
  import opened Numeric

  /** Every entry [s][a] with s < nS and a < nA exists. */
  predicate Covers<T>(tab: seq<seq<T>>, nS: nat, nA: nat) {
    |tab| >= nS && forall s :: 0 <= s < nS ==> |tab[s]| >= nA
  }

  /** A sparse transition table: destination and probability lists of equal length per (s, a). */
  predicate SparseCovers(dest: seq<seq<seq<int>>>, prob: seq<seq<seq<real>>>, nS: nat, nA: nat) {
    Covers(dest, nS, nA) && Covers(prob, nS, nA) &&
    forall s, a :: 0 <= s < nS && 0 <= a < nA ==> |dest[s][a]| == |prob[s][a]|
  }

  /** The actions 0, 1, ..., nA - 1 in increasing order. */
  function ActionRange(nA: nat): (r: seq<int>)
    ensures |r| == nA && forall a :: 0 <= a < nA ==> r[a] == a
  {
    seq(nA, a => a)
  }

  /** initDefaultFeasibleActions: every action is feasible in every state at every time. */
  method InitDefaultFeasibleActions(nT: nat, nS: nat, nA: nat) returns (fa: seq<seq<seq<int>>>)
    ensures |fa| == nT
    ensures forall t :: 0 <= t < nT ==> |fa[t]| == nS
    ensures forall t, s :: 0 <= t < nT && 0 <= s < nS ==> fa[t][s] == ActionRange(nA)
  {
    fa := [];
    var t := 0;
    while t < nT
      invariant 0 <= t <= nT && |fa| == t
      invariant forall t' :: 0 <= t' < t ==> |fa[t']| == nS
      invariant forall t', s :: 0 <= t' < t && 0 <= s < nS ==> fa[t'][s] == ActionRange(nA)
    {
      var layer: seq<seq<int>> := [];
      var s := 0;
      while s < nS
        invariant 0 <= s <= nS && |layer| == s
        invariant forall s' :: 0 <= s' < s ==> layer[s'] == ActionRange(nA)
      {
        var actions: seq<int> := [];
        var a := 0;
        while a < nA
          invariant 0 <= a <= nA && actions == ActionRange(a)
        {
          actions := actions + [a];
          a := a + 1;
        }
        layer := layer + [actions];
        s := s + 1;
      }
      fa := fa + [layer];
      t := t + 1;
    }
  }

  /** The first nA entries of each of the first nS rows, row by row. */
  function Flatten(tab: seq<seq<real>>, nS: nat, nA: nat): (r: seq<real>)
    requires Covers(tab, nS, nA)
    ensures |r| == nS * nA
  {
    if nS == 0 then [] else Flatten(tab, nS - 1, nA) + tab[nS - 1][..nA]
  }

  /** Flatten applied to the first nT layers of a time-indexed table, layer by layer. */
  function FlattenTime(tab: seq<seq<seq<real>>>, nT: nat, nS: nat, nA: nat): seq<real>
    requires |tab| >= nT && forall t :: 0 <= t < nT ==> Covers(tab[t], nS, nA)
  {
    if nT == 0 then [] else FlattenTime(tab, nT - 1, nS, nA) + Flatten(tab[nT - 1], nS, nA)
  }

  lemma {:induction false} FlattenEntry(tab: seq<seq<real>>, nS: nat, nA: nat, s: nat, a: nat)
    requires Covers(tab, nS, nA) && s < nS && a < nA
    ensures s * nA + a < nS * nA && Flatten(tab, nS, nA)[s * nA + a] == tab[s][a]
  {
    if s < nS - 1 {
      FlattenEntry(tab, nS - 1, nA, s, a);
    } else {
      assert s * nA + a == (nS - 1) * nA + a;
    }
  }

  lemma {:induction false} FlattenIndex(tab: seq<seq<real>>, nS: nat, nA: nat, i: nat) returns (s: nat, a: nat)
    requires Covers(tab, nS, nA) && i < |Flatten(tab, nS, nA)|
    ensures s < nS && a < nA && Flatten(tab, nS, nA)[i] == tab[s][a]
  {
    var prev := Flatten(tab, nS - 1, nA);
    if i < |prev| {
      s, a := FlattenIndex(tab, nS - 1, nA, i);
    } else {
      s, a := nS - 1, i - |prev|;
    }
  }

  /**
   * Extremes of a flattened table bound every table entry, and each is the
   * starting value or one of the entries.
   */
  lemma ExtremesOfTable(lo: XReal, hi: XReal, lo0: XReal, hi0: XReal, tab: seq<seq<real>>, nS: nat, nA: nat)
    requires Covers(tab, nS, nA)
    requires IsMinOf(lo, lo0, Flatten(tab, nS, nA)) && IsMaxOf(hi, hi0, Flatten(tab, nS, nA))
    ensures forall s, a :: 0 <= s < nS && 0 <= a < nA ==>
      LessEq(lo, Finite(tab[s][a])) && LessEq(Finite(tab[s][a]), hi)
    ensures lo == lo0 || exists s, a :: 0 <= s < nS && 0 <= a < nA && lo == Finite(tab[s][a])
    ensures hi == hi0 || exists s, a :: 0 <= s < nS && 0 <= a < nA && hi == Finite(tab[s][a])
    ensures nS == 0 || nA == 0 ==> lo == lo0 && hi == hi0
  {
    var f := Flatten(tab, nS, nA);
    forall s, a | 0 <= s < nS && 0 <= a < nA
      ensures LessEq(lo, Finite(tab[s][a])) && LessEq(Finite(tab[s][a]), hi)
    {
      FlattenEntry(tab, nS, nA, s, a);
    }
    if lo != lo0 {
      var i :| 0 <= i < |f| && lo == Finite(f[i]);
      var s, a := FlattenIndex(tab, nS, nA, i);
    }
    if hi != hi0 {
      var i :| 0 <= i < |f| && hi == Finite(f[i]);
      var s, a := FlattenIndex(tab, nS, nA, i);
    }
  }

  /**
   * lo is what Math.min produces when folded over `cells` from lo0: a lower
   * bound of lo0 and of every cell, equal to lo0 or to one of the cells.
   */
  ghost predicate IsMinOf(lo: XReal, lo0: XReal, cells: seq<real>) {
    LessEq(lo, lo0) && (forall i :: 0 <= i < |cells| ==> LessEq(lo, Finite(cells[i]))) &&
    (lo == lo0 || exists i :: 0 <= i < |cells| && lo == Finite(cells[i]))
  }

  /** The Math.max counterpart of IsMinOf. */
  ghost predicate IsMaxOf(hi: XReal, hi0: XReal, cells: seq<real>) {
    LessEq(hi0, hi) && (forall i :: 0 <= i < |cells| ==> LessEq(Finite(cells[i]), hi)) &&
    (hi == hi0 || exists i :: 0 <= i < |cells| && hi == Finite(cells[i]))
  }

  lemma ExtremesStep(lo: XReal, hi: XReal, lo0: XReal, hi0: XReal, cells: seq<real>, x: real)
    requires IsMinOf(lo, lo0, cells) && IsMaxOf(hi, hi0, cells)
    ensures IsMinOf(MinX(lo, Finite(x)), lo0, cells + [x])
    ensures IsMaxOf(MaxX(hi, Finite(x)), hi0, cells + [x])
  {
    var c := cells + [x];
    forall i | 0 <= i < |c|
      ensures LessEq(MinX(lo, Finite(x)), Finite(c[i])) && LessEq(Finite(c[i]), MaxX(hi, Finite(x)))
    {
      if i < |cells| {
        LessEqTrans(MinX(lo, Finite(x)), lo, Finite(c[i]));
        LessEqTrans(Finite(c[i]), hi, MaxX(hi, Finite(x)));
      }
    }
    if lo != lo0 && MinX(lo, Finite(x)) == lo {
      var i :| 0 <= i < |cells| && lo == Finite(cells[i]);
      assert c[i] == cells[i];
    }
    if hi != hi0 && MaxX(hi, Finite(x)) == hi {
      var i :| 0 <= i < |cells| && hi == Finite(cells[i]);
      assert c[i] == cells[i];
    }
    if MinX(lo, Finite(x)) != lo {
      assert c[|cells|] == x;
    }
    if MaxX(hi, Finite(x)) != hi {
      assert c[|cells|] == x;
    }
    assert LessEq(MinX(lo, Finite(x)), lo0) by {
      LessEqTrans(MinX(lo, Finite(x)), lo, lo0);
    }
    assert LessEq(hi0, MaxX(hi, Finite(x))) by {
      LessEqTrans(hi0, hi, MaxX(hi, Finite(x)));
    }
  }

  lemma LessEqTrans(a: XReal, b: XReal, c: XReal)
    requires LessEq(a, b) && LessEq(b, c)
    ensures LessEq(a, c)
  {
  }

  lemma ExtremesConcat(lo1: XReal, hi1: XReal, lo2: XReal, hi2: XReal, lo0: XReal, hi0: XReal, c1: seq<real>, c2: seq<real>)
    requires IsMinOf(lo1, lo0, c1) && IsMaxOf(hi1, hi0, c1)
    requires IsMinOf(lo2, lo1, c2) && IsMaxOf(hi2, hi1, c2)
    ensures IsMinOf(lo2, lo0, c1 + c2) && IsMaxOf(hi2, hi0, c1 + c2)
  {
    var c := c1 + c2;
    forall i | 0 <= i < |c|
      ensures LessEq(lo2, Finite(c[i])) && LessEq(Finite(c[i]), hi2)
    {
      if i < |c1| {
        LessEqTrans(lo2, lo1, Finite(c[i]));
        LessEqTrans(Finite(c[i]), hi1, hi2);
      } else {
        assert c[i] == c2[i - |c1|];
      }
    }
    LessEqTrans(lo2, lo1, lo0);
    LessEqTrans(hi0, hi1, hi2);
    if lo2 != lo0 {
      if lo2 == lo1 {
        var i :| 0 <= i < |c1| && lo1 == Finite(c1[i]);
        assert c[i] == c1[i];
      } else {
        var i :| 0 <= i < |c2| && lo2 == Finite(c2[i]);
        assert c[|c1| + i] == c2[i];
      }
    }
    if hi2 != hi0 {
      if hi2 == hi1 {
        var i :| 0 <= i < |c1| && hi1 == Finite(c1[i]);
        assert c[i] == c1[i];
      } else {
        var i :| 0 <= i < |c2| && hi2 == Finite(c2[i]);
        assert c[|c1| + i] == c2[i];
      }
    }
  }

  function MinX(a: XReal, b: XReal): (r: XReal)
    ensures LessEq(r, a) && LessEq(r, b) && (r == a || r == b)
  {
    if Less(b, a) then b else a
  }

  /** The min/max scan over the first n entries of one row, continued from lo0 and hi0. */
  method FoldRow(lo0: XReal, hi0: XReal, row: seq<real>, n: nat) returns (lo: XReal, hi: XReal)
    requires n <= |row|
    ensures IsMinOf(lo, lo0, row[..n]) && IsMaxOf(hi, hi0, row[..n])
  {
    lo, hi := lo0, hi0;
    var a := 0;
    while a < n
      invariant 0 <= a <= n
      invariant IsMinOf(lo, lo0, row[..a]) && IsMaxOf(hi, hi0, row[..a])
    {
      ExtremesStep(lo, hi, lo0, hi0, row[..a], row[a]);
      assert row[..a + 1] == row[..a] + [row[a]];
      lo := MinX(lo, Finite(row[a]));
      hi := MaxX(hi, Finite(row[a]));
      a := a + 1;
    }
  }

  /**
   * The min/max scan over an nS x nA table that the reward setters and the
   * CMDP constructor perform, continued from the running values lo0 and hi0.
   */
  method FoldExtremes(lo0: XReal, hi0: XReal, tab: seq<seq<real>>, nS: nat, nA: nat)
    returns (lo: XReal, hi: XReal)
    requires Covers(tab, nS, nA)
    ensures IsMinOf(lo, lo0, Flatten(tab, nS, nA))
    ensures IsMaxOf(hi, hi0, Flatten(tab, nS, nA))
  {
    lo, hi := lo0, hi0;
    var s := 0;
    while s < nS
      invariant 0 <= s <= nS
      invariant IsMinOf(lo, lo0, Flatten(tab, s, nA)) && IsMaxOf(hi, hi0, Flatten(tab, s, nA))
    {
      var lo', hi' := FoldRow(lo, hi, tab[s], nA);
      ExtremesConcat(lo, hi, lo', hi', lo0, hi0, Flatten(tab, s, nA), tab[s][..nA]);
      lo, hi := lo', hi';
      s := s + 1;
    }
  }

  /** The same scan over the first nT layers of a time-indexed table, from +inf and -inf. */
  method TimeTableExtremes(tab: seq<seq<seq<real>>>, nT: nat, nS: nat, nA: nat)
    returns (lo: XReal, hi: XReal)
    requires |tab| >= nT && forall t :: 0 <= t < nT ==> Covers(tab[t], nS, nA)
    ensures IsMinOf(lo, PosInf, FlattenTime(tab, nT, nS, nA))
    ensures IsMaxOf(hi, NegInf, FlattenTime(tab, nT, nS, nA))
  {
    lo, hi := PosInf, NegInf;
    var t := 0;
    while t < nT
      invariant 0 <= t <= nT
      invariant IsMinOf(lo, PosInf, FlattenTime(tab, t, nS, nA))
      invariant IsMaxOf(hi, NegInf, FlattenTime(tab, t, nS, nA))
    {
      var lo', hi' := FoldExtremes(lo, hi, tab[t], nS, nA);
      ExtremesConcat(lo, hi, lo', hi', PosInf, NegInf, FlattenTime(tab, t, nS, nA), Flatten(tab[t], nS, nA));
      lo, hi := lo', hi';
      t := t + 1;
    }
  }

  class MDP {
    const nStates: nat
    const nActions: nat
    const initialState: int
    const nDecisions: nat

    var feasibleActions: seq<seq<seq<int>>>

    var rewardsDefined: bool
    var hasTimeDependentReward: bool
    var rewardFunction: Option<seq<seq<real>>>
    var timeRewardFunction: Option<seq<seq<seq<real>>>>
    var minReward: XReal
    var maxReward: XReal

    var transitionsDefined: bool
    var hasTimeDependentTransitions: bool
    var transitionDestinations: Option<seq<seq<seq<int>>>>
    var transitionProbabilities: Option<seq<seq<seq<real>>>>
    var timeTransitionDestinations: Option<seq<seq<seq<seq<int>>>>>
    var timeTransitionProbabilities: Option<seq<seq<seq<seq<real>>>>>

    /** A new MDP: no rewards or transitions yet, every action feasible everywhere. */
    constructor(nStates: nat, nActions: nat, initialState: int, nDecisions: nat)
      ensures this.nStates == nStates && this.nActions == nActions
      ensures this.initialState == initialState && this.nDecisions == nDecisions
      ensures !rewardsDefined && !hasTimeDependentReward && rewardFunction.None? && timeRewardFunction.None?
      ensures minReward == PosInf && maxReward == NegInf
      ensures !transitionsDefined && !hasTimeDependentTransitions
      ensures transitionDestinations.None? && transitionProbabilities.None?
      ensures timeTransitionDestinations.None? && timeTransitionProbabilities.None?
      ensures |feasibleActions| == nDecisions
      ensures forall t :: 0 <= t < nDecisions ==> |feasibleActions[t]| == nStates
      ensures forall t, s :: 0 <= t < nDecisions && 0 <= s < nStates ==> feasibleActions[t][s] == ActionRange(nActions)
    {
      this.nStates := nStates;
      this.nActions := nActions;
      this.initialState := initialState;
      this.nDecisions := nDecisions;
      rewardsDefined := false;
      hasTimeDependentReward := false;
      rewardFunction := None;
      timeRewardFunction := None;
      minReward := PosInf;
      maxReward := NegInf;
      transitionsDefined := false;
      hasTimeDependentTransitions := false;
      transitionDestinations := None;
      transitionProbabilities := None;
      timeTransitionDestinations := None;
      timeTransitionProbabilities := None;
      feasibleActions := [];
      new;
      feasibleActions := InitDefaultFeasibleActions(nDecisions, nStates, nActions);
    }

    /** The reward table selected by the time-dependence flag exists and covers the model. */
    predicate RewardsReady()
      reads this
    {
      rewardsDefined &&
      if hasTimeDependentReward then
        timeRewardFunction.Some? && |timeRewardFunction.value| == nDecisions &&
        forall t :: 0 <= t < nDecisions ==> Covers(timeRewardFunction.value[t], nStates, nActions)
      else
        rewardFunction.Some? && Covers(rewardFunction.value, nStates, nActions)
    }

    /** The transition table selected by the time-dependence flag exists and covers the model. */
    predicate TransitionsReady()
      reads this
    {
      transitionsDefined &&
      if hasTimeDependentTransitions then
        timeTransitionDestinations.Some? && timeTransitionProbabilities.Some? &&
        |timeTransitionDestinations.value| >= nDecisions && |timeTransitionProbabilities.value| >= nDecisions &&
        forall t :: 0 <= t < nDecisions ==>
          SparseCovers(timeTransitionDestinations.value[t], timeTransitionProbabilities.value[t], nStates, nActions)
      else
        transitionDestinations.Some? && transitionProbabilities.Some? &&
        SparseCovers(transitionDestinations.value, transitionProbabilities.value, nStates, nActions)
    }

    /** setRewardFunction with a stationary table R(s, a). */
    method SetRewardFunction(rf: seq<seq<real>>)
      requires Covers(rf, nStates, nActions)
      modifies this
      ensures rewardsDefined && !hasTimeDependentReward && rewardFunction == Some(rf)
      ensures timeRewardFunction == old(timeRewardFunction)
      ensures RewardsReady()
      ensures forall t, s, a :: 0 <= s < nStates && 0 <= a < nActions ==> GetRewardAt(t, s, a) == rf[s][a]
      ensures IsMinOf(minReward, PosInf, Flatten(rf, nStates, nActions))
      ensures IsMaxOf(maxReward, NegInf, Flatten(rf, nStates, nActions))
      ensures feasibleActions == old(feasibleActions)
      ensures transitionsDefined == old(transitionsDefined) && hasTimeDependentTransitions == old(hasTimeDependentTransitions)
      ensures transitionDestinations == old(transitionDestinations) && transitionProbabilities == old(transitionProbabilities)
      ensures timeTransitionDestinations == old(timeTransitionDestinations) && timeTransitionProbabilities == old(timeTransitionProbabilities)
    {
      rewardFunction := Some(rf);
      hasTimeDependentReward := false;
      rewardsDefined := true;
      minReward, maxReward := FoldExtremes(PosInf, NegInf, rf, nStates, nActions);
    }

    /** setRewardFunction with a time-dependent table R(t, s, a). */
    method SetTimeRewardFunction(trf: seq<seq<seq<real>>>)
      requires |trf| == nDecisions
      requires forall t :: 0 <= t < nDecisions ==> Covers(trf[t], nStates, nActions)
      modifies this
      ensures rewardsDefined && hasTimeDependentReward && timeRewardFunction == Some(trf)
      ensures rewardFunction == old(rewardFunction)
      ensures RewardsReady()
      ensures forall t, s, a :: 0 <= t < nDecisions && 0 <= s < nStates && 0 <= a < nActions ==>
        GetRewardAt(t, s, a) == trf[t][s][a]
      ensures IsMinOf(minReward, PosInf, FlattenTime(trf, nDecisions, nStates, nActions))
      ensures IsMaxOf(maxReward, NegInf, FlattenTime(trf, nDecisions, nStates, nActions))
      ensures feasibleActions == old(feasibleActions)
      ensures transitionsDefined == old(transitionsDefined) && hasTimeDependentTransitions == old(hasTimeDependentTransitions)
      ensures transitionDestinations == old(transitionDestinations) && transitionProbabilities == old(transitionProbabilities)
      ensures timeTransitionDestinations == old(timeTransitionDestinations) && timeTransitionProbabilities == old(timeTransitionProbabilities)
    {
      timeRewardFunction := Some(trf);
      hasTimeDependentReward := true;
      rewardsDefined := true;
      minReward, maxReward := TimeTableExtremes(trf, nDecisions, nStates, nActions);
    }

    /** getReward(s, a): only for a stationary reward table. */
    function GetReward(s: int, a: int): real
      reads this
      requires RewardsReady() && !hasTimeDependentReward
      requires 0 <= s < nStates && 0 <= a < nActions
    {
      rewardFunction.value[s][a]
    }

    /** getReward(t, s, a): the time table when rewards are time-dependent, the stationary one otherwise. */
    function GetRewardAt(t: int, s: int, a: int): real
      reads this
      requires RewardsReady()
      requires 0 <= s < nStates && 0 <= a < nActions
      requires hasTimeDependentReward ==> 0 <= t < nDecisions
    {
      if hasTimeDependentReward then timeRewardFunction.value[t][s][a] else rewardFunction.value[s][a]
    }

    function GetMinReward(): XReal
      reads this
      requires rewardsDefined
    {
      minReward
    }

    function GetMaxReward(): XReal
      reads this
      requires rewardsDefined
    {
      maxReward
    }

    /** setTransitionFunction with stationary tables: the time-dependent representation is dropped. */
    method SetTransitionFunction(dest: seq<seq<seq<int>>>, prob: seq<seq<seq<real>>>)
      modifies this
      ensures transitionsDefined && !hasTimeDependentTransitions
      ensures transitionDestinations == Some(dest) && transitionProbabilities == Some(prob)
      ensures timeTransitionDestinations.None? && timeTransitionProbabilities.None?
      ensures SparseCovers(dest, prob, nStates, nActions) ==> TransitionsReady()
      ensures rewardsDefined == old(rewardsDefined) && hasTimeDependentReward == old(hasTimeDependentReward)
      ensures rewardFunction == old(rewardFunction) && timeRewardFunction == old(timeRewardFunction)
      ensures minReward == old(minReward) && maxReward == old(maxReward)
      ensures feasibleActions == old(feasibleActions)
    {
      hasTimeDependentTransitions := false;
      transitionsDefined := true;
      transitionDestinations := Some(dest);
      transitionProbabilities := Some(prob);
      timeTransitionDestinations := None;
      timeTransitionProbabilities := None;
    }

    /** setTransitionFunction with time-dependent tables: the stationary representation is dropped. */
    method SetTimeTransitionFunction(dest: seq<seq<seq<seq<int>>>>, prob: seq<seq<seq<seq<real>>>>)
      modifies this
      ensures transitionsDefined && hasTimeDependentTransitions
      ensures transitionDestinations.None? && transitionProbabilities.None?
      ensures timeTransitionDestinations == Some(dest) && timeTransitionProbabilities == Some(prob)
      ensures (|dest| >= nDecisions && |prob| >= nDecisions &&
               forall t :: 0 <= t < nDecisions ==> SparseCovers(dest[t], prob[t], nStates, nActions))
              ==> TransitionsReady()
      ensures rewardsDefined == old(rewardsDefined) && hasTimeDependentReward == old(hasTimeDependentReward)
      ensures rewardFunction == old(rewardFunction) && timeRewardFunction == old(timeRewardFunction)
      ensures minReward == old(minReward) && maxReward == old(maxReward)
      ensures feasibleActions == old(feasibleActions)
    {
      hasTimeDependentTransitions := true;
      transitionsDefined := true;
      transitionDestinations := None;
      transitionProbabilities := None;
      timeTransitionDestinations := Some(dest);
      timeTransitionProbabilities := Some(prob);
    }

    /** getTransitionDestinations(s, a): only for stationary transitions. */
    function GetTransitionDestinations(s: int, a: int): seq<int>
      reads this
      requires TransitionsReady() && !hasTimeDependentTransitions
      requires 0 <= s < nStates && 0 <= a < nActions
    {
      transitionDestinations.value[s][a]
    }

    /** getTransitionProbabilities(s, a): only for stationary transitions. */
    function GetTransitionProbabilities(s: int, a: int): (r: seq<real>)
      reads this
      requires TransitionsReady() && !hasTimeDependentTransitions
      requires 0 <= s < nStates && 0 <= a < nActions
      ensures |r| == |GetTransitionDestinations(s, a)|
    {
      transitionProbabilities.value[s][a]
    }

    /** getTransitionDestinations(t, s, a): the time table iff transitions are time-dependent. */
    function GetTransitionDestinationsAt(t: int, s: int, a: int): seq<int>
      reads this
      requires TransitionsReady()
      requires 0 <= s < nStates && 0 <= a < nActions
      requires hasTimeDependentTransitions ==> 0 <= t < nDecisions
    {
      if hasTimeDependentTransitions then timeTransitionDestinations.value[t][s][a]
      else transitionDestinations.value[s][a]
    }

    /** getTransitionProbabilities(t, s, a): the time table iff transitions are time-dependent. */
    function GetTransitionProbabilitiesAt(t: int, s: int, a: int): (r: seq<real>)
      reads this
      requires TransitionsReady()
      requires 0 <= s < nStates && 0 <= a < nActions
      requires hasTimeDependentTransitions ==> 0 <= t < nDecisions
      ensures |r| == |GetTransitionDestinationsAt(t, s, a)|
    {
      if hasTimeDependentTransitions then timeTransitionProbabilities.value[t][s][a]
      else transitionProbabilities.value[s][a]
    }

    method SetFeasibleActions(fa: seq<seq<seq<int>>>)
      modifies this
      ensures feasibleActions == fa
      ensures rewardsDefined == old(rewardsDefined) && hasTimeDependentReward == old(hasTimeDependentReward)
      ensures rewardFunction == old(rewardFunction) && timeRewardFunction == old(timeRewardFunction)
      ensures minReward == old(minReward) && maxReward == old(maxReward)
      ensures transitionsDefined == old(transitionsDefined) && hasTimeDependentTransitions == old(hasTimeDependentTransitions)
      ensures transitionDestinations == old(transitionDestinations) && transitionProbabilities == old(transitionProbabilities)
      ensures timeTransitionDestinations == old(timeTransitionDestinations) && timeTransitionProbabilities == old(timeTransitionProbabilities)
    {
      feasibleActions := fa;
    }

    function GetFeasibleActions(t: int, s: int): seq<int>
      reads this
      requires 0 <= t < |feasibleActions| && 0 <= s < |feasibleActions[t]|
    {
      feasibleActions[t][s]
    }
  }
}
