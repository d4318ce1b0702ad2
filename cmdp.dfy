/**
 * A constrained MDP: an MDP together with K resource cost tables C_k(s, a)
 * and the smallest and largest entry of each table.
 */
module Cmdp {
  import opened Numeric
  import opened Mdp

  class CMDP {
    const base: MDP
    const costFunctions: seq<seq<seq<real>>>
    var minCost: seq<XReal>
    var maxCost: seq<XReal>

    /** The MDP part is created fresh; the per-resource extremes are scanned from +inf and -inf. */
    constructor(nStates: nat, nActions: nat, costFunctions: seq<seq<seq<real>>>, initialState: int, nDecisions: nat)
      requires forall k :: 0 <= k < |costFunctions| ==> Covers(costFunctions[k], nStates, nActions)
      ensures fresh(base)
      ensures base.nStates == nStates && base.nActions == nActions
      ensures base.initialState == initialState && base.nDecisions == nDecisions
      ensures !base.rewardsDefined && !base.transitionsDefined
      ensures |base.feasibleActions| == nDecisions
      ensures forall t :: 0 <= t < nDecisions ==> |base.feasibleActions[t]| == nStates
      ensures forall t, s :: 0 <= t < nDecisions && 0 <= s < nStates ==> base.feasibleActions[t][s] == ActionRange(nActions)
      ensures this.costFunctions == costFunctions
      ensures |minCost| == |costFunctions| && |maxCost| == |costFunctions|
      ensures forall k :: 0 <= k < |costFunctions| ==>
        IsMinOf(minCost[k], PosInf, Flatten(costFunctions[k], nStates, nActions)) &&
        IsMaxOf(maxCost[k], NegInf, Flatten(costFunctions[k], nStates, nActions))
    {
      var lo: seq<XReal> := [];
      var hi: seq<XReal> := [];
      var k := 0;
      while k < |costFunctions|
        invariant 0 <= k <= |costFunctions| && |lo| == k && |hi| == k
        invariant forall k' :: 0 <= k' < k ==>
          IsMinOf(lo[k'], PosInf, Flatten(costFunctions[k'], nStates, nActions)) &&
          IsMaxOf(hi[k'], NegInf, Flatten(costFunctions[k'], nStates, nActions))
      {
        var l, h := FoldExtremes(PosInf, NegInf, costFunctions[k], nStates, nActions);
        lo := lo + [l];
        hi := hi + [h];
        k := k + 1;
      }
      base := new MDP(nStates, nActions, initialState, nDecisions);
      this.costFunctions := costFunctions;
      minCost := lo;
      maxCost := hi;
    }

    function NumCostFunctions(): nat {
      |costFunctions|
    }

    /** getCost(k, s, a). */
    function GetCost(k: int, s: int, a: int): real
      requires 0 <= s < base.nStates && 0 <= a < base.nActions && 0 <= k < |costFunctions|
      requires Covers(costFunctions[k], base.nStates, base.nActions)
    {
      costFunctions[k][s][a]
    }

    function GetMinCost(k: int): XReal
      reads this
      requires 0 <= k < |minCost|
    {
      minCost[k]
    }

    function GetMaxCost(k: int): XReal
      reads this
      requires 0 <= k < |maxCost|
    {
      maxCost[k]
    }

    /** Every cost table covers the state and action ranges of the MDP. */
    predicate CostsCover() {
      forall k :: 0 <= k < |costFunctions| ==> Covers(costFunctions[k], base.nStates, base.nActions)
    }
  }
}
