/**
 * A multi-agent constrained planning instance: one CMDP per agent, a
 * horizon, and cost limits that bound either the total expected cost of
 * each resource (budget constraints) or its expected cost at every time
 * step (instantaneous constraints).
 */
module Instance {
  import opened Numeric
  import opened Cmdp

  datatype ConstraintType = Budget | Instantaneous

  class CMDPInstance {
    const cmdps: seq<CMDP>
    const costLimitsBudget: seq<real>
    const costLimitsInstantaneous: seq<seq<real>>
    const constraintType: ConstraintType
    const numDecisions: nat
    const numDomainResources: nat

    /** The private constructor for instantaneous constraints. */
    constructor Instantaneous(cmdps: seq<CMDP>, costLimits: seq<seq<real>>, numDecisions: nat)
      requires |cmdps| > 0
      requires cmdps[0].NumCostFunctions() == |costLimits|
      requires cmdps[0].base.nDecisions == numDecisions
      ensures this.cmdps == cmdps && costLimitsInstantaneous == costLimits && costLimitsBudget == []
      ensures constraintType == ConstraintType.Instantaneous
      ensures this.numDecisions == numDecisions && numDomainResources == |costLimits|
    {
      this.cmdps := cmdps;
      costLimitsInstantaneous := costLimits;
      costLimitsBudget := [];
      constraintType := ConstraintType.Instantaneous;
      this.numDecisions := numDecisions;
      numDomainResources := |costLimits|;
    }

    /** The private constructor for budget constraints. */
    constructor Budget(cmdps: seq<CMDP>, costLimits: seq<real>, numDecisions: nat)
      requires |cmdps| > 0
      requires cmdps[0].NumCostFunctions() == |costLimits|
      requires cmdps[0].base.nDecisions == numDecisions
      ensures this.cmdps == cmdps && costLimitsBudget == costLimits && costLimitsInstantaneous == []
      ensures constraintType == ConstraintType.Budget
      ensures this.numDecisions == numDecisions && numDomainResources == |costLimits|
    {
      this.cmdps := cmdps;
      costLimitsBudget := costLimits;
      costLimitsInstantaneous := [];
      constraintType := ConstraintType.Budget;
      this.numDecisions := numDecisions;
      numDomainResources := |costLimits|;
    }

    /** getCostLimit(k): only budget instances have a limit per resource. */
    function GetCostLimit(k: int): (r: Result<real>)
      requires constraintType == ConstraintType.Budget ==> 0 <= k < |costLimitsBudget|
      ensures r.Success? <==> constraintType == ConstraintType.Budget
      ensures r.Success? ==> r.value == costLimitsBudget[k]
    {
      if constraintType != ConstraintType.Budget then Failure("This problem instance does not have budget constraints")
      else Success(costLimitsBudget[k])
    }

    /** getCostLimit(k, t): only instantaneous instances have a limit per resource and time. */
    function GetCostLimitAt(k: int, t: int): (r: Result<real>)
      requires constraintType == ConstraintType.Instantaneous ==>
        0 <= k < |costLimitsInstantaneous| && 0 <= t < |costLimitsInstantaneous[k]|
      ensures r.Success? <==> constraintType == ConstraintType.Instantaneous
      ensures r.Success? ==> r.value == costLimitsInstantaneous[k][t]
    {
      if constraintType != ConstraintType.Instantaneous then Failure("This problem instance does not have instantaneous constraints")
      else Success(costLimitsInstantaneous[k][t])
    }
  }

  /** createInstantaneousInstance(cmdps, double[][], numDecisions). */
  method CreateInstantaneousInstance(cmdps: seq<CMDP>, costLimits: seq<seq<real>>, numDecisions: nat) returns (inst: CMDPInstance)
    requires |cmdps| > 0
    requires cmdps[0].NumCostFunctions() == |costLimits|
    requires cmdps[0].base.nDecisions == numDecisions
    ensures fresh(inst)
    ensures inst.constraintType == ConstraintType.Instantaneous && inst.costLimitsInstantaneous == costLimits
    ensures inst.cmdps == cmdps && inst.numDecisions == numDecisions && inst.numDomainResources == |costLimits|
  {
    inst := new CMDPInstance.Instantaneous(cmdps, costLimits, numDecisions);
  }

  /** The time-dependent limits of the one-dimensional factory: limit k at every one of the T epochs. */
  method ReplicateLimits(costLimits: seq<real>, numDecisions: nat) returns (limits: seq<seq<real>>)
    ensures |limits| == |costLimits|
    ensures forall k :: 0 <= k < |costLimits| ==> |limits[k]| == numDecisions
    ensures forall k, t :: 0 <= k < |costLimits| && 0 <= t < numDecisions ==> limits[k][t] == costLimits[k]
  {
    limits := [];
    var k := 0;
    while k < |costLimits|
      invariant 0 <= k <= |costLimits| && |limits| == k
      invariant forall k' :: 0 <= k' < k ==> |limits[k']| == numDecisions
      invariant forall k', t :: 0 <= k' < k && 0 <= t < numDecisions ==> limits[k'][t] == costLimits[k']
    {
      var row: seq<real> := [];
      var t := 0;
      while t < numDecisions
        invariant 0 <= t <= numDecisions && |row| == t
        invariant forall t' :: 0 <= t' < t ==> row[t'] == costLimits[k]
      {
        row := row + [costLimits[k]];
        t := t + 1;
      }
      limits := limits + [row];
      k := k + 1;
    }
  }

  /** createInstantaneousInstance(cmdps, double[], numDecisions): every limit holds at every epoch. */
  method CreateInstantaneousInstanceUniform(cmdps: seq<CMDP>, costLimits: seq<real>, numDecisions: nat) returns (inst: CMDPInstance)
    requires |cmdps| > 0
    requires cmdps[0].NumCostFunctions() == |costLimits|
    requires cmdps[0].base.nDecisions == numDecisions
    ensures fresh(inst)
    ensures inst.constraintType == ConstraintType.Instantaneous
    ensures inst.cmdps == cmdps && inst.numDecisions == numDecisions && inst.numDomainResources == |costLimits|
    ensures |inst.costLimitsInstantaneous| == |costLimits|
    ensures forall k :: 0 <= k < |costLimits| ==> |inst.costLimitsInstantaneous[k]| == numDecisions
    ensures forall k, t :: 0 <= k < |costLimits| && 0 <= t < numDecisions ==>
      inst.GetCostLimitAt(k, t) == Success(costLimits[k])
  {
    var limits := ReplicateLimits(costLimits, numDecisions);
    inst := new CMDPInstance.Instantaneous(cmdps, limits, numDecisions);
  }

  /** createBudgetInstance. */
  method CreateBudgetInstance(cmdps: seq<CMDP>, costLimits: seq<real>, numDecisions: nat) returns (inst: CMDPInstance)
    requires |cmdps| > 0
    requires cmdps[0].NumCostFunctions() == |costLimits|
    requires cmdps[0].base.nDecisions == numDecisions
    ensures fresh(inst)
    ensures inst.constraintType == ConstraintType.Budget && inst.costLimitsBudget == costLimits
    ensures inst.cmdps == cmdps && inst.numDecisions == numDecisions && inst.numDomainResources == |costLimits|
  {
    inst := new CMDPInstance.Budget(cmdps, costLimits, numDecisions);
  }
}
