/**
 * Policies for the per-agent MDPs: a deterministic time-dependent policy, a
 * probability mixture of such policies, and the joint multi-agent solution
 * that draws one policy per agent at the start of every run.
 */
module MdpPolicies {
  import opened Numeric
  import opened Sampling

  /** A deterministic policy pi[t][s] with its expected reward and costs. */
  datatype MDPPolicyDeterministic = MDPPolicyDeterministic(
    pi: seq<seq<int>>,
    expectedReward: real,
    expectedInstantaneousCost: seq<seq<real>>,
    expectedTotalCost: seq<real>)
  {
    predicate Defines(t: int, s: int) {
      0 <= t < |pi| && 0 <= s < |pi[t]|
    }

    function GetAction(t: int, s: int): int
      requires Defines(t, s)
    {
      pi[t][s]
    }
  }

  /** A mixture of deterministic policies with the mixture's expected reward and costs. */
  datatype MDPPolicySet = MDPPolicySet(
    policies: seq<MDPPolicyDeterministic>,
    probabilities: seq<real>,
    expectedReward: real,
    expectedInstantaneousCost: seq<seq<real>>,
    expectedTotalCost: seq<real>)
  {
    /** What sampleItem asserts of the sampler getPolicy fills. */
    predicate CanSample() {
      |probabilities| >= |policies| &&
      |ClampedItems(probabilities, |policies|)| > 0 &&
      Abs(Sum(Probabilities(ClampedItems(probabilities, |policies|))) - 1.0) < 0.001
    }

    /** The policy getPolicy picks at the draw r. */
    function Chosen(r: real): (p: MDPPolicyDeterministic)
      requires CanSample()
      ensures exists i :: 0 <= i < |policies| && p == policies[i] && probabilities[i] > 0.0
    {
      var items := ClampedItems(probabilities, |policies|);
      var i := FirstCovering(Probabilities(items), r);
      policies[if i < |items| then items[i].item else items[|items| - 1].item]
    }

    /** getPolicy: fill a sampler with the clamped probabilities and draw an index at r. */
    method GetPolicy(r: real) returns (p: MDPPolicyDeterministic)
      requires CanSample()
      ensures p == Chosen(r)
    {
      var ps := FillSampler(probabilities, |policies|);
      var index := ps.SampleItem(r);
      assert index == Sampled(ps.items, r);
      p := policies[index];
    }
  }

  /** The first loop of getPolicy: one sampler item per policy, its probability clamped into [0, 1]. */
  method FillSampler(probabilities: seq<real>, n: nat) returns (ps: ProbabilitySample)
    requires n <= |probabilities|
    ensures fresh(ps) && ps.Valid() && ps.items == ClampedItems(probabilities, n)
  {
    ps := new ProbabilitySample();
    var i := 0;
    while i < n
      invariant 0 <= i <= n
      invariant ps.Valid() && ps.items == ClampedItems(probabilities, i)
      modifies ps
    {
      AddClamped(ps, probabilities, i);
      i := i + 1;
    }
  }

  /** One pass of that loop: the probability of policy i, clamped into [0, 1], is offered to the sampler. */
  method AddClamped(ps: ProbabilitySample, probabilities: seq<real>, i: nat)
    requires i < |probabilities| && ps.Valid() && ps.items == ClampedItems(probabilities, i)
    modifies ps
    ensures ps.Valid() && ps.items == ClampedItems(probabilities, i + 1)
  {
    var prob := probabilities[i];
    if prob > 1.0 {
      prob := 1.0;
    }
    if prob < 0.0 {
      prob := 0.0;
    }
    assert prob == Clamp01(probabilities[i]);
    ps.AddItem(i, prob);
  }

  /** MDPAgentSolutionPolicyBased: the two kinds of per-agent solution. */
  datatype MDPAgentSolution = Deterministic(policy: MDPPolicyDeterministic) | Mixture(mixture: MDPPolicySet)
  {
    predicate CanSample() {
      Mixture? ==> mixture.CanSample()
    }

    /** The policy getPolicy returns at the draw r; a deterministic policy returns itself. */
    function Chosen(r: real): MDPPolicyDeterministic
      requires CanSample()
    {
      match this
      case Deterministic(p) => p
      case Mixture(ps) => ps.Chosen(r)
    }

    method GetPolicy(r: real) returns (p: MDPPolicyDeterministic)
      requires CanSample()
      ensures p == Chosen(r)
    {
      match this
      case Deterministic(d) => p := d;
      case Mixture(ps) => p := ps.GetPolicy(r);
    }

    /** Every policy this solution can hand out defines an action at (t, s). */
    predicate Defines(t: int, s: int) {
      match this
      case Deterministic(p) => p.Defines(t, s)
      case Mixture(ps) => forall i :: 0 <= i < |ps.policies| ==> ps.policies[i].Defines(t, s)
    }

    function ExpectedReward(): real {
      match this
      case Deterministic(p) => p.expectedReward
      case Mixture(ps) => ps.expectedReward
    }

    predicate HasTotalCost(k: int) {
      0 <= k < |match this case Deterministic(p) => p.expectedTotalCost case Mixture(ps) => ps.expectedTotalCost|
    }

    function ExpectedTotalCost(k: int): real
      requires HasTotalCost(k)
    {
      match this
      case Deterministic(p) => p.expectedTotalCost[k]
      case Mixture(ps) => ps.expectedTotalCost[k]
    }

    predicate HasInstantaneousCost(k: int, t: int) {
      var c := match this case Deterministic(p) => p.expectedInstantaneousCost case Mixture(ps) => ps.expectedInstantaneousCost;
      0 <= k < |c| && 0 <= t < |c[k]|
    }

    function ExpectedInstantaneousCost(k: int, t: int): real
      requires HasInstantaneousCost(k, t)
    {
      match this
      case Deterministic(p) => p.expectedInstantaneousCost[k][t]
      case Mixture(ps) => ps.expectedInstantaneousCost[k][t]
    }
  }

  function TotalReward(solutions: seq<MDPAgentSolution>): real {
    if |solutions| == 0 then 0.0
    else TotalReward(solutions[..|solutions| - 1]) + solutions[|solutions| - 1].ExpectedReward()
  }

  function TotalCost(solutions: seq<MDPAgentSolution>, k: int): real
    requires forall i :: 0 <= i < |solutions| ==> solutions[i].HasTotalCost(k)
  {
    if |solutions| == 0 then 0.0
    else TotalCost(solutions[..|solutions| - 1], k) + solutions[|solutions| - 1].ExpectedTotalCost(k)
  }

  function TotalInstantaneousCost(solutions: seq<MDPAgentSolution>, k: int, t: int): real
    requires forall i :: 0 <= i < |solutions| ==> solutions[i].HasInstantaneousCost(k, t)
  {
    if |solutions| == 0 then 0.0
    else TotalInstantaneousCost(solutions[..|solutions| - 1], k, t) + solutions[|solutions| - 1].ExpectedInstantaneousCost(k, t)
  }

  /** The joint solution of the agents; a fresh policy is drawn per agent whenever a run starts (t = 0). */
  class CMDPSolutionPolicyBased {
    const solutions: seq<MDPAgentSolution>
    var currentPolicies: Option<seq<MDPPolicyDeterministic>>

    constructor(solutions: seq<MDPAgentSolution>)
      ensures this.solutions == solutions && currentPolicies.None?
    {
      this.solutions := solutions;
      currentPolicies := None;
    }

    /**
     * getActions at time t for the joint state, with one uniform draw per agent
     * used when t = 0.
     */
    method GetActions(t: int, jointState: seq<int>, draws: seq<real>) returns (actions: seq<int>)
      requires |jointState| >= |solutions|
      requires t == 0 ==> (|draws| >= |solutions| &&
        forall i :: 0 <= i < |solutions| ==> solutions[i].CanSample() && solutions[i].Defines(t, jointState[i]))
      requires t != 0 ==> (currentPolicies.Some? && |currentPolicies.value| == |solutions| &&
        forall i :: 0 <= i < |solutions| ==> currentPolicies.value[i].Defines(t, jointState[i]))
      modifies this
      ensures t == 0 ==> (currentPolicies.Some? && |currentPolicies.value| == |solutions| &&
        forall i :: 0 <= i < |solutions| ==> currentPolicies.value[i] == solutions[i].Chosen(draws[i]))
      ensures t != 0 ==> currentPolicies == old(currentPolicies)
      ensures currentPolicies.Some? && |currentPolicies.value| == |solutions|
      ensures |actions| == |solutions|
      ensures forall i :: 0 <= i < |solutions| ==>
        currentPolicies.value[i].Defines(t, jointState[i]) &&
        actions[i] == currentPolicies.value[i].pi[t][jointState[i]]
    {
      if t == 0 {
        var policies: seq<MDPPolicyDeterministic> := [];
        var i := 0;
        while i < |solutions|
          invariant 0 <= i <= |solutions| && |policies| == i
          invariant forall j :: 0 <= j < i ==> policies[j] == solutions[j].Chosen(draws[j])
        {
          var p := solutions[i].GetPolicy(draws[i]);
          policies := policies + [p];
          i := i + 1;
        }
        forall j | 0 <= j < |solutions|
          ensures policies[j].Defines(t, jointState[j])
        {
          ChosenDefines(solutions[j], draws[j], t, jointState[j]);
        }
        currentPolicies := Some(policies);
      }
      var current := currentPolicies.value;
      actions := [];
      var i := 0;
      while i < |solutions|
        invariant 0 <= i <= |solutions| && |actions| == i
        invariant forall j :: 0 <= j < i ==> actions[j] == current[j].pi[t][jointState[j]]
      {
        actions := actions + [current[i].GetAction(t, jointState[i])];
        i := i + 1;
      }
    }

    /** getExpectedReward: the sum of the agents' expected rewards. */
    method GetExpectedReward() returns (r: real)
      ensures r == TotalReward(solutions)
    {
      r := 0.0;
      var i := 0;
      while i < |solutions|
        invariant 0 <= i <= |solutions|
        invariant r == TotalReward(solutions[..i])
      {
        assert solutions[..i + 1][..i] == solutions[..i];
        r := r + solutions[i].ExpectedReward();
        i := i + 1;
      }
      assert solutions[..|solutions|] == solutions;
    }

    /** getExpectedTotalCost(k): the sum of the agents' expected total costs. */
    method GetExpectedTotalCost(k: int) returns (c: real)
      requires forall i :: 0 <= i < |solutions| ==> solutions[i].HasTotalCost(k)
      ensures c == TotalCost(solutions, k)
    {
      c := 0.0;
      var i := 0;
      while i < |solutions|
        invariant 0 <= i <= |solutions|
        invariant c == TotalCost(solutions[..i], k)
      {
        assert solutions[..i + 1][..i] == solutions[..i];
        c := c + solutions[i].ExpectedTotalCost(k);
        i := i + 1;
      }
      assert solutions[..|solutions|] == solutions;
    }

    /** getExpectedInstantaneousCost(k, t): the sum of the agents' expected costs at time t. */
    method GetExpectedInstantaneousCost(k: int, t: int) returns (c: real)
      requires forall i :: 0 <= i < |solutions| ==> solutions[i].HasInstantaneousCost(k, t)
      ensures c == TotalInstantaneousCost(solutions, k, t)
    {
      c := 0.0;
      var i := 0;
      while i < |solutions|
        invariant 0 <= i <= |solutions|
        invariant c == TotalInstantaneousCost(solutions[..i], k, t)
      {
        assert solutions[..i + 1][..i] == solutions[..i];
        c := c + solutions[i].ExpectedInstantaneousCost(k, t);
        i := i + 1;
      }
      assert solutions[..|solutions|] == solutions;
    }
  }

  /** A policy drawn from a solution defines every action the solution defines. */
  lemma ChosenDefines(sol: MDPAgentSolution, r: real, t: int, s: int)
    requires sol.CanSample() && sol.Defines(t, s)
    ensures sol.Chosen(r).Defines(t, s)
  {
    if sol.Mixture? {
      var p := sol.mixture.Chosen(r);
      var i :| 0 <= i < |sol.mixture.policies| && sol.mixture.policies[i] == p;
    }
  }
}
