/**
 * A stochastic finite-state controller for a POMDP: at time t in node q an
 * action is drawn from policy[t][q], and after action a and observation o the
 * next node is drawn from the weights w[q'][q][a][o].
 */
module PolicyFsc {
  import opened Numeric
  import opened Sampling
  import opened Beliefs

  /** The weights of every next node for node q, action a and observation o. */
  function NextNodeWeights(weights: seq<seq<seq<seq<real>>>>, numNodes: nat, q: nat, a: nat, o: nat): (w: seq<real>)
    requires |weights| == numNodes
    requires forall n :: 0 <= n < numNodes ==> q < |weights[n]| && a < |weights[n][q]| && o < |weights[n][q][a]|
    ensures |w| == numNodes && forall n :: 0 <= n < numNodes ==> w[n] == weights[n][q][a][o]
  {
    seq(numNodes, n requires 0 <= n < numNodes => weights[n][q][a][o])
  }

  /** weights is indexed [next node][node][action][observation] with the given sizes. */
  predicate WeightsShape(weights: seq<seq<seq<seq<real>>>>, numNodes: nat, numActions: nat, numObservations: nat) {
    |weights| == numNodes &&
    forall n :: 0 <= n < numNodes ==> (|weights[n]| == numNodes &&
      forall q :: 0 <= q < numNodes ==> (|weights[n][q]| == numActions &&
        forall a :: 0 <= a < numActions ==> |weights[n][q][a]| == numObservations))
  }

  /** policy is indexed [time][node][action] with the given sizes. */
  predicate PolicyShape(policy: seq<seq<seq<real>>>, numNodes: nat, numActions: nat) {
    forall t :: 0 <= t < |policy| ==> (|policy[t]| == numNodes &&
      forall q :: 0 <= q < numNodes ==> |policy[t][q]| == numActions)
  }

  /** The weights of the next nodes after (q, a, o) add up to 1 within 0.0001. */
  predicate WeightsSumToOne(weights: seq<seq<seq<seq<real>>>>, numNodes: nat, numActions: nat, numObservations: nat,
                            q: nat, a: nat, o: nat)
    requires WeightsShape(weights, numNodes, numActions, numObservations)
    requires q < numNodes && a < numActions && o < numObservations
  {
    Abs(Sum(NextNodeWeights(weights, numNodes, q, a, o)) - 1.0) < 0.0001
  }

  /** The constructor's first check: for every node, action and observation the next-node weights add up to 1. */
  predicate WeightsValid(weights: seq<seq<seq<seq<real>>>>, numNodes: nat, numActions: nat, numObservations: nat)
    requires WeightsShape(weights, numNodes, numActions, numObservations)
  {
    forall q, a, o :: 0 <= q < numNodes && 0 <= a < numActions && 0 <= o < numObservations ==>
      WeightsSumToOne(weights, numNodes, numActions, numObservations, q, a, o)
  }

  /** The row of action probabilities the check and getAction read, first n entries. */
  function ActionRow(policy: seq<seq<seq<real>>>, t: nat, q: nat, n: nat): (r: seq<real>)
    requires t < |policy| && q < |policy[t]| && n <= |policy[t][q]|
    ensures r == policy[t][q][..n]
  {
    policy[t][q][..n]
  }

  /** The constructor's second check: every entry lies in [-0.02, 1.02] and every row adds up to 1 within 0.0001. */
  predicate PolicyValid(policy: seq<seq<seq<real>>>, numNodes: nat, numActions: nat)
    requires PolicyShape(policy, numNodes, numActions)
  {
    forall t, q :: 0 <= t < |policy| && 0 <= q < numNodes ==>
      (forall a :: 0 <= a < numActions ==> -0.02 <= policy[t][q][a] <= 1.02) &&
      Abs(Sum(ActionRow(policy, t, q, numActions)) - 1.0) < 0.0001
  }

  /** The inner loop of the weight check: the weights of all next nodes added up. */
  method SumNextNodeWeights(weights: seq<seq<seq<seq<real>>>>, numNodes: nat, numActions: nat, numObservations: nat,
                            q: nat, a: nat, o: nat) returns (sum: real)
    requires WeightsShape(weights, numNodes, numActions, numObservations)
    requires q < numNodes && a < numActions && o < numObservations
    ensures sum == Sum(NextNodeWeights(weights, numNodes, q, a, o))
  {
    ghost var w := NextNodeWeights(weights, numNodes, q, a, o);
    sum := 0.0;
    var nextB := 0;
    while nextB < numNodes
      invariant 0 <= nextB <= numNodes
      invariant sum == Sum(w[..nextB])
    {
      SumPrefixStep(w, nextB);
      sum := sum + weights[nextB][q][a][o];
      nextB := nextB + 1;
    }
    assert w[..numNodes] == w;
  }

  /** The weight check for one node: true exactly when its weights add up to 1 for every action and observation. */
  method CheckNodeWeights(weights: seq<seq<seq<seq<real>>>>, numNodes: nat, numActions: nat, numObservations: nat, q: nat)
    returns (ok: bool)
    requires WeightsShape(weights, numNodes, numActions, numObservations) && q < numNodes
    ensures ok <==> forall a, o :: 0 <= a < numActions && 0 <= o < numObservations ==>
      WeightsSumToOne(weights, numNodes, numActions, numObservations, q, a, o)
  {
    var a := 0;
    while a < numActions
      invariant 0 <= a <= numActions
      invariant forall a', o :: 0 <= a' < a && 0 <= o < numObservations ==>
        WeightsSumToOne(weights, numNodes, numActions, numObservations, q, a', o)
    {
      var o := 0;
      while o < numObservations
        invariant 0 <= o <= numObservations
        invariant forall o' :: 0 <= o' < o ==> WeightsSumToOne(weights, numNodes, numActions, numObservations, q, a, o')
      {
        var sum := SumNextNodeWeights(weights, numNodes, numActions, numObservations, q, a, o);
        if !(Abs(sum - 1.0) < 0.0001) {
          assert !WeightsSumToOne(weights, numNodes, numActions, numObservations, q, a, o);
          return false;
        }
        o := o + 1;
      }
      a := a + 1;
    }
    return true;
  }

  /** The constructor's weight check: true exactly when none of its assertions would fail. */
  method CheckWeights(weights: seq<seq<seq<seq<real>>>>, numNodes: nat, numActions: nat, numObservations: nat)
    returns (ok: bool)
    requires WeightsShape(weights, numNodes, numActions, numObservations)
    ensures ok <==> WeightsValid(weights, numNodes, numActions, numObservations)
  {
    var bIndex := 0;
    while bIndex < numNodes
      invariant 0 <= bIndex <= numNodes
      invariant forall q, a, o :: 0 <= q < bIndex && 0 <= a < numActions && 0 <= o < numObservations ==>
        WeightsSumToOne(weights, numNodes, numActions, numObservations, q, a, o)
    {
      var nodeOk := CheckNodeWeights(weights, numNodes, numActions, numObservations, bIndex);
      if !nodeOk {
        return false;
      }
      bIndex := bIndex + 1;
    }
    return true;
  }

  /** One row of the policy check: true exactly when every entry is in range and the row adds up to 1. */
  method CheckPolicyRow(policy: seq<seq<seq<real>>>, numNodes: nat, numActions: nat, t: nat, q: nat) returns (ok: bool)
    requires PolicyShape(policy, numNodes, numActions) && t < |policy| && q < numNodes
    ensures ok <==> (forall a :: 0 <= a < numActions ==> -0.02 <= policy[t][q][a] <= 1.02) &&
                    Abs(Sum(ActionRow(policy, t, q, numActions)) - 1.0) < 0.0001
  {
    var sum := 0.0;
    var a := 0;
    while a < numActions
      invariant 0 <= a <= numActions
      invariant forall a' :: 0 <= a' < a ==> -0.02 <= policy[t][q][a'] <= 1.02
      invariant sum == Sum(ActionRow(policy, t, q, a))
    {
      if !(policy[t][q][a] >= -0.02 && policy[t][q][a] <= 1.02) {
        return false;
      }
      SumPrefixStep(policy[t][q], a);
      sum := sum + policy[t][q][a];
      a := a + 1;
    }
    return Abs(sum - 1.0) < 0.0001;
  }

  /** The constructor's policy check: true exactly when none of its assertions would fail. */
  method CheckPolicy(policy: seq<seq<seq<real>>>, numNodes: nat, numActions: nat) returns (ok: bool)
    requires PolicyShape(policy, numNodes, numActions)
    ensures ok <==> PolicyValid(policy, numNodes, numActions)
  {
    var t := 0;
    while t < |policy|
      invariant 0 <= t <= |policy|
      invariant forall t', q :: 0 <= t' < t && 0 <= q < numNodes ==>
        (forall a :: 0 <= a < numActions ==> -0.02 <= policy[t'][q][a] <= 1.02) &&
        Abs(Sum(ActionRow(policy, t', q, numActions)) - 1.0) < 0.0001
    {
      var bIndex := 0;
      while bIndex < numNodes
        invariant 0 <= bIndex <= numNodes
        invariant forall t', q :: 0 <= t' < t && 0 <= q < numNodes ==>
          (forall a :: 0 <= a < numActions ==> -0.02 <= policy[t'][q][a] <= 1.02) &&
          Abs(Sum(ActionRow(policy, t', q, numActions)) - 1.0) < 0.0001
        invariant forall q :: 0 <= q < bIndex ==>
          (forall a :: 0 <= a < numActions ==> -0.02 <= policy[t][q][a] <= 1.02) &&
          Abs(Sum(ActionRow(policy, t, q, numActions)) - 1.0) < 0.0001
      {
        var rowOk := CheckPolicyRow(policy, numNodes, numActions, t, bIndex);
        if !rowOk {
          return false;
        }
        bIndex := bIndex + 1;
      }
      t := t + 1;
    }
    return true;
  }

  /**
   * The sampling loops of getAction and update: one sampler item per index,
   * each probability (asserted to lie in [-0.01, 1.01]) clamped into [0, 1].
   */
  method FillClampedSampler(probabilities: seq<real>) returns (ps: ProbabilitySample)
    requires forall i :: 0 <= i < |probabilities| ==> -0.01 <= probabilities[i] <= 1.01
    ensures fresh(ps) && ps.Valid() && ps.items == ClampedItems(probabilities, |probabilities|)
  {
    ps := new ProbabilitySample();
    var i := 0;
    while i < |probabilities|
      invariant 0 <= i <= |probabilities|
      invariant fresh(ps) && ps.Valid() && ps.items == ClampedItems(probabilities, i)
      modifies ps
    {
      var prob := probabilities[i];
      if prob < 0.0 {
        prob := 0.0;
      }
      if prob > 1.0 {
        prob := 1.0;
      }
      assert prob == Clamp01(probabilities[i]);
      ps.AddItem(i, prob);
      i := i + 1;
    }
  }

  /** What sampleItem asserts of a sampler filled from probabilities: some item, and a total within 0.001 of 1. */
  predicate CanDraw(probabilities: seq<real>) {
    |ClampedItems(probabilities, |probabilities|)| > 0 &&
    Abs(Sum(Probabilities(ClampedItems(probabilities, |probabilities|))) - 1.0) < 0.001
  }

  /** The index drawn at r from the clamped probabilities: always one whose probability is positive. */
  function Draw(probabilities: seq<real>, r: real): (i: int)
    requires CanDraw(probabilities)
    ensures 0 <= i < |probabilities| && probabilities[i] > 0.0
  {
    SampledIsItem(ClampedItems(probabilities, |probabilities|), r);
    Sampled(ClampedItems(probabilities, |probabilities|), r)
  }

  /** The item sampleItem returns is one of the items. */
  lemma SampledIsItem(items: seq<Item>, r: real)
    requires |items| > 0
    ensures exists i :: 0 <= i < |items| && Sampled(items, r) == items[i].item
  {
    var i := FirstCovering(Probabilities(items), r);
    if i < |items| {
      assert Sampled(items, r) == items[i].item;
    } else {
      assert Sampled(items, r) == items[|items| - 1].item;
    }
  }

  class POMDPPolicyFSC {
    const numNodes: nat
    const numActions: nat
    const numObservations: nat
    const policy: seq<seq<seq<real>>>
    const weights: seq<seq<seq<seq<real>>>>
    const expectedReward: real
    const expectedCost: real
    const expectedValue: real
    var expectedValueUpperbound: XReal
    const startNode: int
    var currentNode: int
    var currentTime: int

    /** The tables have their shapes and the start node is a node. */
    predicate WellFormed() {
      WeightsShape(weights, numNodes, numActions, numObservations) &&
      PolicyShape(policy, numNodes, numActions) && 0 <= startNode < numNodes
    }

    /** The constructor: both checks must pass; execution starts at the start node at time 0. */
    constructor(numNodes: nat, numActions: nat, numObservations: nat, policy: seq<seq<seq<real>>>,
                weights: seq<seq<seq<seq<real>>>>, startNode: int, expectedValue: real, expectedReward: real,
                expectedCost: real)
      requires WeightsShape(weights, numNodes, numActions, numObservations)
      requires PolicyShape(policy, numNodes, numActions)
      requires WeightsValid(weights, numNodes, numActions, numObservations)
      requires PolicyValid(policy, numNodes, numActions)
      ensures this.numNodes == numNodes && this.numActions == numActions && this.numObservations == numObservations
      ensures this.policy == policy && this.weights == weights && this.startNode == startNode
      ensures this.expectedValue == expectedValue && this.expectedReward == expectedReward
      ensures this.expectedCost == expectedCost && expectedValueUpperbound == PosInf
      ensures currentNode == startNode && currentTime == 0
    {
      this.numNodes := numNodes;
      this.numActions := numActions;
      this.numObservations := numObservations;
      this.policy := policy;
      this.weights := weights;
      this.expectedValue := expectedValue;
      this.expectedReward := expectedReward;
      this.expectedCost := expectedCost;
      this.expectedValueUpperbound := PosInf;
      this.startNode := startNode;
      this.currentNode := startNode;
      this.currentTime := 0;
    }

    /** The action probabilities of the current node at time t. */
    function CurrentRow(t: nat): (r: seq<real>)
      reads this
      requires WellFormed() && t < |policy| && 0 <= currentNode < numNodes
      ensures r == ActionRow(policy, t, currentNode, numActions)
    {
      policy[t][currentNode]
    }

    /** getAction(b, t): the belief is ignored, t must be the current time, and the action is drawn at r from the clamped row. */
    method GetAction(b: BeliefPoint, t: nat, r: real) returns (a: int)
      requires WellFormed() && currentTime == t && t < |policy| && 0 <= currentNode < numNodes
      requires forall a :: 0 <= a < numActions ==> -0.01 <= policy[t][currentNode][a] <= 1.01
      requires CanDraw(CurrentRow(t))
      ensures a == Draw(CurrentRow(t), r)
      ensures 0 <= a < numActions && policy[t][currentNode][a] > 0.0
    {
      var ps := FillClampedSampler(policy[t][currentNode]);
      a := ps.SampleItem(r);
    }

    /** The next-node weights for the current node after a and o. */
    function CurrentWeights(a: nat, o: nat): (w: seq<real>)
      reads this
      requires WellFormed() && 0 <= currentNode < numNodes && a < numActions && o < numObservations
      ensures |w| == numNodes
    {
      NextNodeWeights(weights, numNodes, currentNode, a, o)
    }

    /** update(a, o): the next node is drawn at r from the clamped weights, and time advances by one. */
    method Update(a: int, o: int, r: real)
      requires WellFormed() && 0 <= currentNode < numNodes
      requires 0 <= a < numActions && 0 <= o < numObservations
      requires forall n :: 0 <= n < numNodes ==> -0.01 <= weights[n][currentNode][a][o] <= 1.01
      requires CanDraw(CurrentWeights(a, o))
      modifies this
      ensures currentNode == Draw(old(CurrentWeights(a, o)), r) && currentTime == old(currentTime) + 1
      ensures 0 <= currentNode < numNodes && weights[currentNode][old(currentNode)][a][o] > 0.0
      ensures expectedValueUpperbound == old(expectedValueUpperbound)
    {
      var ps := FillClampedSampler(NextNodeWeights(weights, numNodes, currentNode, a, o));
      currentNode := ps.SampleItem(r);
      currentTime := currentTime + 1;
    }

    /** reset: back to the start node at time 0. */
    method Reset()
      modifies this
      ensures currentNode == startNode && currentTime == 0
      ensures expectedValueUpperbound == old(expectedValueUpperbound)
    {
      currentNode := startNode;
      currentTime := 0;
    }
  }
}
