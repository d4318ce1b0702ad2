/**
 * The finite-horizon POMDP policy graph: one layer of nodes per decision
 * epoch, an action per node, and for every node and observation the node of
 * the next layer to move to. Executing the policy walks the graph.
 */
module PolicyGraph {
  import opened Numeric
  import opened Beliefs

  /** Where an execution of the graph stands. */
  datatype Position = Position(layer: int, node: int)

  class POMDPPolicyGraph {
    const numLayers: int
    const layerNodeCount: seq<int>
    const numActions: int
    const numObservations: int
    const layerNodeActions: seq<seq<int>>
    const layerNodeBeliefs: Option<seq<seq<BeliefPoint?>>>
    const layerTransitions: seq<seq<seq<int>>>
    const startNode: int

    var expectedReward: real
    var expectedCost: real
    var expectedValue: real
    var expectedValueUpperbound: XReal

    var currentLayer: int
    var currentNode: int

    /**
     * The shape the solver builds: every layer has its node count of actions,
     * and every node of a layer below the last has, per observation, a node
     * of the next layer to move to.
     */
    predicate WellFormed() {
      numLayers >= 1 && |layerNodeCount| == numLayers && |layerNodeActions| == numLayers &&
      |layerTransitions| >= numLayers - 1 && 0 <= startNode < layerNodeCount[0] &&
      (forall l :: 0 <= l < numLayers ==> |layerNodeActions[l]| == layerNodeCount[l]) &&
      (forall l :: 0 <= l < numLayers - 1 ==> |layerTransitions[l]| == layerNodeCount[l]) &&
      (forall l, q :: 0 <= l < numLayers - 1 && 0 <= q < layerNodeCount[l] ==>
         |layerTransitions[l][q]| == numObservations &&
         forall o :: 0 <= o < numObservations ==> 0 <= layerTransitions[l][q][o] < layerNodeCount[l + 1])
    }

    /** A position the walk can be at: a node of an existing layer. */
    predicate Inside(p: Position)
      requires WellFormed()
    {
      0 <= p.layer < numLayers && 0 <= p.node < layerNodeCount[p.layer]
    }

    function Current(): Position
      reads this
    {
      Position(currentLayer, currentNode)
    }

    /** The graph is well formed and the current position is one of its nodes. */
    predicate Valid()
      reads this
    {
      WellFormed() && Inside(Current())
    }

    /** The position after observing o: the transition of the node below the last layer, standing still at the last layer. */
    function Next(p: Position, o: int): (q: Position)
      requires WellFormed() && Inside(p) && 0 <= o < numObservations
      ensures Inside(q)
      ensures p.layer < numLayers - 1 ==> q.layer == p.layer + 1
      ensures p.layer == numLayers - 1 ==> q == p
    {
      if p.layer < numLayers - 1 then Position(p.layer + 1, layerTransitions[p.layer][p.node][o]) else p
    }

    /** The position after a sequence of observations. */
    function Run(p: Position, os: seq<int>): (q: Position)
      requires WellFormed() && Inside(p)
      requires forall i :: 0 <= i < |os| ==> 0 <= os[i] < numObservations
      ensures Inside(q)
      decreases |os|
    {
      if |os| == 0 then p else Run(Next(p, os[0]), os[1..])
    }

    /** Starting at layer l, after k observations the walk is at layer min(l + k, numLayers - 1). */
    lemma {:induction false} RunLayer(p: Position, os: seq<int>)
      requires WellFormed() && Inside(p)
      requires forall i :: 0 <= i < |os| ==> 0 <= os[i] < numObservations
      ensures Run(p, os).layer == if p.layer + |os| < numLayers then p.layer + |os| else numLayers - 1
      decreases |os|
    {
      if |os| > 0 {
        RunLayer(Next(p, os[0]), os[1..]);
      }
    }

    /** Once at the last layer, no observation moves the walk. */
    lemma {:induction false} RunAtLastLayer(p: Position, os: seq<int>)
      requires WellFormed() && Inside(p) && p.layer == numLayers - 1
      requires forall i :: 0 <= i < |os| ==> 0 <= os[i] < numObservations
      ensures Run(p, os) == p
      decreases |os|
    {
      if |os| > 0 {
        RunAtLastLayer(Next(p, os[0]), os[1..]);
      }
    }

    /** The tables are stored as given; execution starts at layer 0 and the start node; no values are known yet. */
    constructor(numLayers: int, layerNodeCount: seq<int>, numActions: int, numObservations: int,
                layerNodeActions: seq<seq<int>>, layerNodeBeliefs: Option<seq<seq<BeliefPoint?>>>,
                layerTransitions: seq<seq<seq<int>>>, startNode: int)
      ensures this.numLayers == numLayers && this.layerNodeCount == layerNodeCount
      ensures this.numActions == numActions && this.numObservations == numObservations
      ensures this.layerNodeActions == layerNodeActions && this.layerNodeBeliefs == layerNodeBeliefs
      ensures this.layerTransitions == layerTransitions && this.startNode == startNode
      ensures currentLayer == 0 && currentNode == startNode
      ensures expectedReward == 0.0 && expectedCost == 0.0 && expectedValue == 0.0 && expectedValueUpperbound == PosInf
      ensures WellFormed() ==> Valid()
    {
      this.numLayers := numLayers;
      this.layerNodeCount := layerNodeCount;
      this.numActions := numActions;
      this.numObservations := numObservations;
      this.layerNodeActions := layerNodeActions;
      this.layerNodeBeliefs := layerNodeBeliefs;
      this.layerTransitions := layerTransitions;
      this.startNode := startNode;
      expectedReward := 0.0;
      expectedCost := 0.0;
      expectedValue := 0.0;
      expectedValueUpperbound := PosInf;
      currentLayer := 0;
      currentNode := startNode;
    }

    /** getAction(b, t): the belief is ignored, t must be the current layer, and the current node's action is taken. */
    function GetAction(b: BeliefPoint, t: int): (a: int)
      reads this
      requires Valid() && currentLayer == t
      ensures a == layerNodeActions[t][currentNode]
    {
      layerNodeActions[currentLayer][currentNode]
    }

    /** update(a, o): below the last layer the walk follows the transition for o; at the last layer nothing changes. */
    method Update(a: int, o: int)
      requires Valid()
      requires 0 <= a < numActions && 0 <= o < numObservations
      modifies this
      ensures Valid() && Current() == Next(old(Current()), o)
      ensures expectedReward == old(expectedReward) && expectedCost == old(expectedCost)
      ensures expectedValue == old(expectedValue) && expectedValueUpperbound == old(expectedValueUpperbound)
    {
      if currentLayer < numLayers - 1 {
        var transitions := layerTransitions[currentLayer];
        currentNode := transitions[currentNode][o];
        if currentLayer < numLayers - 1 {
          currentLayer := currentLayer + 1;
        }
        assert 0 <= currentLayer < numLayers;
        assert 0 <= currentNode < layerNodeCount[currentLayer];
      }
    }

    /** reset: back to layer 0 and the start node. */
    method Reset()
      requires WellFormed()
      modifies this
      ensures Valid() && Current() == Position(0, startNode)
      ensures expectedReward == old(expectedReward) && expectedCost == old(expectedCost)
      ensures expectedValue == old(expectedValue) && expectedValueUpperbound == old(expectedValueUpperbound)
    {
      currentLayer := 0;
      currentNode := startNode;
    }
  }
}
