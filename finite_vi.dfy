/**
 * FiniteVI: the finite-horizon point-based value iteration that prices one
 * agent's (C)POMDP for a fixed multiplier lambda. Every decision epoch t has
 * a list of belief points and a set of alpha vectors (a lower bound on the
 * value); the points also carry a sawtooth upper bound. Iterations sweep the
 * epochs backwards with a randomised Perseus backup stage and an upper-bound
 * update, stop on the gap at the initial belief, and otherwise walk forward
 * from the initial belief to collect new points where the gap is largest.
 * The final vector sets become a policy graph.
 */
module FiniteHorizonVI {
  import opened Numeric
  import opened Mdp
  import opened Beliefs
  import opened AlphaVectors
  import opened Pomdp
  import opened PointBackups
  import opened PolicyGraph
  import opened GraphEvaluation

  /** The corner belief of state s. */
  function Unit(n: nat, s: nat): (r: seq<real>)
    ensures |r| == n
  {
    seq(n, i => if i == s then 1.0 else 0.0)
  }

  /**
   * What the solver needs of the model: stationary transitions, rewards and
   * observations; for a constrained POMDP a cost table 0; at least one state,
   * action and observation; and an initial belief over the states with a
   * positive entry.
   */
  predicate ModelReady(p: POMDP)
    reads p.base
  {
    p.Ready() && p.base.RewardsReady() && !p.base.hasTimeDependentReward &&
    (p.costFunctions.Some? ==> p.CostsReady() && |p.costFunctions.value| >= 1) &&
    p.base.nStates >= 1 && p.base.nActions >= 1 && p.nObservations >= 1 &&
    |p.b0.belief| == p.base.nStates && HasMass(p.b0.belief)
  }

  /** A table of updated beliefs b^{a,o}: one entry per action and observation, each present one the posterior of a reachable observation. */
  predicate TableOk(m: Tables, b: seq<real>, tm: seq<seq<Option<seq<real>>>>) {
    ValidTables(m) && |b| == m.nS && |tm| == m.nA &&
    (forall a :: 0 <= a < m.nA ==> |tm[a]| == m.nO) &&
    forall a, o :: 0 <= a < m.nA && 0 <= o < m.nO && tm[a][o].Some? ==>
      AOProb(m, b, a, o) > 0.0 && tm[a][o].value == Posterior(m, b, a, o)
  }

  /** The empty table of updated beliefs. */
  function EmptyTable(nA: nat, nO: nat): (tm: seq<seq<Option<seq<real>>>>)
    ensures |tm| == nA && forall a :: 0 <= a < nA ==> |tm[a]| == nO && forall o :: 0 <= o < nO ==> tm[a][o].None?
  {
    seq(nA, a => seq(nO, o => None))
  }

  /**
   * A point whose caches belong to the model: one entry per state, cached
   * probabilities P(o | b, a) of its own belief, a state in range for a state
   * belief, a positive entry otherwise, and a transition map of posteriors.
   */
  ghost predicate Cached(p: POMDP, bp: BeliefPoint)
    reads p.base, bp
    requires p.Ready()
  {
    |bp.belief| == p.base.nStates && p.Coherent(bp) &&
    (bp.isStateBelief ==> 0 <= bp.state < p.base.nStates) &&
    (!bp.isStateBelief ==> HasMass(bp.belief)) &&
    (bp.beliefTransitionMap.Some? ==> TableOk(p.Tab(), bp.belief, bp.beliefTransitionMap.value))
  }

  /** The variable fields of a point: cached probabilities, state belief or not, state, bound, tightness, transition map, history. */
  type PointFields = (Option<seq<seq<real>>>, bool, int, XReal, bool, Option<seq<seq<Option<seq<real>>>>>, seq<int>)

  /**
   * Fields in good order for a point with this belief: the cached
   * probabilities, if any, are those of the belief, a state belief names a
   * state, any other belief has a positive entry, the transition map holds
   * posteriors, and the point is tight only with a finite bound.
   */
  ghost predicate FieldsOk(m: Tables, belief: seq<real>, f: PointFields) {
    ValidTables(m) && |belief| == m.nS &&
    (f.0.Some? ==> f.0.value == AOTable(m, belief)) &&
    (f.1 ==> 0 <= f.2 < m.nS) && (!f.1 ==> HasMass(belief)) &&
    (f.5.Some? ==> TableOk(m, belief, f.5.value)) &&
    (f.4 ==> f.3.Finite?)
  }

  /** Everything a point holds besides its belief. */
  function Fields(b: BeliefPoint): PointFields
    reads b
  {
    (b.aoProbs, b.isStateBelief, b.state, b.upperBound, b.upperBoundTight, b.beliefTransitionMap, b.history)
  }

  /** A point in good order for the model. */
  ghost predicate PointOk(p: POMDP, bp: BeliefPoint)
    reads p.base, bp
    requires p.Ready()
  {
    FieldsOk(p.Tab(), bp.belief, Fields(bp))
  }

  /** A point with nothing cached yet, of the right length, on a state in range or with a positive entry, and not tight. */
  predicate Plain(bp: BeliefPoint, nS: nat)
    reads bp
  {
    |bp.belief| == nS && bp.aoProbs.None? && bp.beliefTransitionMap.None? && !bp.upperBoundTight &&
    (bp.isStateBelief ==> 0 <= bp.state < nS) && (!bp.isStateBelief ==> HasMass(bp.belief))
  }

  /** Such a point is in good order for any model with nS states. */
  lemma PlainIsOk(p: POMDP, bp: BeliefPoint)
    requires p.Ready() && Plain(bp, p.base.nStates)
    ensures PointOk(p, bp)
  {
  }

  /** Every point of the layer has a finite upper bound. */
  predicate Bounded(layer: seq<BeliefPoint>)
    reads layer
  {
    forall i :: 0 <= i < |layer| ==> layer[i].upperBound.Finite?
  }

  /** A layer whose points did not change keeps its finite bounds. */
  twostate lemma KeptBounded(layer: seq<BeliefPoint>)
    requires old(Bounded(layer)) && forall i :: 0 <= i < |layer| ==> unchanged(layer[i])
    ensures Bounded(layer)
  {
  }

  /** What the sawtooth bound reads of a point with a finite bound. */
  function Stored(p: BeliefPoint): StoredBound
    reads p
    requires p.upperBound.Finite?
  {
    StoredBound(p.belief, p.isStateBelief, p.state, p.upperBound.value)
  }

  /** The stored bounds of a layer. */
  function Snapshot(layer: seq<BeliefPoint>): (P: seq<StoredBound>)
    reads layer
    requires Bounded(layer)
    ensures |P| == |layer| && forall i :: 0 <= i < |layer| ==> P[i] == Stored(layer[i])
  {
    seq(|layer|, i requires 0 <= i < |layer| && layer[i].upperBound.Finite? reads layer => Stored(layer[i]))
  }

  /** The history that marks the point of state s made by initBeliefSets. */
  function StateTag(s: int): seq<int> {
    [-(s + 1)]
  }

  /** The histories of the points made per state by initBeliefSets. */
  function StateTags(n: nat): (H: set<seq<int>>)
    ensures forall s :: 0 <= s < n ==> StateTag(s) in H
    ensures forall h :: h in H ==> exists s :: 0 <= s < n && h == StateTag(s)
  {
    set s | 0 <= s < n :: StateTag(s)
  }

  /**
   * The k-th point initBeliefSets adds to a layer: for k < nS the corner of
   * state k, a state belief with history [-(k+1)]; after that the copy
   * number k - nS of b0, with b0's belief and history [-(k-nS+1)]. All have
   * an unknown bound.
   */
  predicate InitialOk(c: BeliefPoint, k: nat, nS: nat, b0: seq<real>)
    reads c
  {
    c.upperBound == PosInf && !c.upperBoundTight &&
    if k < nS then
      c.belief == Unit(nS, k) && c.isStateBelief && c.state == k && c.history == StateTag(k)
    else
      c.belief == b0 && !c.isStateBelief && c.history == StateTag(k - nS)
  }

  /** The number of points before the corners in layer t: b0 opens layer 0 and no other. */
  function Opening(t: nat): nat
  {
    if t == 0 then 1 else 0
  }

  /** A layer as initBeliefSets builds it: first points, then the 2 nS points it adds, all of them with nothing cached yet. */
  predicate BuiltLayer(layer: seq<BeliefPoint>, first: nat, nS: nat, b0: seq<real>)
    reads layer
  {
    |layer| == first + 2 * nS &&
    forall i :: first <= i < |layer| ==> InitialOk(layer[i], i - first, nS, b0) && Plain(layer[i], nS)
  }

  /** The k-th point initBeliefSets adds to a layer, as a new object. */
  method NewPoint(k: nat, nS: nat, b0: seq<real>) returns (bp: BeliefPoint)
    requires k < 2 * nS && |b0| == nS && HasMass(b0)
    ensures fresh(bp) && InitialOk(bp, k, nS, b0) && Plain(bp, nS)
  {
    if k < nS {
      bp := new BeliefPoint(Unit(nS, k));
      bp.AddToHistory((k + 1) * -1);
      bp.SetState(k);
      bp.SetStateBelief();
      assert bp.belief[k] == 1.0;
    } else {
      bp := new BeliefPoint(b0);
      bp.AddToHistory((k - nS + 1) * -1);
    }
  }

  /** A layer made of some first points followed by the points initBeliefSets adds is built as it should be. */
  lemma BuiltFrom(head: seq<BeliefPoint>, pts: seq<BeliefPoint>, nS: nat, b0: seq<real>)
    requires |pts| == 2 * nS
    requires forall i :: 0 <= i < |pts| ==> InitialOk(pts[i], i, nS, b0) && Plain(pts[i], nS)
    ensures BuiltLayer(head + pts, |head|, nS, b0)
  {
    forall i | |head| <= i < |head + pts|
      ensures InitialOk((head + pts)[i], i - |head|, nS, b0) && Plain((head + pts)[i], nS)
    {
      assert (head + pts)[i] == pts[i - |head|];
    }
  }

  /** The 2 nS points initBeliefSets adds to a layer, all of them new and distinct. */
  method NewPoints(nS: nat, b0: seq<real>) returns (pts: seq<BeliefPoint>)
    requires |b0| == nS && HasMass(b0)
    ensures |pts| == 2 * nS
    ensures forall i :: 0 <= i < |pts| ==> fresh(pts[i]) && InitialOk(pts[i], i, nS, b0) && Plain(pts[i], nS)
    ensures forall i, j :: 0 <= i < j < |pts| ==> pts[i] != pts[j]
  {
    pts := [];
    var k := 0;
    while k < 2 * nS
      invariant 0 <= k <= 2 * nS && |pts| == k
      invariant forall i :: 0 <= i < k ==> fresh(pts[i]) && InitialOk(pts[i], i, nS, b0) && Plain(pts[i], nS)
      invariant forall i, j :: 0 <= i < j < k ==> pts[i] != pts[j]
    {
      var bp := NewPoint(k, nS, b0);
      pts := pts + [bp];
      k := k + 1;
    }
  }

  // ---------------------------------------------------------------------------
  // The set-up of solveModel: immediate rewards, the last epoch's vectors and
  // the bounds of the last layer.
  // ---------------------------------------------------------------------------

  /** The weights the solver and the evaluation of a graph use: R - lambda C_0 for a constrained POMDP, R otherwise. */
  function StepWeights(p: POMDP, lambda: real): (w: seq<seq<real>>)
    reads p.base
    requires ModelReady(p)
    ensures Covers(w, p.base.nStates, p.base.nActions)
  {
    var R := p.base.rewardFunction.value;
    if p.costFunctions.Some? then Lagrangian(R, p.costFunctions.value[0], lambda, p.base.nStates, p.base.nActions) else R
  }

  /** getTransitionReward(s, a): the weight of a in s, read from the reward and the first cost function. */
  function TransitionReward(p: POMDP, lambda: real, s: nat, a: nat): (r: real)
    reads p.base
    requires ModelReady(p) && s < p.base.nStates && a < p.base.nActions
    ensures r == StepWeights(p, lambda)[s][a]
  {
    if p.costFunctions.Some? then p.GetReward(s, a) - lambda * p.GetCost(0, s, a) else p.GetReward(s, a)
  }

  /** The entries of the immediate reward vector of action a, state by state. */
  method RewardEntries(p: POMDP, lambda: real, a: nat) returns (entries: seq<real>)
    requires ModelReady(p) && a < p.base.nActions
    ensures |entries| == p.base.nStates
    ensures forall s :: 0 <= s < p.base.nStates ==> entries[s] == StepWeights(p, lambda)[s][a]
  {
    entries := [];
    var s := 0;
    while s < p.base.nStates
      invariant 0 <= s <= p.base.nStates && |entries| == s
      invariant forall u :: 0 <= u < s ==> entries[u] == StepWeights(p, lambda)[u][a]
    {
      entries := entries + [TransitionReward(p, lambda, s, a)];
      s := s + 1;
    }
  }

  /** imm holds one vector per action a, whose entry in state s is the weight of a in s. */
  predicate RewardVectors(imm: seq<AlphaVector>, p: POMDP, lambda: real)
    reads p.base
    requires ModelReady(p)
  {
    ImmediateShape(imm, p.Tab()) &&
    forall a, s :: 0 <= a < p.base.nActions && 0 <= s < p.base.nStates ==> imm[a].entries[s] == StepWeights(p, lambda)[s][a]
  }

  /** The immediate reward vectors of solveModel: per action a, the weights of a in every state, with action a and no point. */
  method ImmediateRewards(p: POMDP, lambda: real) returns (imm: seq<AlphaVector>)
    requires ModelReady(p)
    ensures ImmediateShape(imm, p.Tab())
    ensures forall a, s :: 0 <= a < p.base.nActions && 0 <= s < p.base.nStates ==> imm[a].entries[s] == StepWeights(p, lambda)[s][a]
    ensures forall a :: 0 <= a < |imm| ==> imm[a].belief.None?
  {
    imm := [];
    var a := 0;
    while a < p.base.nActions
      invariant 0 <= a <= p.base.nActions && |imm| == a
      invariant forall c :: 0 <= c < a ==> |imm[c].entries| == p.base.nStates && imm[c].action == c && imm[c].belief.None?
      invariant forall c, s :: 0 <= c < a && 0 <= s < p.base.nStates ==> imm[c].entries[s] == StepWeights(p, lambda)[s][c]
    {
      var entries := RewardEntries(p, lambda, a);
      imm := imm + [NewVector(entries).(action := a)];
      a := a + 1;
    }
  }

  /** The vectors of the last epoch: one all-zero vector per action. */
  function ZeroVectors(nS: nat, nA: nat): (U: seq<AlphaVector>)
    ensures |U| == nA && Sized(U, nS)
    ensures forall a :: 0 <= a < nA ==> U[a].action == a && U[a].belief.None?
  {
    seq(nA, a => NewVector(Zeros(nS)).(action := a))
  }

  lemma {:induction false} ZeroDot(b: seq<real>, n: nat)
    requires n <= |b|
    ensures Dot(Zeros(|b|), b, n) == 0.0
  {
    if n > 0 {
      ZeroDot(b, n - 1);
    }
  }

  /** At the horizon the lower bound is 0 at every belief, as the upper bound is. */
  lemma ZeroVectorsValue(b: seq<real>, nA: nat)
    requires nA >= 1
    ensures MaxValue(b, ZeroVectors(|b|, nA), nA) == Finite(0.0)
  {
    var U := ZeroVectors(|b|, nA);
    ZeroDot(b, |b|);
    assert forall j :: 0 <= j < nA ==> DotProduct(U[j], b) == 0.0;
    MaxValueIsMax(b, U, nA);
  }

  /** A point's fields with the bound set to 0. */
  function ZeroBound(f: PointFields): PointFields {
    (f.0, f.1, f.2, Finite(0.0), f.4, f.5, f.6)
  }

  /** setUpperBound(0.0) on every point of a layer; nothing else changes. */
  method ZeroBounds(layer: seq<BeliefPoint>)
    modifies set q | q in layer
    ensures forall q :: q in layer ==> Fields(q) == ZeroBound(old(Fields(q)))
  {
    var k := 0;
    while k < |layer|
      invariant 0 <= k <= |layer|
      invariant forall q :: q in layer ==> Fields(q) == if q in layer[..k] then ZeroBound(old(Fields(q))) else old(Fields(q))
    {
      layer[k].SetUpperBound(Finite(0.0));
      assert layer[..k + 1] == layer[..k] + [layer[k]];
      k := k + 1;
    }
    assert layer[..k] == layer;
  }

  // ---------------------------------------------------------------------------
  // getBackProjections, backup and getUpperBoundSawTooth, over the model's
  // tables read as values.
  // ---------------------------------------------------------------------------

  /** The inner loop of getBackProjections: entry s of the projection of v for a and o. */
  method ProjectionEntry(m: Tables, v: seq<real>, a: nat, o: nat, s: nat) returns (val: real)
    requires ValidTables(m) && a < m.nA && o < m.nO && s < m.nS && |v| == m.nS
    ensures val == BackProjection(m, v, a, o)[s]
  {
    var transitionDestinations := m.dest[s][a];
    var transitionProbabilities := m.prob[s][a];
    val := 0.0;
    var j := 0;
    while j < |transitionDestinations|
      invariant 0 <= j <= |transitionDestinations|
      invariant val == ProjectionSum(m, v, a, o, s, j)
    {
      var sPrime := transitionDestinations[j];
      var prob := transitionProbabilities[j];
      val := val + m.obs[a][sPrime][o] * prob * v[sPrime];
      j := j + 1;
    }
  }

  /** gkao[k][a][o] of getBackProjections: the projection of vector v, carrying action a. */
  method ProjectVector(m: Tables, v: seq<real>, a: nat, o: nat) returns (av: AlphaVector)
    requires ValidTables(m) && a < m.nA && o < m.nO && |v| == m.nS
    ensures av == AlphaVector(BackProjection(m, v, a, o), a, None)
  {
    var entries: seq<real> := [];
    var s := 0;
    while s < m.nS
      invariant 0 <= s <= m.nS && |entries| == s
      invariant forall i :: 0 <= i < s ==> entries[i] == BackProjection(m, v, a, o)[i]
    {
      var val := ProjectionEntry(m, v, a, o, s);
      entries := entries + [val];
      s := s + 1;
    }
    assert entries == BackProjection(m, v, a, o);
    av := NewVector(entries);
    av := av.(action := a);
  }

  /** The projections of one vector for every action and observation. */
  method ProjectAll(m: Tables, v: seq<real>) returns (ga: seq<seq<AlphaVector>>)
    requires ValidTables(m) && |v| == m.nS
    ensures |ga| == m.nA
    ensures forall a :: 0 <= a < m.nA ==> (|ga[a]| == m.nO &&
      forall o :: 0 <= o < m.nO ==> ga[a][o] == AlphaVector(BackProjection(m, v, a, o), a, None))
  {
    ga := [];
    var a := 0;
    while a < m.nA
      invariant 0 <= a <= m.nA && |ga| == a
      invariant forall a' :: 0 <= a' < a ==> (|ga[a']| == m.nO &&
        forall o :: 0 <= o < m.nO ==> ga[a'][o] == AlphaVector(BackProjection(m, v, a', o), a', None))
    {
      var row: seq<AlphaVector> := [];
      var o := 0;
      while o < m.nO
        invariant 0 <= o <= m.nO && |row| == o
        invariant forall o' :: 0 <= o' < o ==> row[o'] == AlphaVector(BackProjection(m, v, a, o'), a, None)
      {
        var av := ProjectVector(m, v, a, o);
        row := row + [av];
        o := o + 1;
      }
      ga := ga + [row];
      a := a + 1;
    }
  }

  /**
   * getBackProjections(V): for every vector k, action a and observation o
   * the vector whose entry s is the sum over the successors s' of s of
   * O(a, s', o) P(s' | s, a) V_k(s'), carrying action a.
   */
  method GetBackProjections(m: Tables, V: seq<AlphaVector>) returns (G: seq<seq<seq<AlphaVector>>>)
    requires ValidTables(m) && Sized(V, m.nS)
    ensures G == Projections(m, V)
  {
    G := [];
    var k := 0;
    while k < |V|
      invariant 0 <= k <= |V| && |G| == k
      invariant forall k' :: 0 <= k' < k ==> G[k'] == Projections(m, V)[k']
    {
      var ga := ProjectAll(m, V[k].entries);
      forall a | 0 <= a < m.nA
        ensures ga[a] == Projections(m, V)[k][a]
      {
        assert |ga[a]| == |Projections(m, V)[k][a]|;
        forall o | 0 <= o < m.nO
          ensures ga[a][o] == Projections(m, V)[k][a][o]
        {
        }
      }
      G := G + [ga];
      k := k + 1;
    }
  }

  /** The projection backup keeps for a and o: a scan with a strict > from minus infinity. */
  method BestProjectionIndex(m: Tables, G: seq<seq<seq<AlphaVector>>>, a: nat, o: nat, b: seq<real>) returns (j: nat)
    requires ProjectionShape(G, m) && |G| > 0 && a < m.nA && o < m.nO && |b| == m.nS
    ensures j == BestProjection(G, m, a, o, b)
  {
    ghost var vals := ProjectionValues(G, m, a, o, b);
    var maxVal := NegInf;
    j := 0;
    var k := 0;
    while k < |G|
      invariant 0 <= k <= |G|
      invariant k == 0 ==> maxVal == NegInf && j == 0
      invariant k > 0 ==> (j < k && maxVal == Finite(vals[j]) &&
        (forall i :: 0 <= i < k ==> vals[i] <= vals[j]) && (forall i :: 0 <= i < j ==> vals[i] < vals[j]))
    {
      var product := GetDotProduct(G[k][a][o], b);
      if Less(maxVal, Finite(product)) {
        maxVal := Finite(product);
        j := k;
      }
      k := k + 1;
    }
    FirstMaxUnique(vals, j);
  }

  /** The projections backup keeps for action a, one per observation. */
  method KeptProjections(m: Tables, G: seq<seq<seq<AlphaVector>>>, a: nat, b: seq<real>) returns (oVectors: seq<AlphaVector>)
    requires ProjectionShape(G, m) && |G| > 0 && a < m.nA && |b| == m.nS
    ensures |oVectors| == m.nO && forall i :: 0 <= i < m.nO ==> oVectors[i] == G[BestProjection(G, m, a, i, b)][a][i]
  {
    oVectors := [];
    var o := 0;
    while o < m.nO
      invariant 0 <= o <= m.nO && |oVectors| == o
      invariant forall i :: 0 <= i < o ==> oVectors[i] == G[BestProjection(G, m, a, i, b)][a][i]
    {
      var k := BestProjectionIndex(m, G, a, o, b);
      oVectors := oVectors + [G[k][a][o]];
      o := o + 1;
    }
  }

  /** The kept projections of action a added up from the left. */
  method SumKept(m: Tables, G: seq<seq<seq<AlphaVector>>>, a: nat, b: seq<real>, oVectors: seq<AlphaVector>)
    returns (sumVector: AlphaVector)
    requires ProjectionShape(G, m) && |G| > 0 && a < m.nA && 1 <= m.nO && |b| == m.nS
    requires |oVectors| == m.nO && forall i :: 0 <= i < m.nO ==> oVectors[i] == G[BestProjection(G, m, a, i, b)][a][i]
    ensures sumVector.entries == ObservationTotal(G, m, a, b, m.nO) && sumVector.action == a
  {
    sumVector := oVectors[0];
    var j := 1;
    while j < |oVectors|
      invariant 1 <= j <= |oVectors|
      invariant sumVector.entries == ObservationTotal(G, m, a, b, j) && sumVector.action == a
    {
      sumVector := AddKept(m, G, a, b, oVectors, j, sumVector);
      j := j + 1;
    }
  }

  /** One step of the summation: the kept projection of observation j is added to the total of the first j. */
  method AddKept(m: Tables, G: seq<seq<seq<AlphaVector>>>, a: nat, b: seq<real>, oVectors: seq<AlphaVector>, j: nat, sumVector: AlphaVector)
    returns (r: AlphaVector)
    requires ProjectionShape(G, m) && |G| > 0 && a < m.nA && 1 <= j < m.nO && |b| == m.nS
    requires |oVectors| == m.nO && oVectors[j] == G[BestProjection(G, m, a, j, b)][a][j]
    requires sumVector.entries == ObservationTotal(G, m, a, b, j) && sumVector.action == a
    ensures r.entries == ObservationTotal(G, m, a, b, j + 1) && r.action == a
  {
    ObservationTotalNext(G, m, a, b, j);
    r := SumVectors(sumVector, oVectors[j]);
  }

  /** The candidate vector of action a: the kept projections summed from the left, added to the immediate rewards. */
  method CandidateVector(m: Tables, G: seq<seq<seq<AlphaVector>>>, imm: seq<AlphaVector>, a: nat, b: seq<real>)
    returns (av: AlphaVector)
    requires ProjectionShape(G, m) && |G| > 0 && ImmediateShape(imm, m) && a < m.nA && 1 <= m.nO && |b| == m.nS
    ensures av.entries == ActionVector(G, imm, m, a, b) && av.action == a && av.belief.None?
  {
    var oVectors := KeptProjections(m, G, a, b);
    var sumVector := SumKept(m, G, a, b, oVectors);
    av := SumVectors(imm[a], sumVector);
    av := av.(action := a);
  }

  /** The candidate vectors of all actions. */
  method CandidateVectors(m: Tables, G: seq<seq<seq<AlphaVector>>>, imm: seq<AlphaVector>, b: seq<real>)
    returns (ga: seq<AlphaVector>)
    requires ProjectionShape(G, m) && |G| > 0 && ImmediateShape(imm, m) && 1 <= m.nO && |b| == m.nS
    ensures |ga| == m.nA && forall i :: 0 <= i < m.nA ==> ga[i] == AlphaVector(ActionVector(G, imm, m, i, b), i, None)
  {
    ga := [];
    var a := 0;
    while a < m.nA
      invariant 0 <= a <= m.nA && |ga| == a
      invariant forall i :: 0 <= i < a ==> ga[i] == AlphaVector(ActionVector(G, imm, m, i, b), i, None)
    {
      var av := CandidateVector(m, G, imm, a, b);
      ga := ga + [av];
      a := a + 1;
    }
  }

  /** The values at b of the vectors of U. */
  function DotValues(U: seq<AlphaVector>, b: seq<real>): (r: seq<real>)
    requires Sized(U, |b|)
    ensures |r| == |U|
  {
    seq(|U|, i requires 0 <= i < |U| => DotProduct(U[i], b))
  }

  /** The scan over the action vectors of backup: the first of largest value at b, with a strict > from minus infinity. */
  method FirstBestVector(U: seq<AlphaVector>, b: seq<real>) returns (best: nat)
    requires |U| > 0 && Sized(U, |b|)
    ensures best == FirstMax(DotValues(U, b))
  {
    ghost var vals := DotValues(U, b);
    var maxVal := NegInf;
    best := 0;
    var i := 0;
    while i < |U|
      invariant 0 <= i <= |U|
      invariant i == 0 ==> maxVal == NegInf && best == 0
      invariant i > 0 ==> (best < i && maxVal == Finite(vals[best]) &&
        (forall j :: 0 <= j < i ==> vals[j] <= vals[best]) && (forall j :: 0 <= j < best ==> vals[j] < vals[best]))
    {
      var product := GetDotProduct(U[i], b);
      if Less(maxVal, Finite(product)) {
        maxVal := Finite(product);
        best := i;
      }
      i := i + 1;
    }
    FirstMaxUnique(vals, best);
  }

  /**
   * backup(gkao, b): per action the immediate rewards plus, per
   * observation, the first projection of largest value at b; then the first
   * of these action vectors of largest value at b, tagged with b.
   */
  method Backup(m: Tables, G: seq<seq<seq<AlphaVector>>>, imm: seq<AlphaVector>, bp: BeliefPoint) returns (w: AlphaVector)
    requires ProjectionShape(G, m) && |G| > 0 && ImmediateShape(imm, m) && 1 <= m.nO && 1 <= m.nA && |bp.belief| == m.nS
    ensures w == BackupAt(G, imm, m, bp)
  {
    var b := bp.belief;
    var ga := CandidateVectors(m, G, imm, b);
    var best := FirstBestVector(ga, b);
    assert DotValues(ga, b) == ActionValues(G, imm, m, b);
    w := ga[best].(belief := Some(bp));
  }

  /** The first loop of getUpperBoundSawTooth: the bound of the last state belief stored for each state, zero for a state without one. */
  method StateUpperBounds(P: seq<StoredBound>, nS: nat) returns (stateUpper: seq<real>)
    requires forall i :: 0 <= i < |P| && P[i].isState ==> 0 <= P[i].state < nS
    ensures stateUpper == StateUppers(P, nS, |P|)
  {
    stateUpper := Zeros(nS);
    var n := 0;
    while n < |P|
      invariant 0 <= n <= |P| && stateUpper == StateUppers(P, nS, n)
    {
      if P[n].isState {
        stateUpper := stateUpper[P[n].state := P[n].upper];
      }
      n := n + 1;
    }
  }

  /** One more entry in the least ratio. */
  lemma RatioStep(b: seq<real>, bb: seq<real>, s: nat)
    requires s < |b| && s < |bb|
    ensures Ratio(b, bb, s + 1) ==
      if bb[s] > 0.0 && Less(Finite(b[s] / bb[s]), Ratio(b, bb, s)) then Finite(b[s] / bb[s]) else Ratio(b, bb, s)
  {
  }

  /** One more entry in the excess. */
  lemma ExcessStep(bb: seq<real>, su: seq<real>, upper: real, s: nat)
    requires s < |bb| && s < |su|
    ensures Excess(bb, su, upper, s + 1) == Excess(bb, su, upper, s) - (if bb[s] > 0.0 then bb[s] * su[s] else 0.0)
  {
  }

  /** One pass of the inner loop of getUpperBoundSawTooth: a positive entry s of bBar lowers f by bBar(s) times the corner bound and offers the ratio b(s) / bBar(s). */
  method OfferStep(b: seq<real>, bb: seq<real>, stateUpper: seq<real>, upper: real, s: nat, f: real, minC: XReal)
    returns (f': real, minC': XReal)
    requires s < |b| && s < |bb| && s < |stateUpper|
    requires f == Excess(bb, stateUpper, upper, s) && minC == Ratio(b, bb, s)
    ensures f' == Excess(bb, stateUpper, upper, s + 1) && minC' == Ratio(b, bb, s + 1)
  {
    RatioStep(b, bb, s);
    ExcessStep(bb, stateUpper, upper, s);
    f', minC' := f, minC;
    if bb[s] > 0.0 {
      f' := f - bb[s] * stateUpper[s];
      var curC := b[s] / bb[s];
      if Less(Finite(curC), minC) {
        minC' := Finite(curC);
      }
    }
  }

  /** The offer c f of one stored point that is not a state belief: the excess f and the least ratio c over its positive entries. */
  method PointOffer(b: seq<real>, bBar: StoredBound, stateUpper: seq<real>, nS: nat) returns (z: real)
    requires |b| == nS && |bBar.belief| == nS && |stateUpper| == nS && HasMass(bBar.belief)
    ensures z == Offer(b, bBar, stateUpper, nS)
  {
    var f := bBar.upper;
    var minC := PosInf;
    var s := 0;
    while s < nS
      invariant 0 <= s <= nS
      invariant f == Excess(bBar.belief, stateUpper, bBar.upper, s)
      invariant minC == Ratio(b, bBar.belief, s)
    {
      f, minC := OfferStep(b, bBar.belief, stateUpper, bBar.upper, s, f, minC);
      s := s + 1;
    }
    RatioFinite(b, bBar.belief, nS);
    z := Times(minC.value, f);
  }

  /** One more point in the least offer. */
  lemma LeastOfferStep(b: seq<real>, P: seq<StoredBound>, su: seq<real>, nS: nat, n: nat)
    requires n < |P| && |b| == nS && |su| == nS
    requires forall i :: 0 <= i < |P| ==> |P[i].belief| == nS
    requires forall i :: 0 <= i < |P| && !P[i].isState ==> HasMass(P[i].belief)
    ensures LeastOffer(b, P, su, nS, n + 1) ==
      if !P[n].isState && Less(Finite(Offer(b, P[n], su, nS)), LeastOffer(b, P, su, nS, n)) then Finite(Offer(b, P[n], su, nS))
      else LeastOffer(b, P, su, nS, n)
  {
  }

  /** One more term of a dot product. */
  lemma DotStep(x: seq<real>, y: seq<real>, n: nat)
    requires n < |x| && n < |y|
    ensures Dot(x, y, n + 1) == Dot(x, y, n) + x[n] * y[n]
  {
  }

  /** One pass of the second loop of getUpperBoundSawTooth: a point that is not a state belief replaces the best offer when its own is smaller. */
  method OfferScanStep(b: seq<real>, P: seq<StoredBound>, stateUpper: seq<real>, nS: nat, n: nat, best: XReal)
    returns (best': XReal)
    requires |b| == nS && |stateUpper| == nS && n < |P|
    requires forall i :: 0 <= i < |P| ==> |P[i].belief| == nS
    requires forall i :: 0 <= i < |P| && !P[i].isState ==> HasMass(P[i].belief)
    requires best == LeastOffer(b, P, stateUpper, nS, n)
    ensures best' == LeastOffer(b, P, stateUpper, nS, n + 1)
  {
    LeastOfferStep(b, P, stateUpper, nS, n);
    best' := best;
    if !P[n].isState {
      var z := PointOffer(b, P[n], stateUpper, nS);
      if Less(Finite(z), best) {
        best' := Finite(z);
      }
    }
  }

  /** The second loop of getUpperBoundSawTooth: the first point of least offer c f, +infinity while there is none. */
  method LeastOfferScan(b: seq<real>, P: seq<StoredBound>, stateUpper: seq<real>, nS: nat) returns (bBarStarValue: XReal)
    requires |b| == nS && |stateUpper| == nS
    requires forall i :: 0 <= i < |P| ==> |P[i].belief| == nS
    requires forall i :: 0 <= i < |P| && !P[i].isState ==> HasMass(P[i].belief)
    ensures bBarStarValue == LeastOffer(b, P, stateUpper, nS, |P|)
  {
    bBarStarValue := PosInf;
    var bBarIndex := 0;
    while bBarIndex < |P|
      invariant 0 <= bBarIndex <= |P|
      invariant bBarStarValue == LeastOffer(b, P, stateUpper, nS, bBarIndex)
    {
      bBarStarValue := OfferScanStep(b, P, stateUpper, nS, bBarIndex, bBarStarValue);
      bBarIndex := bBarIndex + 1;
    }
  }

  /** The last loop of getUpperBoundSawTooth: the corner interpolation of b added to the least offer. */
  method AddCorners(mv0: real, b: seq<real>, stateUpper: seq<real>, nS: nat) returns (mv: real)
    requires |b| == nS && |stateUpper| == nS
    ensures mv == mv0 + Dot(b, stateUpper, nS)
  {
    mv := mv0;
    var s := 0;
    while s < nS
      invariant 0 <= s <= nS && mv == mv0 + Dot(b, stateUpper, s)
    {
      DotStep(b, stateUpper, s);
      mv := mv + b[s] * stateUpper[s];
      s := s + 1;
    }
  }

  /**
   * getUpperBoundSawTooth(b, Vupper) over the stored bounds of Vupper: the
   * corner bounds first, then per point that is not a state belief the
   * excess f and the least ratio c, keeping the first point of least c f,
   * and finally c f plus the corner interpolation of b.
   */
  method SawToothBound(b: seq<real>, P: seq<StoredBound>, nS: nat) returns (vStar: real)
    requires SawtoothReady(P, nS) && |b| == nS
    ensures vStar == SawTooth(b, P, nS)
  {
    var stateUpper := StateUpperBounds(P, nS);
    var bBarStarValue := LeastOfferScan(b, P, stateUpper, nS);
    LeastOfferFinite(b, P, stateUpper, nS, |P|);
    vStar := AddCorners(bBarStarValue.value, b, stateUpper, nS);
  }

  // ---------------------------------------------------------------------------
  // upperBoundUpdateSkip for one belief point.
  // ---------------------------------------------------------------------------

  /** Entry (a, o) of a point's transition map once upperBoundUpdateSkip has passed it: b^{a,o} where o can follow a, nothing elsewhere. */
  function FullEntry(m: Tables, b: seq<real>, a: nat, o: nat): Option<seq<real>>
    requires ValidTables(m) && |b| == m.nS && a < m.nA && o < m.nO
  {
    if AOProb(m, b, a, o) > 0.0 then Some(Posterior(m, b, a, o)) else None
  }

  /** Row a of a point's transition map once upperBoundUpdateSkip has passed it. */
  function FullRow(m: Tables, b: seq<real>, a: nat): (r: seq<Option<seq<real>>>)
    requires ValidTables(m) && |b| == m.nS && a < m.nA
    ensures |r| == m.nO
  {
    seq(m.nO, o requires 0 <= o < m.nO => FullEntry(m, b, a, o))
  }

  /** The transition map of a point once upperBoundUpdateSkip has passed it: it holds b^{a,o} exactly where o can follow a. */
  function FullTable(m: Tables, b: seq<real>): (tm: seq<seq<Option<seq<real>>>>)
    requires ValidTables(m) && |b| == m.nS
    ensures |tm| == m.nA
  {
    seq(m.nA, a requires 0 <= a < m.nA => FullRow(m, b, a))
  }

  /** The full table holds the right posterior exactly where o can follow a. */
  lemma FullTableOk(m: Tables, b: seq<real>)
    requires ValidTables(m) && |b| == m.nS
    ensures TableOk(m, b, FullTable(m, b))
    ensures forall a, o :: 0 <= a < m.nA && 0 <= o < m.nO ==> (FullTable(m, b)[a][o].Some? <==> AOProb(m, b, a, o) > 0.0)
  {
  }

  /** A row of a transition map whose present entries are the right posteriors. */
  predicate RowOk(m: Tables, b: seq<real>, a: nat, row: seq<Option<seq<real>>>)
    requires ValidTables(m) && |b| == m.nS && a < m.nA
  {
    |row| == m.nO &&
    forall o :: 0 <= o < m.nO && row[o].Some? ==> AOProb(m, b, a, o) > 0.0 && row[o].value == Posterior(m, b, a, o)
  }

  /** getUpperBound(b^{a,o}, t + 1): zero at the horizon, the sawtooth bound over the next epoch's stored points before it. */
  method NextUpperBound(post: seq<real>, next: Option<seq<StoredBound>>, nS: nat) returns (u: real)
    requires |post| == nS && (next.Some? ==> SawtoothReady(next.value, nS))
    ensures u == NextUpper(post, next, nS)
    ensures next.None? ==> u == 0.0
  {
    if next.None? {
      u := 0.0;
    } else {
      u := SawToothBound(post, next.value, nS);
    }
  }

  /**
   * One observation of the look-ahead of upperBoundUpdateSkip: where o can
   * follow a, b^{a,o} comes from the map entry or, when there is none, from
   * updateBelief and is stored, and P(o | b, a) times its next-stage bound
   * is added; elsewhere nothing is added.
   */
  method ObservationUpper(p: POMDP, b: BeliefPoint, a: nat, o: nat, next: Option<seq<StoredBound>>, entry: Option<seq<real>>)
    returns (val: real, entry': Option<seq<real>>)
    requires p.Ready() && a < p.base.nActions && o < p.nObservations
    requires |b.belief| == p.base.nStates && b.aoProbs == Some(AOTable(p.Tab(), b.belief))
    requires next.Some? ==> SawtoothReady(next.value, p.base.nStates)
    requires entry.Some? ==> AOProb(p.Tab(), b.belief, a, o) > 0.0 && entry.value == Posterior(p.Tab(), b.belief, a, o)
    ensures val == SuccessorUpper(p.Tab(), b.belief, a, o, next)
    ensures entry' == FullEntry(p.Tab(), b.belief, a, o)
  {
    val := 0.0;
    entry' := entry;
    var prob := b.GetActionObservationProbability(a, o);
    if prob > 0.0 {
      if entry.None? {
        var bao := p.PreparedUpdate(b, a, o);
        entry' := Some(bao.belief);
      }
      var u := NextUpperBound(entry'.value, next, p.base.nStates);
      val := Times(prob, u);
    }
  }

  /** One pass of the observation loop of upperBoundUpdateSkip: the look-ahead of a advanced by observation o. */
  method ActionUpperStep(p: POMDP, imm: seq<AlphaVector>, b: BeliefPoint, a: nat, o: nat, next: Option<seq<StoredBound>>,
                         entry: Option<seq<real>>, val: real)
    returns (val': real, entry': Option<seq<real>>)
    requires p.Ready() && ImmediateShape(imm, p.Tab()) && a < p.base.nActions && o < p.nObservations
    requires |b.belief| == p.base.nStates && b.aoProbs == Some(AOTable(p.Tab(), b.belief))
    requires next.Some? ==> SawtoothReady(next.value, p.base.nStates)
    requires entry.Some? ==> AOProb(p.Tab(), b.belief, a, o) > 0.0 && entry.value == Posterior(p.Tab(), b.belief, a, o)
    requires val == UpperLookAhead(p.Tab(), imm, b.belief, a, next, o)
    ensures val' == UpperLookAhead(p.Tab(), imm, b.belief, a, next, o + 1)
    ensures entry' == FullRow(p.Tab(), b.belief, a)[o]
  {
    var step;
    step, entry' := ObservationUpper(p, b, a, o, next, entry);
    UpperLookAheadStep(p.Tab(), imm, b.belief, a, next, o);
    val' := val + step;
  }

  /** A prefix grows by the next element. */
  lemma ExtendPrefix<T>(full: seq<T>, o: nat)
    requires o < |full|
    ensures full[..o] + [full[o]] == full[..o + 1]
  {
  }

  /** The look-ahead of action a in upperBoundUpdateSkip, filling the row of the transition map on the way. */
  method ActionUpper(p: POMDP, imm: seq<AlphaVector>, b: BeliefPoint, a: nat, next: Option<seq<StoredBound>>, row: seq<Option<seq<real>>>)
    returns (val: real, row': seq<Option<seq<real>>>)
    requires p.Ready() && ImmediateShape(imm, p.Tab()) && a < p.base.nActions
    requires |b.belief| == p.base.nStates && b.aoProbs == Some(AOTable(p.Tab(), b.belief))
    requires next.Some? ==> SawtoothReady(next.value, p.base.nStates)
    requires RowOk(p.Tab(), b.belief, a, row)
    ensures val == UpperLookAhead(p.Tab(), imm, b.belief, a, next, p.nObservations)
    ensures row' == FullRow(p.Tab(), b.belief, a)
  {
    ghost var m := p.Tab();
    ghost var full := FullRow(m, b.belief, a);
    val := GetDotProduct(imm[a], b.belief);
    row' := [];
    var o := 0;
    while o < p.nObservations
      invariant 0 <= o <= p.nObservations
      invariant val == UpperLookAhead(m, imm, b.belief, a, next, o)
      invariant row' == full[..o]
    {
      var e;
      val, e := ActionUpperStep(p, imm, b, a, o, next, row[o], val);
      ExtendPrefix(full, o);
      row' := row' + [e];
      o := o + 1;
    }
    assert full[..|full|] == full;
  }

  /** The rows of the actions a < n of the full table of b^{a,o}. */
  ghost predicate RowsSoFar(m: Tables, b: seq<real>, n: nat, tm: seq<seq<Option<seq<real>>>>)
    requires ValidTables(m) && |b| == m.nS && n <= m.nA
  {
    |tm| == n && forall i :: 0 <= i < n ==> tm[i] == FullRow(m, b, i)
  }

  /** One pass of the action loop of upperBoundUpdateSkip: the look-ahead of a joins the running maximum and its row is filled. */
  method AllActionsStep(p: POMDP, imm: seq<AlphaVector>, b: BeliefPoint, next: Option<seq<StoredBound>>,
                        a: nat, upperBound: XReal, tm: seq<seq<Option<seq<real>>>>, tm': seq<seq<Option<seq<real>>>>)
    returns (upperBound': XReal, tm'': seq<seq<Option<seq<real>>>>)
    requires p.Ready() && ImmediateShape(imm, p.Tab()) && a < p.base.nActions
    requires |b.belief| == p.base.nStates && b.aoProbs == Some(AOTable(p.Tab(), b.belief))
    requires next.Some? ==> SawtoothReady(next.value, p.base.nStates)
    requires upperBound == ScanUpper(p.Tab(), imm, b.belief, next, a)
    requires TableOk(p.Tab(), b.belief, tm) && RowsSoFar(p.Tab(), b.belief, a, tm')
    ensures upperBound' == ScanUpper(p.Tab(), imm, b.belief, next, a + 1)
    ensures RowsSoFar(p.Tab(), b.belief, a + 1, tm'')
  {
    assert RowOk(p.Tab(), b.belief, a, tm[a]);
    var val, row := ActionUpper(p, imm, b, a, next, tm[a]);
    upperBound' := upperBound;
    if Less(upperBound, Finite(val)) {
      upperBound' := Finite(val);
    }
    tm'' := tm' + [row];
    RowsGrow(p.Tab(), b.belief, a, tm', row);
  }

  /** The rows so far grow by the full row of the next action. */
  lemma RowsGrow(m: Tables, b: seq<real>, a: nat, tm: seq<seq<Option<seq<real>>>>, row: seq<Option<seq<real>>>)
    requires ValidTables(m) && |b| == m.nS && a < m.nA
    requires RowsSoFar(m, b, a, tm) && row == FullRow(m, b, a)
    ensures RowsSoFar(m, b, a + 1, tm + [row])
  {
  }

  /** The action loop of upperBoundUpdateSkip: the largest look-ahead over the actions, from minus infinity, and the filled transition map. */
  method AllActionsUpper(p: POMDP, imm: seq<AlphaVector>, b: BeliefPoint, next: Option<seq<StoredBound>>, tm: seq<seq<Option<seq<real>>>>)
    returns (upperBound: XReal, tm': seq<seq<Option<seq<real>>>>)
    requires p.Ready() && ImmediateShape(imm, p.Tab()) && p.base.nActions >= 1
    requires |b.belief| == p.base.nStates && b.aoProbs == Some(AOTable(p.Tab(), b.belief))
    requires next.Some? ==> SawtoothReady(next.value, p.base.nStates)
    requires TableOk(p.Tab(), b.belief, tm)
    ensures upperBound == Finite(UpperBoundAt(p.Tab(), imm, b.belief, next))
    ensures tm' == FullTable(p.Tab(), b.belief)
  {
    ghost var m := p.Tab();
    upperBound := NegInf;
    tm' := [];
    var a := 0;
    while a < p.base.nActions
      invariant a <= p.base.nActions
      invariant RowsSoFar(m, b.belief, a, tm')
      invariant upperBound == ScanUpper(m, imm, b.belief, next, a)
    {
      upperBound, tm' := AllActionsStep(p, imm, b, next, a, upperBound, tm, tm');
      a := a + 1;
    }
    RowsMakeTable(m, b.belief, tm');
  }

  /** A table whose every row is the full row of its action is the full table. */
  lemma RowsMakeTable(m: Tables, b: seq<real>, tm: seq<seq<Option<seq<real>>>>)
    requires ValidTables(m) && |b| == m.nS && |tm| == m.nA
    requires RowsSoFar(m, b, m.nA, tm)
    ensures tm == FullTable(m, b)
  {
  }

  /**
   * The fields of a point after upperBoundUpdateSkip has passed it, from its
   * fields f before: the probabilities are cached either way; a tight point
   * keeps the rest; any other gets the best action's look-ahead as its bound,
   * counts as tight when that is within the tolerance of its value under V,
   * and holds every b^{a,o} in its map.
   */
  function PointAfter(m: Tables, imm: seq<AlphaVector>, next: Option<seq<StoredBound>>, V: seq<AlphaVector>,
                      belief: seq<real>, f: PointFields): PointFields
    requires ValidTables(m) && ImmediateShape(imm, m) && m.nA >= 1 && |belief| == m.nS
    requires next.Some? ==> SawtoothReady(next.value, m.nS)
    requires Sized(V, m.nS)
  {
    var (_, isState, state, bound, tight, tm, history) := f;
    if tight then (Some(AOTable(m, belief)), isState, state, bound, tight, tm, history)
    else
      var upper := UpperBoundAt(m, imm, belief, next);
      (Some(AOTable(m, belief)), isState, state, Finite(upper), Tightens(upper, MaxValue(belief, V, |V|)),
       Some(FullTable(m, belief)), history)
  }

  /** The update keeps a point in good order and leaves it with a finite bound. */
  lemma PointAfterOk(m: Tables, imm: seq<AlphaVector>, next: Option<seq<StoredBound>>, V: seq<AlphaVector>,
                     belief: seq<real>, f: PointFields)
    requires ValidTables(m) && ImmediateShape(imm, m) && m.nA >= 1 && |belief| == m.nS
    requires next.Some? ==> SawtoothReady(next.value, m.nS)
    requires Sized(V, m.nS) && FieldsOk(m, belief, f)
    ensures FieldsOk(m, belief, PointAfter(m, imm, next, V, belief, f)) && PointAfter(m, imm, next, V, belief, f).3.Finite?
  {
    FullTableOk(m, belief);
  }

  /**
   * The body of upperBoundUpdateSkip for point b: prepare it, skip it when
   * tight, otherwise compute the bound, store the map (the source fills an
   * existing map in place, which ends in the same table) and mark the point
   * tight when its gap to the lower bound is below the tolerance.
   */
  method UpdatePointBound(p: POMDP, imm: seq<AlphaVector>, b: BeliefPoint, next: Option<seq<StoredBound>>, V: seq<AlphaVector>)
    requires p.Ready() && ImmediateShape(imm, p.Tab()) && p.base.nActions >= 1
    requires PointOk(p, b)
    requires next.Some? ==> SawtoothReady(next.value, p.base.nStates)
    requires Sized(V, p.base.nStates)
    modifies b
    ensures Fields(b) == PointAfter(p.Tab(), imm, next, V, b.belief, old(Fields(b)))
  {
    ghost var m, f0 := p.Tab(), Fields(b);
    p.PrepareBelief(b);
    if b.upperBoundTight {
      return;
    }
    var tm := if b.beliefTransitionMap.Some? then b.beliefTransitionMap.value else EmptyTable(p.base.nActions, p.nObservations);
    var upperBound, tm' := AllActionsUpper(p, imm, b, next, tm);
    b.SetUpperBound(upperBound);
    b.SetBeliefTransitionMap(tm');
    var lowerBound := GetValue(b.belief, V);
    ghost var tight := Tightens(upperBound.value, lowerBound);
    if lowerBound.Finite? && Abs(upperBound.value - lowerBound.value) < GapTolerance {
      b.SetUpperBoundTight();
    }
    assert Fields(b) == (Some(AOTable(m, b.belief)), f0.1, f0.2, upperBound, tight, Some(tm'), f0.6);
  }

  /**
   * The loop of upperBoundUpdateSkip over a list of distinct points: each
   * point gets the treatment of UpdatePointBound, against the same next-stage
   * bounds and vectors.
   */
  method UpdateLayerBounds(p: POMDP, imm: seq<AlphaVector>, layer: seq<BeliefPoint>, next: Option<seq<StoredBound>>, V: seq<AlphaVector>)
    requires p.Ready() && ImmediateShape(imm, p.Tab()) && p.base.nActions >= 1
    requires next.Some? ==> SawtoothReady(next.value, p.base.nStates)
    requires Sized(V, p.base.nStates)
    requires forall i, j :: 0 <= i < j < |layer| ==> layer[i] != layer[j]
    requires forall i :: 0 <= i < |layer| ==> |layer[i].belief| == p.base.nStates && PointOk(p, layer[i])
    modifies set q | q in layer
    ensures forall i :: 0 <= i < |layer| ==> Fields(layer[i]) == PointAfter(p.Tab(), imm, next, V, layer[i].belief, old(Fields(layer[i])))
    ensures forall i :: 0 <= i < |layer| ==> PointOk(p, layer[i]) && layer[i].upperBound.Finite?
  {
    ghost var m := p.Tab();
    var k := 0;
    while k < |layer|
      invariant 0 <= k <= |layer|
      invariant forall i :: 0 <= i < k ==> Fields(layer[i]) == PointAfter(m, imm, next, V, layer[i].belief, old(Fields(layer[i])))
      invariant forall i :: k <= i < |layer| ==> unchanged(layer[i])
    {
      label L:
      UpdatePointBound(p, imm, layer[k], next, V);
      forall i | 0 <= i < |layer| && i != k
        ensures unchanged@L(layer[i])
      {
        assert layer[i] != layer[k];
      }
      k := k + 1;
    }
    forall i | 0 <= i < |layer|
      ensures PointOk(p, layer[i]) && layer[i].upperBound.Finite?
    {
      PointAfterOk(m, imm, next, V, layer[i].belief, old(Fields(layer[i])));
    }
  }

  /** The bounds getUpperBound reads at epoch t + 1: none at the horizon (the bound there is 0), the stored bounds of layer t + 1 before it. */
  function NextBounds(layers: seq<seq<BeliefPoint>>, t: nat, T: nat): (next: Option<seq<StoredBound>>)
    reads if t + 1 < |layers| then layers[t + 1] else []
    requires t < T < |layers| && (t + 1 < T ==> Bounded(layers[t + 1]))
    ensures next.None? <==> t + 1 == T
  {
    if t + 1 == T then None else Some(Snapshot(layers[t + 1]))
  }

  /** The vectors of U have one value per state and an action of the model. */
  predicate Acting(U: seq<AlphaVector>, nS: nat, nA: nat) {
    Sized(U, nS) && forall k :: 0 <= k < |U| ==> 0 <= U[k].action < nA
  }

  /** Every vector of U is tagged with a point of L. */
  predicate Tagged(U: seq<AlphaVector>, L: seq<BeliefPoint>) {
    forall k :: 0 <= k < |U| ==> U[k].belief.Some? && U[k].belief.value in L
  }

  /** Every point of L has one entry per state. */
  predicate Over(L: seq<BeliefPoint>, nS: nat) {
    forall q :: q in L ==> |q.belief| == nS
  }

  /** The backups at the points of L, in order: the vector set of the first iteration. */
  method BackupAll(m: Tables, G: seq<seq<seq<AlphaVector>>>, imm: seq<AlphaVector>, L: seq<BeliefPoint>)
    returns (vs: seq<AlphaVector>)
    requires ProjectionShape(G, m) && |G| > 0 && ImmediateShape(imm, m) && 1 <= m.nO && 1 <= m.nA && Over(L, m.nS)
    ensures |vs| == |L| && forall i :: 0 <= i < |L| ==> vs[i] == BackupAt(G, imm, m, L[i])
    ensures Acting(vs, m.nS, m.nA) && Tagged(vs, L)
  {
    vs := [];
    var i := 0;
    while i < |L|
      invariant 0 <= i <= |L| && |vs| == i
      invariant forall j :: 0 <= j < i ==> vs[j] == BackupAt(G, imm, m, L[j])
    {
      var backupVector := Backup(m, G, imm, L[i]);
      vs := vs + [backupVector];
      i := i + 1;
    }
    BackupsAreTagged(m, G, imm, L, vs);
  }

  /** Backups at the points of L act with an action of the model and are tagged with their points. */
  lemma BackupsAreTagged(m: Tables, G: seq<seq<seq<AlphaVector>>>, imm: seq<AlphaVector>, L: seq<BeliefPoint>, vs: seq<AlphaVector>)
    requires ProjectionShape(G, m) && |G| > 0 && ImmediateShape(imm, m) && 1 <= m.nO && 1 <= m.nA && Over(L, m.nS)
    requires |vs| == |L| && forall i :: 0 <= i < |L| ==> vs[i] == BackupAt(G, imm, m, L[i])
    ensures Acting(vs, m.nS, m.nA) && Tagged(vs, L)
  {
    forall k | 0 <= k < |vs|
      ensures |vs[k].entries| == m.nS && 0 <= vs[k].action < m.nA && vs[k].belief.Some? && vs[k].belief.value in L
    {
      assert vs[k] == BackupAt(G, imm, m, L[k]);
    }
  }

  /** The value of q under U is still below its value under V. */
  predicate Below(q: BeliefPoint, U: seq<AlphaVector>, V: seq<AlphaVector>)
    requires Sized(U, |q.belief|) && Sized(V, |q.belief|)
  {
    Less(MaxValue(q.belief, U, |U|), MaxValue(q.belief, V, |V|))
  }

  /** The points of B, in order, whose value under U is still below their value under V. */
  function Unimproved(B: seq<BeliefPoint>, U: seq<AlphaVector>, V: seq<AlphaVector>, nS: nat): seq<BeliefPoint>
    requires Over(B, nS) && Sized(U, nS) && Sized(V, nS)
    decreases |B|
  {
    if |B| == 0 then []
    else
      var rest := Unimproved(B[..|B| - 1], U, V, nS);
      if Below(B[|B| - 1], U, V) then rest + [B[|B| - 1]] else rest
  }

  /** Unimproved keeps exactly the points of B that are still below, and never grows. */
  lemma {:induction false} UnimprovedMembers(B: seq<BeliefPoint>, U: seq<AlphaVector>, V: seq<AlphaVector>, nS: nat)
    requires Over(B, nS) && Sized(U, nS) && Sized(V, nS)
    ensures |Unimproved(B, U, V, nS)| <= |B|
    ensures forall q :: q in Unimproved(B, U, V, nS) <==> q in B && Below(q, U, V)
    decreases |B|
  {
    if |B| > 0 {
      var front := B[..|B| - 1];
      UnimprovedMembers(front, U, V, nS);
      assert B == front + [B[|B| - 1]];
    }
  }

  /** A point of B that is no longer below is dropped, so Unimproved is shorter than B. */
  lemma {:induction false} UnimprovedShrinks(B: seq<BeliefPoint>, U: seq<AlphaVector>, V: seq<AlphaVector>, nS: nat, x: BeliefPoint)
    requires Over(B, nS) && Sized(U, nS) && Sized(V, nS)
    requires x in B && !Below(x, U, V)
    ensures |Unimproved(B, U, V, nS)| < |B|
    decreases |B|
  {
    var front := B[..|B| - 1];
    assert B == front + [B[|B| - 1]];
    UnimprovedMembers(front, U, V, nS);
    if x != B[|B| - 1] {
      UnimprovedShrinks(front, U, V, nS, x);
    }
  }

  /** Unimproved over one more point of B. */
  lemma UnimprovedStep(B: seq<BeliefPoint>, i: nat, U: seq<AlphaVector>, V: seq<AlphaVector>, nS: nat)
    requires Over(B, nS) && Sized(U, nS) && Sized(V, nS) && i < |B|
    ensures Unimproved(B[..i + 1], U, V, nS) ==
      Unimproved(B[..i], U, V, nS) + (if Below(B[i], U, V) then [B[i]] else [])
  {
    assert B[..i + 1][..i] == B[..i];
  }

  /** The loop of the Perseus stage that computes the new Btilde. */
  method StillBelow(B: seq<BeliefPoint>, U: seq<AlphaVector>, V: seq<AlphaVector>, nS: nat) returns (r: seq<BeliefPoint>)
    requires Over(B, nS) && Sized(U, nS) && Sized(V, nS)
    ensures r == Unimproved(B, U, V, nS)
  {
    r := [];
    var i := 0;
    while i < |B|
      invariant 0 <= i <= |B| && r == Unimproved(B[..i], U, V, nS)
    {
      var bp := B[i];
      var nValue := GetValue(bp.belief, U);
      var oValue := GetValue(bp.belief, V);
      if Less(nValue, oValue) {
        r := r + [bp];
      }
      UnimprovedStep(B, i, U, V, nS);
      i := i + 1;
    }
    assert B[..|B|] == B;
  }

  /** Every point of L outside B has caught up: its value under U is no longer below its value under V. */
  predicate Caught(L: seq<BeliefPoint>, B: seq<BeliefPoint>, U: seq<AlphaVector>, V: seq<AlphaVector>, nS: nat)
    requires Over(L, nS) && Sized(U, nS) && Sized(V, nS)
  {
    forall i :: 0 <= i < |L| && L[i] !in B ==> !Below(L[i], U, V)
  }

  /** Adding a vector keeps every caught-up point caught up. */
  lemma CaughtGrows(L: seq<BeliefPoint>, B: seq<BeliefPoint>, U: seq<AlphaVector>, w: AlphaVector, V: seq<AlphaVector>, nS: nat)
    requires Over(L, nS) && Sized(U, nS) && Sized(V, nS) && |w.entries| == nS
    requires Caught(L, B, U, V, nS)
    ensures Caught(L, B, U + [w], V, nS)
  {
    forall i | 0 <= i < |L| && L[i] !in B
      ensures !Below(L[i], U + [w], V)
    {
      MaxValueGrows(L[i].belief, U, [w]);
    }
  }

  /** A vector the Perseus stage may add: one of the old set V, or the backup at a point of L. */
  predicate FromStage(w: AlphaVector, V: seq<AlphaVector>, L: seq<BeliefPoint>, G: seq<seq<seq<AlphaVector>>>,
                      imm: seq<AlphaVector>, m: Tables)
    requires ProjectionShape(G, m) && |G| > 0 && ImmediateShape(imm, m) && 1 <= m.nO && 1 <= m.nA
  {
    w in V ||
    (w.belief.Some? && w.belief.value in L && |w.belief.value.belief| == m.nS && w == BackupAt(G, imm, m, w.belief.value))
  }

  /** Such a vector has a value per state, an action of the model and a point of L or one of V's points as its tag. */
  lemma FromStageOk(w: AlphaVector, V: seq<AlphaVector>, L: seq<BeliefPoint>, G: seq<seq<seq<AlphaVector>>>,
                    imm: seq<AlphaVector>, m: Tables)
    requires ProjectionShape(G, m) && |G| > 0 && ImmediateShape(imm, m) && 1 <= m.nO && 1 <= m.nA
    requires Acting(V, m.nS, m.nA) && Tagged(V, L) && FromStage(w, V, L, G, imm, m)
    ensures |w.entries| == m.nS && 0 <= w.action < m.nA && w.belief.Some? && w.belief.value in L
  {
  }

  /**
   * The vector a Perseus round adds for the sampled point: its backup, or
   * the best old vector there when that is worth more. Either way the
   * point's value under V is reached.
   */
  method BetterVector(m: Tables, G: seq<seq<seq<AlphaVector>>>, imm: seq<AlphaVector>, V: seq<AlphaVector>, sampledPoint: BeliefPoint)
    returns (w: AlphaVector)
    requires ProjectionShape(G, m) && |G| > 0 && ImmediateShape(imm, m) && 1 <= m.nO && 1 <= m.nA
    requires Sized(V, m.nS) && |V| > 0 && |sampledPoint.belief| == m.nS
    ensures w in V || w == BackupAt(G, imm, m, sampledPoint)
    ensures |w.entries| == m.nS
    ensures LessEq(MaxValue(sampledPoint.belief, V, |V|), Finite(DotProduct(w, sampledPoint.belief)))
  {
    var b := sampledPoint.belief;
    var backupVector := Backup(m, G, imm, sampledPoint);
    var newValue := GetDotProduct(backupVector, b);
    var bestOldVectorIndex := GetBestVectorIndex(b, V);
    var oldValue := GetDotProduct(V[bestOldVectorIndex], b);
    BestAttainsValue(b, V, bestOldVectorIndex);
    if newValue >= oldValue {
      w := backupVector;
    } else {
      w := V[bestOldVectorIndex];
    }
  }

  /** A vector worth at least V's value at b lifts U to that value once added. */
  lemma AddedCatchesUp(b: seq<real>, U: seq<AlphaVector>, w: AlphaVector, V: seq<AlphaVector>)
    requires Sized(U, |b|) && Sized(V, |b|) && |w.entries| == |b|
    requires LessEq(MaxValue(b, V, |V|), Finite(DotProduct(w, b)))
    ensures LessEq(MaxValue(b, V, |V|), MaxValue(b, U + [w], |U| + 1))
  {
    assert (U + [w])[|U|] == w;
  }

  /**
   * One round of the Perseus stage: back up a point sampled from B, add the
   * backup or, if it is worth less there, the best old vector, and keep in B
   * only the points still below their old value.
   */
  method PerseusStep(m: Tables, G: seq<seq<seq<AlphaVector>>>, imm: seq<AlphaVector>, V: seq<AlphaVector>,
                     L: seq<BeliefPoint>, B: seq<BeliefPoint>, U: seq<AlphaVector>)
    returns (B': seq<BeliefPoint>, U': seq<AlphaVector>)
    requires ProjectionShape(G, m) && |G| > 0 && ImmediateShape(imm, m) && 1 <= m.nO && 1 <= m.nA
    requires Sized(V, m.nS) && |V| > 0 && Over(L, m.nS) && Sized(U, m.nS)
    requires |B| > 0 && (forall q :: q in B ==> q in L)
    requires Caught(L, B, U, V, m.nS)
    ensures (forall q :: q in B' ==> q in B) && |B'| < |B|
    ensures |U'| == |U| + 1 && U'[..|U|] == U && Sized(U', m.nS) && FromStage(U'[|U|], V, L, G, imm, m)
    ensures Caught(L, B', U', V, m.nS)
  {
    var idx :| 0 <= idx < |B|;
    var sampledPoint := B[idx];
    var w := BetterVector(m, G, imm, V, sampledPoint);
    U' := U + [w];
    assert U'[..|U|] == U;
    B' := StillBelow(B, U', V, m.nS);
    assert !Below(sampledPoint, U', V) by {
      AddedCatchesUp(sampledPoint.belief, U, w, V);
    }
    assert |B'| < |B| by {
      UnimprovedShrinks(B, U', V, m.nS, sampledPoint);
    }
    assert (forall q :: q in B' ==> q in B) && (forall q :: q in B && q !in B' ==> !Below(q, U', V)) by {
      UnimprovedMembers(B, U', V, m.nS);
    }
    assert Caught(L, B, U', V, m.nS) by {
      CaughtGrows(L, B, U, w, V, m.nS);
    }
  }

  /**
   * The Perseus stage after the first iteration: starting from all of L,
   * rounds run until every point has caught up. Every point of L then has a
   * value under the new set at least its value under V, and the new set
   * holds only old vectors and backups at points of L.
   */
  method Perseus(m: Tables, G: seq<seq<seq<AlphaVector>>>, imm: seq<AlphaVector>, V: seq<AlphaVector>, L: seq<BeliefPoint>)
    returns (U: seq<AlphaVector>)
    requires ProjectionShape(G, m) && |G| > 0 && ImmediateShape(imm, m) && 1 <= m.nO && 1 <= m.nA
    requires Acting(V, m.nS, m.nA) && Tagged(V, L) && |V| > 0 && Over(L, m.nS) && |L| > 0
    ensures Acting(U, m.nS, m.nA) && Tagged(U, L) && |U| > 0
    ensures forall i :: 0 <= i < |L| ==> LessEq(MaxValue(L[i].belief, V, |V|), MaxValue(L[i].belief, U, |U|))
    ensures forall k :: 0 <= k < |U| ==> FromStage(U[k], V, L, G, imm, m)
  {
    var Btilde := L;
    U := [];
    while |Btilde| > 0
      invariant (forall q :: q in Btilde ==> q in L) && Sized(U, m.nS)
      invariant forall k :: 0 <= k < |U| ==> FromStage(U[k], V, L, G, imm, m)
      invariant Caught(L, Btilde, U, V, m.nS)
      invariant Btilde == L || |U| > 0
      decreases |Btilde|
    {
      ghost var U0 := U;
      Btilde, U := PerseusStep(m, G, imm, V, L, Btilde, U);
      assert forall k :: 0 <= k < |U0| ==> U[k] == U0[k];
    }
    forall i | 0 <= i < |L|
      ensures LessEq(MaxValue(L[i].belief, V, |V|), MaxValue(L[i].belief, U, |U|))
    {
      assert !Below(L[i], U, V);
    }
    forall k | 0 <= k < |U|
      ensures |U[k].entries| == m.nS && 0 <= U[k].action < m.nA && U[k].belief.Some? && U[k].belief.value in L
    {
      FromStageOk(U[k], V, L, G, imm, m);
    }
  }

  /**
   * The new vectors of one epoch from its old vectors V and its points L:
   * the backups at all points in the first iteration, the Perseus stage
   * afterwards.
   */
  /**
   * What a backup stage leaves at epoch t, from the projections G of the next
   * epoch's vectors and the vectors V it had: vectors that fit the layer L;
   * in the first iteration the backups at the points of L, in order; later
   * a set of old vectors and backups at points of L under which no point of
   * L is worth less than under V.
   */
  ghost predicate StageDone(m: Tables, G: seq<seq<seq<AlphaVector>>>, imm: seq<AlphaVector>, V: seq<AlphaVector>,
                            L: seq<BeliefPoint>, iter: int, vs: seq<AlphaVector>)
    requires ProjectionShape(G, m) && |G| > 0 && ImmediateShape(imm, m) && 1 <= m.nO && 1 <= m.nA
    requires Acting(V, m.nS, m.nA) && Over(L, m.nS)
  {
    Acting(vs, m.nS, m.nA) && Tagged(vs, L) && |vs| > 0 &&
    (iter == 0 ==> |vs| == |L| && forall i :: 0 <= i < |L| ==> vs[i] == BackupAt(G, imm, m, L[i])) &&
    (iter != 0 ==> forall i :: 0 <= i < |L| ==> LessEq(MaxValue(L[i].belief, V, |V|), MaxValue(L[i].belief, vs, |vs|))) &&
    (iter != 0 ==> forall k :: 0 <= k < |vs| ==> FromStage(vs[k], V, L, G, imm, m))
  }

  /**
   * Epoch u holds in V[u] what the backup stage leaves there from the
   * vectors V0[u] it had, the vectors V[u + 1] of the next epoch and the
   * points L[u].
   */
  ghost predicate StageAt(m: Tables, imm: seq<AlphaVector>, V0: seq<seq<AlphaVector>>, L: seq<seq<BeliefPoint>>, iter: int,
                          V: seq<seq<AlphaVector>>, u: int)
  {
    ValidTables(m) && ImmediateShape(imm, m) && 1 <= m.nO && 1 <= m.nA &&
    0 <= u < |V0| && u + 1 < |V| && u < |L| &&
    Sized(V[u + 1], m.nS) && |V[u + 1]| > 0 && Acting(V0[u], m.nS, m.nA) && Over(L[u], m.nS) &&
    StageDone(m, Projections(m, V[u + 1]), imm, V0[u], L[u], iter, V[u])
  }

  /** Every epoch u with from <= u < H holds its StageAt. */
  ghost predicate StagesDone(m: Tables, imm: seq<AlphaVector>, V0: seq<seq<AlphaVector>>, L: seq<seq<BeliefPoint>>, iter: int,
                             V: seq<seq<AlphaVector>>, from: nat, H: nat)
  {
    ValidTables(m) && ImmediateShape(imm, m) && 1 <= m.nO && 1 <= m.nA &&
    |V0| == H + 1 && |V| == H + 1 && H <= |L| &&
    forall u :: from <= u < H ==> StageAt(m, imm, V0, L, iter, V, u)
  }

  /** The stage of epoch from after those of the later epochs. */
  lemma StagesDoneNext(m: Tables, imm: seq<AlphaVector>, V0: seq<seq<AlphaVector>>, L: seq<seq<BeliefPoint>>, iter: int,
                       V: seq<seq<AlphaVector>>, from: nat, H: nat, vs: seq<AlphaVector>)
    requires from < H && StagesDone(m, imm, V0, L, iter, V, from + 1, H)
    requires Sized(V[from + 1], m.nS) && |V[from + 1]| > 0 && Acting(V0[from], m.nS, m.nA) && Over(L[from], m.nS)
    requires StageDone(m, Projections(m, V[from + 1]), imm, V0[from], L[from], iter, vs)
    ensures StagesDone(m, imm, V0, L, iter, V[from := vs], from, H)
  {
    var V' := V[from := vs];
    forall u | from <= u < H
      ensures StageAt(m, imm, V0, L, iter, V', u)
    {
      assert V'[u + 1] == V[u + 1];
      if u != from {
        assert StageAt(m, imm, V0, L, iter, V, u);
      }
    }
  }

  /** A sequence that agrees with b everywhere but at t is b with its entry at t replaced. */
  lemma UpdatedAt<X>(a: seq<X>, b: seq<X>, t: nat)
    requires |a| == |b| && t < |a| && forall u :: 0 <= u < |a| && u != t ==> a[u] == b[u]
    ensures a == b[t := a[t]]
  {
  }

  /** A backup stage: backupStagePerseus's choice between backing up every point and a Perseus stage. */
  method StageVectors(m: Tables, G: seq<seq<seq<AlphaVector>>>, imm: seq<AlphaVector>, V: seq<AlphaVector>,
                      L: seq<BeliefPoint>, iter: int)
    returns (vs: seq<AlphaVector>)
    requires ProjectionShape(G, m) && |G| > 0 && ImmediateShape(imm, m) && 1 <= m.nO && 1 <= m.nA
    requires Acting(V, m.nS, m.nA) && Tagged(V, L) && Over(L, m.nS) && |L| > 0
    requires iter != 0 ==> |V| > 0
    ensures StageDone(m, G, imm, V, L, iter, vs)
  {
    if iter == 0 {
      vs := BackupAll(m, G, imm, L);
    } else {
      vs := Perseus(m, G, imm, V, L);
    }
  }

  // ---------------------------------------------------------------------------
  // The policy graph of computePolicyGraph.
  // ---------------------------------------------------------------------------

  /**
   * What computePolicyGraph needs of the vector sets: T + 1 non-empty sets
   * of vectors with one value per state and an action of the model, those
   * of the epochs before T tagged with points of one entry per state.
   */
  predicate Solvable(m: Tables, V: seq<seq<AlphaVector>>, T: nat) {
    ValidTables(m) && |V| == T + 1 &&
    (forall t :: 0 <= t <= T ==> Acting(V[t], m.nS, m.nA) && |V[t]| > 0) &&
    (forall t, k :: 0 <= t < T && 0 <= k < |V[t]| ==> V[t][k].belief.Some? && |V[t][k].belief.value.belief| == m.nS)
  }

  /** The points the vectors of the epochs before T are tagged with. */
  function TagPoints(V: seq<seq<AlphaVector>>, T: nat): set<BeliefPoint> {
    set t, k | 0 <= t < T && t < |V| && 0 <= k < |V[t]| && V[t][k].belief.Some? :: V[t][k].belief.value
  }

  /**
   * Where a node with belief b and action a moves on observation o: when o
   * can follow a at b, to the best vector of the next epoch at the updated
   * belief; otherwise to node 0.
   */
  predicate TransitionOk(m: Tables, b: seq<real>, a: nat, o: nat, Vnext: seq<AlphaVector>, j: int)
    requires ValidTables(m) && |b| == m.nS && a < m.nA && o < m.nO && Sized(Vnext, m.nS)
  {
    if AOProb(m, b, a, o) > 0.0 then IsBestAmong(Posterior(m, b, a, o), Vnext, |Vnext|, j) else j == 0
  }

  /** The transitions of a node with belief b and action a: a node of the next layer per observation, as TransitionOk says. */
  predicate RowFits(m: Tables, b: seq<real>, a: nat, Vnext: seq<AlphaVector>, row: seq<int>)
    requires ValidTables(m) && |b| == m.nS && a < m.nA && Sized(Vnext, m.nS)
  {
    |row| == m.nO &&
    forall o :: 0 <= o < m.nO ==> 0 <= row[o] < |Vnext| && TransitionOk(m, b, a, o, Vnext, row[o])
  }

  /**
   * Node q of layer t as computePolicyGraph builds it: below T the action and
   * point of vector q of epoch t and the transitions RowFits names; at T
   * action 0, no point and all transitions 0.
   */
  predicate NodeOk(m: Tables, V: seq<seq<AlphaVector>>, T: nat, t: nat, q: nat, action: int, belief: BeliefPoint?, row: seq<int>)
    requires Solvable(m, V, T) && t <= T && q < |V[t]|
  {
    if t < T then
      action == V[t][q].action && belief == V[t][q].belief.value &&
      RowFits(m, V[t][q].belief.value.belief, V[t][q].action, V[t + 1], row)
    else
      action == 0 && belief == null && row == seq(m.nO, o => 0)
  }

  /** Layer t as computePolicyGraph builds it: one node per vector of epoch t. */
  predicate LayerOk(m: Tables, V: seq<seq<AlphaVector>>, T: nat, t: nat, count: int, actions: seq<int>,
                    beliefs: seq<BeliefPoint?>, transitions: seq<seq<int>>)
    requires Solvable(m, V, T) && t <= T
  {
    count == |V[t]| && |actions| == count && |beliefs| == count && |transitions| == count &&
    forall q :: 0 <= q < count ==> NodeOk(m, V, T, t, q, actions[q], beliefs[q], transitions[q])
  }

  /** The tables of every layer as computePolicyGraph builds them. */
  predicate GraphOk(m: Tables, V: seq<seq<AlphaVector>>, T: nat, counts: seq<int>, actions: seq<seq<int>>,
                    beliefs: seq<seq<BeliefPoint?>>, transitions: seq<seq<seq<int>>>)
    requires Solvable(m, V, T)
  {
    |counts| == T + 1 && |actions| == T + 1 && |beliefs| == T + 1 && |transitions| == T + 1 &&
    forall t :: 0 <= t <= T ==> LayerOk(m, V, T, t, counts[t], actions[t], beliefs[t], transitions[t])
  }

  /**
   * The transitions of one node: its point is prepared, and every
   * observation that can follow the action leads to the best next vector at
   * the updated belief, any other to node 0.
   */
  method NodeRow(p: POMDP, b: BeliefPoint, a: nat, Vnext: seq<AlphaVector>) returns (row: seq<int>)
    requires p.Ready() && |b.belief| == p.base.nStates && a < p.base.nActions && p.Coherent(b)
    requires Sized(Vnext, p.base.nStates) && |Vnext| > 0
    modifies b
    ensures RowFits(p.Tab(), b.belief, a, Vnext, row)
    ensures b.aoProbs == Some(AOTable(p.Tab(), b.belief))
  {
    p.PrepareBelief(b);
    ghost var m := p.Tab();
    row := [];
    var o := 0;
    while o < p.nObservations
      invariant 0 <= o <= p.nObservations && |row| == o && p.Tab() == m
      invariant b.aoProbs == Some(AOTable(m, b.belief))
      invariant forall o' :: 0 <= o' < o ==> 0 <= row[o'] < |Vnext| && TransitionOk(m, b.belief, a, o', Vnext, row[o'])
    {
      var next := NodeTransition(p, b, a, o, Vnext);
      row := row + [next];
      o := o + 1;
    }
  }

  /** The transition of a node on observation o: the best next vector at the updated belief, or node 0 if o cannot follow a. */
  method NodeTransition(p: POMDP, b: BeliefPoint, a: nat, o: nat, Vnext: seq<AlphaVector>) returns (next: int)
    requires p.Ready() && |b.belief| == p.base.nStates && a < p.base.nActions && o < p.nObservations
    requires Sized(Vnext, p.base.nStates) && |Vnext| > 0
    requires b.aoProbs == Some(AOTable(p.Tab(), b.belief))
    modifies b
    ensures b.aoProbs == Some(AOTable(p.Tab(), b.belief))
    ensures 0 <= next < |Vnext| && TransitionOk(p.Tab(), b.belief, a, o, Vnext, next)
  {
    next := 0;
    if b.GetActionObservationProbability(a, o) > 0.0 {
      var bao := p.UpdateBelief(b, a, o);
      next := GetBestVectorIndex(bao.belief, Vnext);
    }
  }

  /** The nodes of layer t < T: per vector of epoch t its action, its point and its transitions. */
  method GraphLayer(p: POMDP, V: seq<seq<AlphaVector>>, T: nat, t: nat)
    returns (actions: seq<int>, beliefs: seq<BeliefPoint?>, transitions: seq<seq<int>>)
    requires p.Ready() && Solvable(p.Tab(), V, T) && t < T
    requires forall q :: q in TagPoints(V, T) ==> p.Coherent(q)
    modifies TagPoints(V, T)
    ensures LayerOk(p.Tab(), V, T, t, |V[t]|, actions, beliefs, transitions)
    ensures forall q :: q in TagPoints(V, T) ==> p.Coherent(q)
  {
    ghost var m := p.Tab();
    var U := V[t];
    actions, beliefs, transitions := [], [], [];
    var q := 0;
    while q < |U|
      invariant 0 <= q <= |U| && |actions| == q && |beliefs| == q && |transitions| == q
      invariant forall k :: 0 <= k < q ==> NodeOk(m, V, T, t, k, actions[k], beliefs[k], transitions[k])
      invariant forall x :: x in TagPoints(V, T) ==> p.Coherent(x)
    {
      var b := U[q].belief.value;
      assert b in TagPoints(V, T);
      var row := NodeRow(p, b, U[q].action, V[t + 1]);
      actions, beliefs, transitions := actions + [U[q].action], beliefs + [b], transitions + [row];
      q := q + 1;
    }
  }

  /** The tables of all T + 1 layers of computePolicyGraph. */
  method GraphTables(p: POMDP, V: seq<seq<AlphaVector>>, T: nat)
    returns (counts: seq<int>, actions: seq<seq<int>>, beliefs: seq<seq<BeliefPoint?>>, transitions: seq<seq<seq<int>>>)
    requires p.Ready() && Solvable(p.Tab(), V, T)
    requires forall q :: q in TagPoints(V, T) ==> p.Coherent(q)
    modifies TagPoints(V, T)
    ensures GraphOk(p.Tab(), V, T, counts, actions, beliefs, transitions)
  {
    ghost var m := p.Tab();
    counts, actions, beliefs, transitions := [], [], [], [];
    var t := 0;
    while t <= T
      invariant 0 <= t <= T + 1 && |counts| == t && |actions| == t && |beliefs| == t && |transitions| == t
      invariant forall u :: 0 <= u < t ==> LayerOk(m, V, T, u, counts[u], actions[u], beliefs[u], transitions[u])
      invariant forall x :: x in TagPoints(V, T) ==> p.Coherent(x)
    {
      var acts, bels, trans;
      if t < T {
        acts, bels, trans := GraphLayer(p, V, T, t);
      } else {
        acts, bels, trans := seq(|V[t]|, q => 0), seq(|V[t]|, q => null), seq(|V[t]|, q => seq(p.nObservations, o => 0));
      }
      counts, actions, beliefs, transitions := counts + [|V[t]|], actions + [acts], beliefs + [bels], transitions + [trans];
      t := t + 1;
    }
  }

  /** Tables built this way fit the model: every node below the last layer has an action of the model and moves to a node of the next layer. */
  lemma GraphFits(m: Tables, V: seq<seq<AlphaVector>>, T: nat, counts: seq<int>, actions: seq<seq<int>>,
                  beliefs: seq<seq<BeliefPoint?>>, transitions: seq<seq<seq<int>>>)
    requires Solvable(m, V, T) && GraphOk(m, V, T, counts, actions, beliefs, transitions)
    ensures Fits(Layers(T + 1, counts, actions, transitions), m)
  {
    forall l, q | 0 <= l < T && 0 <= q < counts[l]
      ensures 0 <= actions[l][q] < m.nA && |transitions[l][q]| >= m.nO
      ensures forall o :: 0 <= o < m.nO ==> 0 <= transitions[l][q][o] < counts[l + 1]
    {
      assert LayerOk(m, V, T, l, counts[l], actions[l], beliefs[l], transitions[l]);
      assert NodeOk(m, V, T, l, q, actions[l][q], beliefs[l][q], transitions[l][q]);
      assert LayerOk(m, V, T, l + 1, counts[l + 1], actions[l + 1], beliefs[l + 1], transitions[l + 1]);
    }
  }

  /** The graph's tables fit the model and its start node is a node of layer 0. */
  predicate Fitted(p: POMDP, pg: POMDPPolicyGraph)
    reads p.base
    requires p.Ready()
  {
    Fits(Layers(pg.numLayers, pg.layerNodeCount, pg.layerNodeActions, pg.layerTransitions), p.Tab()) &&
    0 <= pg.startNode < pg.layerNodeCount[0]
  }

  /**
   * The values evaluate(lambda) finds for the graph, as stored in it: the
   * values from the start node, averaged over the initial belief, of the
   * step weights, of R and of C_0 (a cost of 0 without cost functions).
   */
  predicate Evaluated(p: POMDP, pg: POMDPPolicyGraph, lambda: real)
    reads p.base, pg
    requires ModelReady(p) && Fitted(p, pg)
  {
    var m := p.Tab();
    var g := Layers(pg.numLayers, pg.layerNodeCount, pg.layerNodeActions, pg.layerTransitions);
    pg.expectedValue == StartValue(m, g, StepWeights(p, lambda), p.b0.belief, pg.startNode) &&
    pg.expectedReward == StartValue(m, g, p.base.rewardFunction.value, p.b0.belief, pg.startNode) &&
    pg.expectedCost == if p.costFunctions.Some? then StartValue(m, g, p.costFunctions.value[0], p.b0.belief, pg.startNode) else 0.0
  }

  /** The evaluation that closes computePolicyGraph: evaluate(lambda), then its three values copied into the graph. */
  method EvaluateGraph(p: POMDP, pg: POMDPPolicyGraph, lambda: real)
    requires ModelReady(p) && Fitted(p, pg)
    modifies pg
    ensures Evaluated(p, pg, lambda)
    ensures pg.expectedValue == pg.expectedReward - lambda * pg.expectedCost
    ensures pg.currentLayer == old(pg.currentLayer) && pg.currentNode == old(pg.currentNode)
    ensures pg.expectedValueUpperbound == old(pg.expectedValueUpperbound)
  {
    var eval := new PolicyGraphEvaluatorFinite(p, pg);
    eval.Evaluate(lambda);
    pg.expectedValue := eval.expectedValue;
    pg.expectedReward := eval.expectedReward;
    pg.expectedCost := eval.expectedCost;
  }

  /** A graph with one node per layer walks node 0 of layer min(k, T) after k observations. */
  lemma OneNodeWalk(pg: POMDPPolicyGraph, os: seq<int>)
    requires pg.WellFormed() && pg.startNode == 0
    requires forall l :: 0 <= l < pg.numLayers ==> pg.layerNodeCount[l] == 1
    requires forall i :: 0 <= i < |os| ==> 0 <= os[i] < pg.numObservations
    ensures pg.Run(Position(0, 0), os) == Position(if |os| < pg.numLayers then |os| else pg.numLayers - 1, 0)
  {
    pg.RunLayer(Position(0, 0), os);
  }

  /**
   * The graph computePolicyGraphSingleAction(a) builds for horizon T: one
   * node per layer, taking a before T and 0 at T, every observation leading
   * to node 0, no beliefs, start node 0.
   */
  predicate SingleActionGraph(p: POMDP, T: nat, a: int, pg: POMDPPolicyGraph)
    reads p.base
  {
    pg.WellFormed() && pg.numLayers == T + 1 && pg.startNode == 0 &&
    pg.numActions == p.base.nActions && pg.numObservations == p.nObservations &&
    pg.layerNodeBeliefs.None? && |pg.layerTransitions| == T + 1 &&
    forall t :: 0 <= t <= T ==>
      pg.layerNodeCount[t] == 1 && pg.layerNodeActions[t] == [if t < T then a else 0] &&
      pg.layerTransitions[t] == [seq(p.nObservations, o => 0)]
  }

  /** Executing the single-action graph takes a at every epoch before T, whatever is observed. */
  lemma SingleActionTakesA(p: POMDP, T: nat, a: int, pg: POMDPPolicyGraph, os: seq<int>)
    requires SingleActionGraph(p, T, a, pg) && |os| < T
    requires forall i :: 0 <= i < |os| ==> 0 <= os[i] < pg.numObservations
    ensures pg.Run(Position(0, 0), os) == Position(|os|, 0)
    ensures pg.layerNodeActions[|os|][pg.Run(Position(0, 0), os).node] == a
  {
    OneNodeWalk(pg, os);
  }

  class FiniteVI {
    var terminateTime: real
    var dumpPolicyGraph: bool
    var pomdp: POMDP?
    var T: nat
    var lambda: real
    var immediateRewards: seq<AlphaVector>
    var beliefLists: seq<seq<BeliefPoint>>
    /** The histories of the points of each epoch, the keys by which the source's hash sets compare points. */
    var beliefSets: seq<set<seq<int>>>
    var vectorSets: seq<seq<AlphaVector>>
    /** Where every point sits: owner[beliefLists[t][i]] == (t, i), so no point is listed twice. */
    ghost var owner: map<BeliefPoint, (int, int)>

    /** The model objects the solver reads. */
    ghost function Model(): set<object>
      reads this`pomdp
    {
      if pomdp == null then {} else {pomdp, pomdp.base}
    }

    /** Index of the first copy of b0 in layer t, after b0 itself at t = 0 and the corners. */
    function CopyIndex(t: nat): nat
      reads this`pomdp
      requires pomdp != null
    {
      Opening(t) + pomdp.base.nStates
    }

    /** T + 1 layers (and history sets), every point listed once: owner records where. */
    ghost predicate Owned()
      reads this`beliefLists, this`beliefSets, this`owner, this`T
    {
      |beliefLists| == T + 1 && |beliefSets| == T + 1 &&
      forall t, i :: 0 <= t <= T && 0 <= i < |beliefLists[t]| ==>
        beliefLists[t][i] in owner && owner[beliefLists[t][i]] == (t, i)
    }

    /**
     * The belief layers: T + 1 of them (and of the history sets), every
     * point listed once and in good order, b0 first in layer 0, and every
     * layer holding more points than states with a point that is not a state
     * belief at CopyIndex.
     */
    ghost predicate Layered()
      reads this`beliefLists, this`beliefSets, this`owner, this`T, this`pomdp, Model(), owner.Keys
    {
      Owned() && pomdp != null && ModelReady(pomdp) &&
      |beliefLists[0]| > 0 && beliefLists[0][0] == pomdp.b0 &&
      (forall t :: 0 <= t <= T ==> |beliefLists[t]| > CopyIndex(t)) &&
      PointsOk()
    }

    /** Every listed point is in good order, and the one at CopyIndex is not a state belief. */
    ghost predicate PointsOk()
      reads this`beliefLists, this`beliefSets, this`owner, this`T, this`pomdp, Model(), owner.Keys
    {
      Owned() && pomdp != null && ModelReady(pomdp) &&
      forall t, i :: 0 <= t <= T && 0 <= i < |beliefLists[t]| ==>
        PointOk(pomdp, beliefLists[t][i]) && (i == CopyIndex(t) ==> !beliefLists[t][i].isStateBelief)
    }

    /**
     * The vector sets: T + 1 of them, every vector with one entry per state
     * and an action of the model, those of the epochs before T tagged with a
     * point of their epoch, the last one non-empty; one immediate-reward
     * vector per action.
     */
    ghost predicate Valid()
      reads this, Model(), owner.Keys
    {
      Layered() && Vectors()
    }

    /** The vector sets and the immediate rewards, which no point update touches. */
    ghost predicate Vectors()
      reads this`beliefLists, this`T, this`pomdp, this`vectorSets, this`immediateRewards, Model()
    {
      VectorsFit(vectorSets)
    }

    /** The shape Vectors asks of the vector sets V. */
    ghost predicate VectorsFit(V: seq<seq<AlphaVector>>)
      reads this`beliefLists, this`T, this`pomdp, this`immediateRewards, Model()
    {
      pomdp != null && ModelReady(pomdp) && |beliefLists| == T + 1 &&
      |V| == T + 1 && ImmediateShape(immediateRewards, pomdp.Tab()) &&
      (forall t :: 0 <= t <= T ==> Acting(V[t], pomdp.base.nStates, pomdp.base.nActions)) &&
      (forall t :: 0 <= t < T ==> Tagged(V[t], beliefLists[t])) &&
      |V[T]| > 0
    }

    /** Replacing the vectors of an epoch before T by a fitting set keeps the shape. */
    lemma ReplaceVectors(t: nat, vs: seq<AlphaVector>)
      requires VectorsFit(vectorSets) && t < T
      requires Acting(vs, pomdp.base.nStates, pomdp.base.nActions) && Tagged(vs, beliefLists[t])
      ensures VectorsFit(vectorSets[t := vs])
    {
    }

    /** Two different listed positions hold different points. */
    lemma Distinct(t1: nat, i1: nat, t2: nat, i2: nat)
      requires Owned() && t1 <= T && t2 <= T && i1 < |beliefLists[t1]| && i2 < |beliefLists[t2]|
      requires (t1, i1) != (t2, i2)
      ensures beliefLists[t1][i1] != beliefLists[t2][i2]
    {
    }

    /** A layer whose bounds are finite is ready for the sawtooth bound. */
    lemma SnapshotReady(t: nat)
      requires Layered() && t <= T && Bounded(beliefLists[t])
      ensures SawtoothReady(Snapshot(beliefLists[t]), pomdp.base.nStates)
    {
      var P := Snapshot(beliefLists[t]);
      var nS := pomdp.base.nStates;
      forall i | 0 <= i < |P|
        ensures |P[i].belief| == nS && (P[i].isState ==> 0 <= P[i].state < nS) && (!P[i].isState ==> HasMass(P[i].belief))
      {
        assert PointOk(pomdp, beliefLists[t][i]);
      }
      assert !P[CopyIndex(t)].isState;
    }

    /** Two different positions of one layer hold different points. */
    lemma DistinctLayer(t: nat)
      requires Owned() && t <= T
      ensures forall i, j :: 0 <= i < j < |beliefLists[t]| ==> beliefLists[t][i] != beliefLists[t][j]
    {
      forall i, j | 0 <= i < j < |beliefLists[t]|
        ensures beliefLists[t][i] != beliefLists[t][j]
      {
        Distinct(t, i, t, j);
      }
    }

    /**
     * upperBoundUpdateSkip(t, beliefLists[t]): every point of layer t is
     * prepared and, unless tight, gets the best action's look-ahead over the
     * bounds of layer t + 1 (0 at the horizon) and the tightness test against
     * the vectors of epoch t. Layer t + 1 must carry finite bounds, and no
     * point of another layer changes.
     */
    method UpperBoundUpdateSkip(t: nat)
      requires Valid() && t < T
      requires t + 1 < T ==> Bounded(beliefLists[t + 1])
      modifies set q | q in beliefLists[t]
      ensures Valid() && Bounded(beliefLists[t])
      ensures forall u, i :: 0 <= u <= T && u != t && 0 <= i < |beliefLists[u]| ==> unchanged(beliefLists[u][i])
      ensures t + 1 < T ==> Bounded(beliefLists[t + 1])
      ensures t + 1 < T ==> SawtoothReady(old(Snapshot(beliefLists[t + 1])), pomdp.base.nStates)
      ensures forall i :: 0 <= i < |beliefLists[t]| ==>
        Fields(beliefLists[t][i]) ==
        PointAfter(pomdp.Tab(), immediateRewards, old(NextBounds(beliefLists, t, T)), vectorSets[t], beliefLists[t][i].belief,
                   old(Fields(beliefLists[t][i])))
    {
      if t + 1 < T {
        SnapshotReady(t + 1);
      }
      var next := NextBounds(beliefLists, t, T);
      DistinctLayer(t);
      OtherLayers(t);
      UpdateLayerBounds(pomdp, immediateRewards, beliefLists[t], next, vectorSets[t]);
      forall u, i | 0 <= u <= T && 0 <= i < |beliefLists[u]|
        ensures PointOk(pomdp, beliefLists[u][i]) && (i == CopyIndex(u) ==> !beliefLists[u][i].isStateBelief)
      {
      }
    }

    /** Every point of a layer has one entry per state. */
    lemma LayerOver(t: nat)
      requires Layered() && t <= T
      ensures Over(beliefLists[t], pomdp.base.nStates)
    {
      forall q | q in beliefLists[t]
        ensures |q.belief| == pomdp.base.nStates
      {
        var i :| 0 <= i < |beliefLists[t]| && beliefLists[t][i] == q;
        assert PointOk(pomdp, beliefLists[t][i]);
      }
    }

    /**
     * backupStagePerseus(t, iter): the back projections of the vectors of
     * epoch t + 1 are computed; in the first iteration the vectors of epoch
     * t become the backups at all points of layer t, in order; afterwards the
     * Perseus stage replaces them by a set of old vectors and backups at
     * points of the layer under which no point of the layer is worth less
     * than before. No other epoch's vectors change.
     */
    method BackupStagePerseus(t: nat, iter: int)
      requires Valid() && t < T && |vectorSets[t + 1]| > 0
      requires iter != 0 ==> |vectorSets[t]| > 0
      modifies this`vectorSets
      ensures Valid() && forall u :: 0 <= u <= T && u != t ==> vectorSets[u] == old(vectorSets[u])
      ensures StageDone(pomdp.Tab(), Projections(pomdp.Tab(), vectorSets[t + 1]), immediateRewards, old(vectorSets[t]),
                        beliefLists[t], iter, vectorSets[t])
    {
      var vs := NewStage(t, iter);
      SetVectors(t, vs);
    }

    /** The vectors backupStagePerseus(t, iter) puts at epoch t, from the back projections of those of epoch t + 1. */
    method NewStage(t: nat, iter: int) returns (vs: seq<AlphaVector>)
      requires Valid() && t < T && |vectorSets[t + 1]| > 0
      requires iter != 0 ==> |vectorSets[t]| > 0
      ensures StageDone(pomdp.Tab(), Projections(pomdp.Tab(), vectorSets[t + 1]), immediateRewards, vectorSets[t],
                        beliefLists[t], iter, vs)
    {
      var m := pomdp.Tab();
      var G := GetBackProjections(m, vectorSets[t + 1]);
      LayerOver(t);
      vs := StageVectors(m, G, immediateRewards, vectorSets[t], beliefLists[t], iter);
    }

    /** vectorSets[t] := vs, for vectors that fit epoch t; the points are untouched. */
    method SetVectors(t: nat, vs: seq<AlphaVector>)
      requires Valid() && t < T
      requires Acting(vs, pomdp.base.nStates, pomdp.base.nActions) && Tagged(vs, beliefLists[t])
      modifies this`vectorSets
      ensures Valid() && vectorSets == old(vectorSets)[t := vs]
    {
      ReplaceVectors(t, vs);
      vectorSets := vectorSets[t := vs];
      assert Layered();
    }

    /** No point of another layer is a point of layer t. */
    lemma OtherLayers(t: nat)
      requires Owned() && t <= T
      ensures forall u, i :: 0 <= u <= T && u != t && 0 <= i < |beliefLists[u]| ==> beliefLists[u][i] !in beliefLists[t]
    {
      forall u, i, j | 0 <= u <= T && u != t && 0 <= i < |beliefLists[u]| && 0 <= j < |beliefLists[t]|
        ensures beliefLists[t][j] != beliefLists[u][i]
      {
        assert owner[beliefLists[t][j]] == (t, j) && owner[beliefLists[u][i]] == (u, i);
      }
    }

    /** new FiniteVI(rnd): a time limit of 3600 seconds and no policy graph; the random source is a nondeterministic choice. */
    constructor()
      ensures terminateTime == 3600.0 && !dumpPolicyGraph && pomdp == null
    {
      terminateTime := 3600.0;
      dumpPolicyGraph := false;
      pomdp := null;
      T := 0;
      lambda := 0.0;
      immediateRewards := [];
      beliefLists := [];
      beliefSets := [];
      vectorSets := [];
      owner := map[];
    }

    method SetTerminateTime(t: real)
      modifies this`terminateTime
      ensures terminateTime == t
    {
      terminateTime := t;
    }

    method IncreaseRuntime(t: real)
      modifies this`terminateTime
      ensures terminateTime == old(terminateTime) + t
    {
      terminateTime := terminateTime + t;
    }

    method EnableDumpPolicyGraph()
      modifies this`dumpPolicyGraph
      ensures dumpPolicyGraph
    {
      dumpPolicyGraph := true;
    }

    /** One layer of initBeliefSets: b0 first in layer 0, then the corners and the copies of b0, each fresh and recorded in owner. */
    method NewLayer(t: nat) returns (layer: seq<BeliefPoint>)
      requires pomdp != null && |pomdp.b0.belief| == pomdp.base.nStates && HasMass(pomdp.b0.belief)
      requires pomdp.b0 in owner && owner[pomdp.b0] == (0, 0)
      modifies this`owner
      ensures BuiltLayer(layer, Opening(t), pomdp.base.nStates, pomdp.b0.belief)
      ensures t == 0 ==> layer[0] == pomdp.b0
      ensures forall i :: 0 <= i < |layer| ==> layer[i] in owner && owner[layer[i]] == (t, i)
      ensures forall i :: Opening(t) <= i < |layer| ==> fresh(layer[i])
      ensures forall i :: 0 <= i < |layer| ==> layer[i] == pomdp.b0 || fresh(layer[i])
      ensures forall p :: p in old(owner) ==> p in owner && owner[p] == old(owner)[p]
    {
      var pts := NewPoints(pomdp.base.nStates, pomdp.b0.belief);
      var head := if t == 0 then [pomdp.b0] else [];
      layer := head + pts;
      var first := |head|;
      RecordPoints(pts, t, first);
      forall i | 0 <= i < |layer|
        ensures layer[i] in owner && owner[layer[i]] == (t, i)
      {
        if i >= first {
          assert layer[i] == pts[i - first];
        }
      }
      BuiltFrom(head, pts, pomdp.base.nStates, pomdp.b0.belief);
    }

    /** The positions of new points: pts[i] is recorded at (t, first + i), and every point recorded before keeps its position. */
    method RecordPoints(pts: seq<BeliefPoint>, t: nat, first: nat)
      requires forall i, j :: 0 <= i < j < |pts| ==> pts[i] != pts[j]
      requires forall i :: 0 <= i < |pts| ==> pts[i] !in owner
      modifies this`owner
      ensures forall i :: 0 <= i < |pts| ==> pts[i] in owner && owner[pts[i]] == (t, first + i)
      ensures forall p :: p in old(owner) ==> p in owner && owner[p] == old(owner)[p]
    {
      ghost var k := 0;
      while k < |pts|
        invariant 0 <= k <= |pts|
        invariant forall i :: 0 <= i < k ==> pts[i] in owner && owner[pts[i]] == (t, first + i)
        invariant forall p :: p in old(owner) ==> p in owner && owner[p] == old(owner)[p]
      {
        assert forall i :: 0 <= i < k ==> pts[i] != pts[k];
        owner := owner[pts[k] := (t, first + k)];
        k := k + 1;
      }
    }

    /** Appends layer t to the t layers built so far, keeping every recorded position. */
    method AddLayer(t: nat)
      requires pomdp != null && |pomdp.b0.belief| == pomdp.base.nStates && HasMass(pomdp.b0.belief)
      requires pomdp.b0 in owner && owner[pomdp.b0] == (0, 0)
      requires |beliefLists| == t
      requires t > 0 ==> |beliefLists[0]| > 0 && beliefLists[0][0] == pomdp.b0
      requires forall u, i :: 0 <= u < t && 0 <= i < |beliefLists[u]| ==>
        beliefLists[u][i] in owner && owner[beliefLists[u][i]] == (u, i)
      requires forall u :: 0 <= u < t ==>
        BuiltLayer(beliefLists[u], Opening(u), pomdp.base.nStates, pomdp.b0.belief)
      modifies this`beliefLists, this`owner
      ensures |beliefLists| == t + 1 && beliefLists[..t] == old(beliefLists)
      ensures pomdp.b0 in owner && owner[pomdp.b0] == (0, 0)
      ensures |beliefLists[0]| > 0 && beliefLists[0][0] == pomdp.b0
      ensures forall u, i :: 0 <= u <= t && 0 <= i < |beliefLists[u]| ==>
        beliefLists[u][i] in owner && owner[beliefLists[u][i]] == (u, i)
      ensures forall u :: 0 <= u <= t ==>
        BuiltLayer(beliefLists[u], Opening(u), pomdp.base.nStates, pomdp.b0.belief)
      ensures forall i :: 0 <= i < |beliefLists[t]| ==> beliefLists[t][i] == pomdp.b0 || fresh(beliefLists[t][i])
    {
      ghost var owner0 := owner;
      ghost var lists0 := beliefLists;
      var nS := pomdp.base.nStates;
      var layer := NewLayer(t);
      beliefLists := beliefLists + [layer];
      assert beliefLists[..t] == lists0;
      forall u, i | 0 <= u <= t && 0 <= i < |beliefLists[u]|
        ensures beliefLists[u][i] in owner && owner[beliefLists[u][i]] == (u, i)
      {
        if u < t {
          assert beliefLists[u] == lists0[u];
          assert lists0[u][i] in owner0 && owner0[lists0[u][i]] == (u, i);
        } else {
          assert beliefLists[u] == layer;
        }
      }
      forall u | 0 <= u <= t
        ensures BuiltLayer(beliefLists[u], Opening(u), nS, pomdp.b0.belief)
      {
        if u < t {
          assert beliefLists[u] == lists0[u];
        }
      }
    }

    /** The layers of initBeliefSets, built after b0's bound is reset: b0 opens layer 0, then every layer gets its corners and copies of b0. */
    method BuildLayers()
      requires pomdp != null && |pomdp.b0.belief| == pomdp.base.nStates && HasMass(pomdp.b0.belief)
      modifies this`beliefLists, this`beliefSets, this`owner
      ensures |beliefLists| == T + 1 && |beliefSets| == T + 1
      ensures |beliefLists[0]| > 0 && beliefLists[0][0] == pomdp.b0
      ensures forall t, i :: 0 <= t <= T && 0 <= i < |beliefLists[t]| ==>
        beliefLists[t][i] in owner && owner[beliefLists[t][i]] == (t, i)
      ensures forall t :: 0 <= t <= T ==>
        BuiltLayer(beliefLists[t], Opening(t), pomdp.base.nStates, pomdp.b0.belief)
      ensures forall t :: 0 <= t <= T ==>
        beliefSets[t] == StateTags(pomdp.base.nStates) + (if t == 0 then {pomdp.b0.history} else {})
      ensures forall t, i :: 0 <= t <= T && 0 <= i < |beliefLists[t]| ==> beliefLists[t][i] == pomdp.b0 || fresh(beliefLists[t][i])
    {
      var b0 := pomdp.b0;
      var nS := pomdp.base.nStates;
      owner := map[b0 := (0, 0)];
      beliefLists := [];
      var t := 0;
      while t <= T
        invariant 0 <= t <= T + 1 && |beliefLists| == t
        invariant b0 in owner && owner[b0] == (0, 0)
        invariant t > 0 ==> |beliefLists[0]| > 0 && beliefLists[0][0] == b0
        invariant forall u, i :: 0 <= u < t && 0 <= i < |beliefLists[u]| ==>
          beliefLists[u][i] in owner && owner[beliefLists[u][i]] == (u, i)
        invariant forall u :: 0 <= u < t ==> BuiltLayer(beliefLists[u], Opening(u), nS, b0.belief)
        invariant forall u, i :: 0 <= u < t && 0 <= i < |beliefLists[u]| ==> beliefLists[u][i] == b0 || fresh(beliefLists[u][i])
      {
        AddLayer(t);
        t := t + 1;
      }
      var h0 := b0.history;
      beliefSets := seq(T + 1, u => StateTags(nS) + (if u == 0 then {h0} else {}));
    }

    /**
     * initBeliefSets: T + 1 layers. b0 gets bound +infinity and opens layer
     * 0; every layer then holds the corner of every state s (a state belief
     * with history [-(s+1)]) and nS points with b0's belief and history
     * [-(s+1)]. The copies share one array that the source fills entry by
     * entry while creating them, so all of them end up with b0's belief. The
     * history sets hold the histories added.
     */
    method InitBeliefSets()
      requires pomdp != null && ModelReady(pomdp) && Cached(pomdp, pomdp.b0)
      modifies this`beliefLists, this`beliefSets, this`owner, pomdp.b0
      ensures Layered()
      ensures pomdp.b0.upperBound == PosInf && !pomdp.b0.upperBoundTight
      ensures pomdp.b0.history == old(pomdp.b0.history) && pomdp.b0.beliefTransitionMap == old(pomdp.b0.beliefTransitionMap)
      ensures forall t :: 0 <= t <= T ==>
        BuiltLayer(beliefLists[t], Opening(t), pomdp.base.nStates, pomdp.b0.belief)
      ensures forall t :: 0 <= t <= T ==>
        beliefSets[t] == StateTags(pomdp.base.nStates) + (if t == 0 then {pomdp.b0.history} else {})
      ensures forall t, i :: 0 <= t <= T && 0 <= i < |beliefLists[t]| ==> beliefLists[t][i] == pomdp.b0 || fresh(beliefLists[t][i])
    {
      var b0 := pomdp.b0;
      var nS := pomdp.base.nStates;
      b0.ResetUpperBound();
      BuildLayers();
      forall u | 0 <= u <= T
        ensures |beliefLists[u]| > CopyIndex(u) && !beliefLists[u][CopyIndex(u)].isStateBelief
      {
        var pts := beliefLists[u][Opening(u)..];
        assert BuiltLayer(beliefLists[u], Opening(u), nS, b0.belief);
        assert InitialOk(pts[nS], nS, nS, b0.belief);
        assert pts[nS] == beliefLists[u][CopyIndex(u)];
      }
      forall u, i | 0 <= u <= T && 0 <= i < |beliefLists[u]|
        ensures PointOk(pomdp, beliefLists[u][i])
      {
        assert BuiltLayer(beliefLists[u], Opening(u), nS, b0.belief);
        if i >= Opening(u) {
          PlainIsOk(pomdp, beliefLists[u][i]);
        }
      }
    }

    /** The vector sets with no empty epoch are ready for computePolicyGraph: vectors carry their points, which are prepared consistently. */
    lemma GraphReady()
      requires Valid() && forall t :: 0 <= t < T ==> |vectorSets[t]| > 0
      ensures Solvable(pomdp.Tab(), vectorSets, T)
      ensures forall q :: q in TagPoints(vectorSets, T) ==> pomdp.Coherent(q)
    {
      forall t, k | 0 <= t < T && 0 <= k < |vectorSets[t]|
        ensures vectorSets[t][k].belief.Some? && |vectorSets[t][k].belief.value.belief| == pomdp.base.nStates
        ensures pomdp.Coherent(vectorSets[t][k].belief.value)
      {
        assert Tagged(vectorSets[t], beliefLists[t]);
        var i :| 0 <= i < |beliefLists[t]| && beliefLists[t][i] == vectorSets[t][k].belief.value;
        assert PointOk(pomdp, beliefLists[t][i]);
      }
    }

    /**
     * computePolicyGraph: layer t holds a node per vector of epoch t; below
     * T a node takes its vector's action and moves, on every observation
     * that can follow, to the best vector of epoch t + 1 at the updated
     * belief; the start node is the best vector of epoch 0 at b0; the graph
     * is then evaluated for lambda.
     */
    method ComputePolicyGraph() returns (pg: POMDPPolicyGraph)
      requires Valid() && forall t :: 0 <= t < T ==> |vectorSets[t]| > 0
      modifies TagPoints(vectorSets, T)
      ensures fresh(pg) && pg.WellFormed() && pg.numLayers == T + 1
      ensures pg.numActions == pomdp.base.nActions && pg.numObservations == pomdp.nObservations
      ensures Solvable(pomdp.Tab(), vectorSets, T) && pg.layerNodeBeliefs.Some?
      ensures GraphOk(pomdp.Tab(), vectorSets, T, pg.layerNodeCount, pg.layerNodeActions, pg.layerNodeBeliefs.value, pg.layerTransitions)
      ensures IsBestAmong(pomdp.b0.belief, vectorSets[0], |vectorSets[0]|, pg.startNode)
      ensures Fitted(pomdp, pg) && Evaluated(pomdp, pg, lambda)
    {
      pg := BuildGraph();
      EvaluateGraph(pomdp, pg, lambda);
    }

    /** The graph computePolicyGraph builds, before it is evaluated. */
    method BuildGraph() returns (pg: POMDPPolicyGraph)
      requires Valid() && forall t :: 0 <= t < T ==> |vectorSets[t]| > 0
      modifies TagPoints(vectorSets, T)
      ensures fresh(pg) && pg.WellFormed() && pg.numLayers == T + 1
      ensures pg.numActions == pomdp.base.nActions && pg.numObservations == pomdp.nObservations
      ensures Solvable(pomdp.Tab(), vectorSets, T) && pg.layerNodeBeliefs.Some?
      ensures GraphOk(pomdp.Tab(), vectorSets, T, pg.layerNodeCount, pg.layerNodeActions, pg.layerNodeBeliefs.value, pg.layerTransitions)
      ensures IsBestAmong(pomdp.b0.belief, vectorSets[0], |vectorSets[0]|, pg.startNode)
      ensures Fitted(pomdp, pg)
    {
      GraphReady();
      var counts, actions, beliefs, transitions := GraphTables(pomdp, vectorSets, T);
      var startNode := GetBestVectorIndex(pomdp.b0.belief, vectorSets[0]);
      GraphFits(pomdp.Tab(), vectorSets, T, counts, actions, beliefs, transitions);
      pg := new POMDPPolicyGraph(T + 1, counts, pomdp.base.nActions, pomdp.nObservations, actions, Some(beliefs), transitions, startNode);
    }

    /** computePolicyGraphSingleAction(a): the single-action graph for the horizon T, evaluated for lambda. */
    method ComputePolicyGraphSingleAction(a: int) returns (pg: POMDPPolicyGraph)
      requires pomdp != null && ModelReady(pomdp) && 0 <= a < pomdp.base.nActions
      ensures fresh(pg) && SingleActionGraph(pomdp, T, a, pg)
      ensures Fitted(pomdp, pg) && Evaluated(pomdp, pg, lambda)
    {
      var nO := pomdp.nObservations;
      var counts, actions, transitions := [], [], [];
      var t := 0;
      while t <= T
        invariant 0 <= t <= T + 1 && |counts| == t && |actions| == t && |transitions| == t
        invariant forall u :: 0 <= u < t ==>
          counts[u] == 1 && actions[u] == [if u < T then a else 0] && transitions[u] == [seq(nO, o => 0)]
      {
        var act := 0;
        if t < T {
          act := a;
        }
        counts, actions, transitions := counts + [1], actions + [[act]], transitions + [[seq(nO, o => 0)]];
        t := t + 1;
      }
      pg := new POMDPPolicyGraph(T + 1, counts, pomdp.base.nActions, nO, actions, None, transitions, 0);
      EvaluateGraph(pomdp, pg, lambda);
    }

    /** getNoConsumptionSolution(cpomdp, maxT, a): the solver takes the model and horizon, then builds the single-action graph. */
    method GetNoConsumptionSolution(p: POMDP, maxT: nat, a: int) returns (pg: POMDPPolicyGraph)
      requires ModelReady(p) && p.costFunctions.Some? && 0 <= a < p.base.nActions
      modifies this`pomdp, this`T
      ensures pomdp == p && T == maxT
      ensures fresh(pg) && SingleActionGraph(p, maxT, a, pg)
      ensures Fitted(p, pg) && Evaluated(p, pg, lambda)
    {
      pomdp := p;
      T := maxT;
      pg := ComputePolicyGraphSingleAction(a);
    }

    /**
     * The set-up of solveModel(pomdp, T, lambda): the model, horizon and
     * multiplier are stored and the belief layers built; every epoch before
     * T starts without vectors, epoch T holds a zero vector per action, the
     * immediate reward vector of action a holds the weights of a, and every
     * point of the last layer gets the bound 0.
     */
    method SetUp(p: POMDP, horizon: nat, lam: real)
      requires ModelReady(p) && Cached(p, p.b0)
      modifies this, p.b0
      ensures pomdp == p && T == horizon && lambda == lam && Valid()
      ensures forall t :: 0 <= t < T ==> vectorSets[t] == []
      ensures vectorSets[T] == ZeroVectors(p.base.nStates, p.base.nActions)
      ensures RewardVectors(immediateRewards, p, lam)
      ensures forall i :: 0 <= i < |beliefLists[T]| ==> beliefLists[T][i].upperBound == Finite(0.0)
    {
      Initialize(p, horizon, lam);
      SetUpTables();
    }

    /** The set-up after initBeliefSets: the immediate reward vectors, the vectors of every epoch and the bounds of the last layer. */
    method SetUpTables()
      requires Layered()
      modifies this`immediateRewards, this`vectorSets, set q | q in beliefLists[T]
      ensures Valid()
      ensures forall t :: 0 <= t < T ==> vectorSets[t] == []
      ensures vectorSets[T] == ZeroVectors(pomdp.base.nStates, pomdp.base.nActions)
      ensures RewardVectors(immediateRewards, pomdp, lambda)
      ensures forall i :: 0 <= i < |beliefLists[T]| ==> beliefLists[T][i].upperBound == Finite(0.0)
    {
      var imm := ImmediateRewards(pomdp, lambda);
      assert RewardVectors(imm, pomdp, lambda);
      SetUpVectors(imm);
      ZeroLastBounds();
    }

    /** The model, horizon and multiplier stored, then initBeliefSets; every point is b0 or new. */
    method Initialize(p: POMDP, horizon: nat, lam: real)
      requires ModelReady(p) && Cached(p, p.b0)
      modifies this`pomdp, this`T, this`lambda, this`beliefLists, this`beliefSets, this`owner, p.b0
      ensures pomdp == p && T == horizon && lambda == lam && Layered()
      ensures forall t, i :: 0 <= t <= T && 0 <= i < |beliefLists[t]| ==> beliefLists[t][i] == p.b0 || fresh(beliefLists[t][i])
    {
      pomdp, T, lambda := p, horizon, lam;
      InitBeliefSets();
    }

    /** The vectors of the set-up: the immediate reward vectors imm, no vectors before T and a zero vector per action at T. */
    method SetUpVectors(imm: seq<AlphaVector>)
      requires Layered() && ImmediateShape(imm, pomdp.Tab())
      modifies this`immediateRewards, this`vectorSets
      ensures Valid() && immediateRewards == imm
      ensures forall t :: 0 <= t < T ==> vectorSets[t] == []
      ensures vectorSets[T] == ZeroVectors(pomdp.base.nStates, pomdp.base.nActions)
    {
      immediateRewards := imm;
      var last := T;
      var zero := ZeroVectors(pomdp.base.nStates, pomdp.base.nActions);
      vectorSets := seq(last + 1, t => if t == last then zero else []);
      assert Layered();
    }

    /** setUpperBound(0.0) on every point of the last layer. */
    method ZeroLastBounds()
      requires Valid()
      modifies set q | q in beliefLists[T]
      ensures Valid()
      ensures forall i :: 0 <= i < |beliefLists[T]| ==> beliefLists[T][i].upperBound == Finite(0.0)
    {
      OtherLayers(T);
      ZeroBounds(beliefLists[T]);
      forall u, i | 0 <= u <= T && 0 <= i < |beliefLists[u]|
        ensures PointOk(pomdp, beliefLists[u][i]) && (i == CopyIndex(u) ==> !beliefLists[u][i].isStateBelief)
      {
        assert beliefLists[u][i] in beliefLists[T] ==> Fields(beliefLists[u][i]) == ZeroBound(old(Fields(beliefLists[u][i])));
      }
    }

    /**
     * The state after the stages of a sweep from T - 1 down to t: the
     * solver is in good order, the epochs from t on hold vectors (in later
     * iterations all do), and the layers from t to T - 1 have finite bounds.
     */
    ghost predicate SweptFrom(t: nat, iter: int)
      reads this, Model(), owner.Keys
    {
      Valid() && t <= T &&
      (forall u :: t <= u <= T ==> |vectorSets[u]| > 0) &&
      (iter != 0 ==> forall u :: 0 <= u < t ==> |vectorSets[u]| > 0) &&
      forall u :: t <= u < T ==> Bounded(beliefLists[u])
    }

    /**
     * The stages of epoch t: backupStagePerseus(t, iter), then
     * upperBoundUpdateSkip(t). Epoch t ends with what the backup stage leaves
     * there, layer t with finite bounds, and no other epoch or layer changes.
     */
    method SweepStep(t: nat, iter: int)
      requires t < T && SweptFrom(t + 1, iter)
      modifies this`vectorSets, set q | q in beliefLists[t]
      ensures SweptFrom(t, iter) && |vectorSets| == old(|vectorSets|)
      ensures forall u :: 0 <= u < |vectorSets| && u != t ==> vectorSets[u] == old(vectorSets[u])
      ensures StageDone(pomdp.Tab(), Projections(pomdp.Tab(), vectorSets[t + 1]), immediateRewards, old(vectorSets[t]),
                        beliefLists[t], iter, vectorSets[t])
      ensures forall u, i :: 0 <= u <= T && u != t && 0 <= i < |beliefLists[u]| ==> unchanged(beliefLists[u][i])
    {
      SweepBackup(t, iter);
      SweepBounds(t, iter);
    }

    /** backupStagePerseus(t, iter) within a sweep: epoch t gets the stage's vectors, the other epochs and the bounds stay. */
    method SweepBackup(t: nat, iter: int)
      requires t < T && SweptFrom(t + 1, iter)
      modifies this`vectorSets
      ensures SweptFrom(t + 1, iter) && |vectorSets[t]| > 0 && |vectorSets| == old(|vectorSets|)
      ensures forall u :: 0 <= u < |vectorSets| && u != t ==> vectorSets[u] == old(vectorSets[u])
      ensures StageDone(pomdp.Tab(), Projections(pomdp.Tab(), vectorSets[t + 1]), immediateRewards, old(vectorSets[t]),
                        beliefLists[t], iter, vectorSets[t])
    {
      BackupStagePerseus(t, iter);
    }

    /**
     * upperBoundUpdateSkip(t) within a sweep: every point of layer t gets
     * its fields after the bound update, finite bounds among them; the
     * vectors and the points of the other layers stay.
     */
    method SweepBounds(t: nat, iter: int)
      requires t < T && SweptFrom(t + 1, iter) && |vectorSets[t]| > 0
      modifies set q | q in beliefLists[t]
      ensures SweptFrom(t, iter)
      ensures forall u, i :: 0 <= u <= T && u != t && 0 <= i < |beliefLists[u]| ==> unchanged(beliefLists[u][i])
      ensures t + 1 < T ==> SawtoothReady(old(Snapshot(beliefLists[t + 1])), pomdp.base.nStates)
      ensures forall i :: 0 <= i < |beliefLists[t]| ==>
        Fields(beliefLists[t][i]) ==
        PointAfter(pomdp.Tab(), immediateRewards, old(NextBounds(beliefLists, t, T)), vectorSets[t], beliefLists[t][i].belief,
                   old(Fields(beliefLists[t][i])))
    {
      UpperBoundUpdateSkip(t);
      forall u | t < u < T
        ensures Bounded(beliefLists[u])
      {
        KeptBounded(beliefLists[u]);
      }
    }

    /**
     * The state after the stages of a sweep from T - 1 down to t, against
     * the vectors V0 from before the sweep: the epochs before t and epoch T
     * still hold those of V0, and the epochs from t to T - 1 hold what their
     * backup stages left.
     */
    ghost predicate SweptSince(t: nat, iter: int, V0: seq<seq<AlphaVector>>)
      reads this, Model(), owner.Keys
    {
      SweptFrom(t, iter) && |V0| == T + 1 && vectorSets[T] == V0[T] &&
      (forall u :: 0 <= u < t ==> vectorSets[u] == V0[u]) &&
      StagesDone(pomdp.Tab(), immediateRewards, V0, beliefLists, iter, vectorSets, t, T)
    }

    /** The stages of epoch t within a sweep that started from the vectors V0. */
    method SweepOn(t: nat, iter: int, ghost V0: seq<seq<AlphaVector>>)
      requires t < T && SweptSince(t + 1, iter, V0)
      modifies this`vectorSets, set q | q in beliefLists[t]
      ensures SweptSince(t, iter, V0)
    {
      ghost var V, m := vectorSets, pomdp.Tab();
      LayerOver(t);
      SweepStep(t, iter);
      assert pomdp.Tab() == m;
      UpdatedAt(vectorSets, V, t);
      StagesDoneNext(m, immediateRewards, V0, beliefLists, iter, V, t, T, vectorSets[t]);
    }

    /**
     * One sweep of solveModel's loop: the stages of every epoch from T - 1
     * down to 0. Every epoch t before T ends with what the backup stage
     * leaves from its vectors before the sweep and the final vectors of
     * epoch t + 1. The vectors of epoch T stay, every epoch ends with
     * vectors and every layer before T with finite bounds, so the graph can
     * be computed.
     */
    method Sweep(iter: int)
      requires Valid() && (iter != 0 ==> forall t :: 0 <= t < T ==> |vectorSets[t]| > 0)
      modifies this`vectorSets, set t, i | 0 <= t < T && 0 <= i < |beliefLists[t]| :: beliefLists[t][i]
      ensures Valid() && vectorSets[T] == old(vectorSets[T])
      ensures forall t :: 0 <= t <= T ==> |vectorSets[t]| > 0
      ensures forall t :: 0 <= t < T ==> Bounded(beliefLists[t])
      ensures StagesDone(pomdp.Tab(), immediateRewards, old(vectorSets), beliefLists, iter, vectorSets, 0, T)
    {
      ghost var V0 := vectorSets;
      var t: nat := T;
      while t > 0
        invariant t <= T && SweptSince(t, iter, V0)
      {
        t := t - 1;
        SweepOn(t, iter, V0);
      }
    }
  }
}
