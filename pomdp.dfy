/**
 * A POMDP: an MDP with stationary sparse transitions, an observation
 * function O(a, s', o) and an initial belief, together with the two belief
 * computations the solver uses: P(o | b, a) for every action and observation,
 * and the Bayesian update b^{a,o}.
 */
module Pomdp {
  import opened Numeric
  import opened Mdp
  import opened Beliefs

  /** acc with ws[i] added at index ds[i], for every i in order. */
  function AddAt(acc: seq<real>, ds: seq<int>, ws: seq<real>): (r: seq<real>)
    requires |ds| == |ws| && forall i :: 0 <= i < |ds| ==> 0 <= ds[i] < |acc|
    ensures |r| == |acc|
  {
    if |ds| == 0 then acc
    else
      var n := |ds| - 1;
      var prev := AddAt(acc, ds[..n], ws[..n]);
      prev[ds[n] := prev[ds[n]] + ws[n]]
  }

  /** The sum of the ws[i] whose index ds[i] is t. */
  function MassAt(ds: seq<int>, ws: seq<real>, t: int): real
    requires |ds| == |ws|
  {
    if |ds| == 0 then 0.0
    else
      var n := |ds| - 1;
      MassAt(ds[..n], ws[..n], t) + (if ds[n] == t then ws[n] else 0.0)
  }

  /** Scattering adds the total of the weights to the total of the vector. */
  lemma {:induction false} AddAtSum(acc: seq<real>, ds: seq<int>, ws: seq<real>)
    requires |ds| == |ws| && forall i :: 0 <= i < |ds| ==> 0 <= ds[i] < |acc|
    ensures Sum(AddAt(acc, ds, ws)) == Sum(acc) + Sum(ws)
    decreases |ds|
  {
    if |ds| > 0 {
      var n := |ds| - 1;
      var prev := AddAt(acc, ds[..n], ws[..n]);
      AddAtSum(acc, ds[..n], ws[..n]);
      SumUpdate(prev, ds[n], prev[ds[n]] + ws[n]);
    }
  }

  /** Entry t of the scattered vector gains exactly the weights aimed at t. */
  lemma {:induction false} AddAtEntry(acc: seq<real>, ds: seq<int>, ws: seq<real>, t: nat)
    requires |ds| == |ws| && forall i :: 0 <= i < |ds| ==> 0 <= ds[i] < |acc|
    requires t < |acc|
    ensures AddAt(acc, ds, ws)[t] == acc[t] + MassAt(ds, ws, t)
    decreases |ds|
  {
    if |ds| > 0 {
      var n := |ds| - 1;
      AddAtEntry(acc, ds[..n], ws[..n], t);
    }
  }

  /** Scattering one further weight. */
  lemma AddAtSnoc(acc: seq<real>, ds: seq<int>, ws: seq<real>, d: int, w: real)
    requires |ds| == |ws| && forall i :: 0 <= i < |ds| ==> 0 <= ds[i] < |acc|
    requires 0 <= d < |acc|
    ensures AddAt(acc, ds + [d], ws + [w]) == AddAt(acc, ds, ws)[d := AddAt(acc, ds, ws)[d] + w]
  {
    assert (ds + [d])[..|ds|] == ds && (ws + [w])[..|ws|] == ws;
  }

  /** Scattering two lists one after the other is scattering their concatenation. */
  lemma {:induction false} AddAtConcat(acc: seq<real>, d1: seq<int>, w1: seq<real>, d2: seq<int>, w2: seq<real>)
    requires |d1| == |w1| && forall i :: 0 <= i < |d1| ==> 0 <= d1[i] < |acc|
    requires |d2| == |w2| && forall i :: 0 <= i < |d2| ==> 0 <= d2[i] < |acc|
    ensures AddAt(acc, d1 + d2, w1 + w2) == AddAt(AddAt(acc, d1, w1), d2, w2)
    decreases |d2|
  {
    if |d2| == 0 {
      assert d1 + d2 == d1 && w1 + w2 == w1;
    } else {
      var n := |d2| - 1;
      AddAtConcat(acc, d1, w1, d2[..n], w2[..n]);
      assert (d1 + d2)[..|d1| + n] == d1 + d2[..n];
      assert (w1 + w2)[..|w1| + n] == w1 + w2[..n];
    }
  }

  /** xs[..i + 1] is xs[..i] followed by xs[i]. */
  lemma TakeSnoc<T>(xs: seq<T>, i: nat)
    requires i < |xs|
    ensures xs[..i + 1] == xs[..i] + [xs[i]]
  {
  }

  lemma Distribute(k: real, x: real, y: real, z: real)
    requires z == x + y
    ensures k * z == k * x + k * y
  {
  }

  /** Scaling every weight by k scales the total by k. */
  lemma {:induction false} SumScaled(k: real, s: seq<real>, r: seq<real>)
    requires |s| == |r| && forall i :: 0 <= i < |s| ==> s[i] == k * r[i]
    ensures Sum(s) == k * Sum(r)
    decreases |s|
  {
    if |s| > 0 {
      var n := |s| - 1;
      SumScaled(k, s[..n], r[..n]);
      Distribute(k, Sum(r[..n]), r[n], Sum(r));
    }
  }

  /** ... and every mass aimed at one index. */
  lemma {:induction false} MassAtScaled(k: real, ds: seq<int>, s: seq<real>, r: seq<real>, t: int)
    requires |ds| == |s| == |r| && forall i :: 0 <= i < |s| ==> s[i] == k * r[i]
    ensures MassAt(ds, s, t) == k * MassAt(ds, r, t)
    decreases |s|
  {
    if |s| > 0 {
      var n := |s| - 1;
      MassAtScaled(k, ds[..n], s[..n], r[..n], t);
      Distribute(k, MassAt(ds[..n], r[..n], t), if ds[n] == t then r[n] else 0.0, MassAt(ds, r, t));
    }
  }

  /** The stationary tables a POMDP's belief computations read. */
  datatype Tables = Tables(nS: nat, nA: nat, nO: nat,
                           dest: seq<seq<seq<int>>>, prob: seq<seq<seq<real>>>, obs: seq<seq<seq<real>>>)

  /** O(a, s', o) exists for every action, state and observation. */
  predicate ObservationsCover(obs: seq<seq<seq<real>>>, nS: nat, nA: nat, nO: nat) {
    |obs| >= nA &&
    forall a :: 0 <= a < nA ==> |obs[a]| >= nS && forall s :: 0 <= s < nS ==> |obs[a][s]| >= nO
  }

  /** Sparse transitions whose destinations are states, and an observation table covering the model. */
  predicate ValidTables(m: Tables) {
    SparseCovers(m.dest, m.prob, m.nS, m.nA) && ObservationsCover(m.obs, m.nS, m.nA, m.nO) &&
    forall s, a, i :: 0 <= s < m.nS && 0 <= a < m.nA && 0 <= i < |m.dest[s][a]| ==> 0 <= m.dest[s][a][i] < m.nS
  }

  /** A belief, an action and an observation the tables cover. */
  predicate Indices(m: Tables, b: seq<real>, a: nat, o: nat) {
    ValidTables(m) && a < m.nA && o < m.nO && m.nS <= |b|
  }

  /** O(a, s', o) P(s' | s, a) b(s) for every successor s' of s, in list order. */
  function Weights(m: Tables, b: seq<real>, a: nat, o: nat, s: nat): (r: seq<real>)
    requires Indices(m, b, a, o) && s < m.nS
    ensures |r| == |m.dest[s][a]|
  {
    seq(|m.dest[s][a]|, i requires 0 <= i < |m.dest[s][a]| => m.obs[a][m.dest[s][a][i]][o] * m.prob[s][a][i] * b[s])
  }

  /** The same products with the factor k = 1 / nc in the place updateBelief puts it. */
  function Shares(m: Tables, b: seq<real>, a: nat, o: nat, k: real, s: nat): (r: seq<real>)
    requires Indices(m, b, a, o) && s < m.nS
    ensures |r| == |m.dest[s][a]|
  {
    seq(|m.dest[s][a]|, i requires 0 <= i < |m.dest[s][a]| => m.obs[a][m.dest[s][a][i]][o] * m.prob[s][a][i] * k * b[s])
  }

  /** The i-th share of s, from its three factors. */
  lemma ShareValue(m: Tables, b: seq<real>, a: nat, o: nat, k: real, s: nat, i: nat, x: real, y: real, z: real)
    requires Indices(m, b, a, o) && s < m.nS && i < |m.dest[s][a]|
    requires x == m.obs[a][m.dest[s][a][i]][o] && y == m.prob[s][a][i] && z == b[s]
    ensures Shares(m, b, a, o, k, s)[i] == x * y * k * z
  {
  }

  /** The successors of the states s < n, state by state and in list order. */
  function FlatDests(m: Tables, a: nat, n: nat): seq<int>
    requires ValidTables(m) && a < m.nA && n <= m.nS
  {
    if n == 0 then [] else FlatDests(m, a, n - 1) + m.dest[n - 1][a]
  }

  /** Every successor is a state. */
  lemma {:induction false} FlatDestsInRange(m: Tables, a: nat, n: nat)
    requires ValidTables(m) && a < m.nA && n <= m.nS
    ensures forall j :: 0 <= j < |FlatDests(m, a, n)| ==> 0 <= FlatDests(m, a, n)[j] < m.nS
  {
    if n > 0 {
      FlatDestsInRange(m, a, n - 1);
    }
  }

  /** Their weights, in the same order. */
  function FlatWeights(m: Tables, b: seq<real>, a: nat, o: nat, n: nat): (r: seq<real>)
    requires Indices(m, b, a, o) && n <= m.nS
    ensures |r| == |FlatDests(m, a, n)|
  {
    if n == 0 then [] else FlatWeights(m, b, a, o, n - 1) + Weights(m, b, a, o, n - 1)
  }

  /** Their shares, in the same order. */
  function FlatShares(m: Tables, b: seq<real>, a: nat, o: nat, k: real, n: nat): (r: seq<real>)
    requires Indices(m, b, a, o) && n <= m.nS
    ensures |r| == |FlatDests(m, a, n)|
  {
    if n == 0 then [] else FlatShares(m, b, a, o, k, n - 1) + Shares(m, b, a, o, k, n - 1)
  }

  /** Every share is its weight times k. */
  lemma {:induction false} FlatSharesScaled(m: Tables, b: seq<real>, a: nat, o: nat, k: real, n: nat)
    requires Indices(m, b, a, o) && n <= m.nS
    ensures forall j :: 0 <= j < |FlatDests(m, a, n)| ==> FlatShares(m, b, a, o, k, n)[j] == k * FlatWeights(m, b, a, o, n)[j]
  {
    if n > 0 {
      FlatSharesScaled(m, b, a, o, k, n - 1);
      var p := |FlatDests(m, a, n - 1)|;
      var sh, ws := Shares(m, b, a, o, k, n - 1), Weights(m, b, a, o, n - 1);
      forall j | 0 <= j < |sh|
        ensures sh[j] == k * ws[j]
      {
        var x, y, z := m.obs[a][m.dest[n - 1][a][j]][o], m.prob[n - 1][a][j], b[n - 1];
        assert x * y * k * z == k * (x * y * z);
      }
      forall j | p <= j < |FlatDests(m, a, n)|
        ensures FlatShares(m, b, a, o, k, n)[j] == k * FlatWeights(m, b, a, o, n)[j]
      {
        assert FlatShares(m, b, a, o, k, n)[j] == sh[j - p];
        assert FlatWeights(m, b, a, o, n)[j] == ws[j - p];
      }
    }
  }

  /** P(o | b, a): the weights of all successors of all states added up. */
  function AOProb(m: Tables, b: seq<real>, a: nat, o: nat): real
    requires Indices(m, b, a, o)
  {
    Sum(FlatWeights(m, b, a, o, m.nS))
  }

  /** The table prepareBelief caches: P(o | b, a) at [a][o]. */
  function AOTable(m: Tables, b: seq<real>): (r: seq<seq<real>>)
    requires ValidTables(m) && m.nS <= |b|
    ensures |r| == m.nA && forall a :: 0 <= a < m.nA ==> |r[a]| == m.nO
    ensures forall a, o :: 0 <= a < m.nA && 0 <= o < m.nO ==> r[a][o] == AOProb(m, b, a, o)
  {
    seq(m.nA, a requires 0 <= a < m.nA => seq(m.nO, o requires 0 <= o < m.nO => AOProb(m, b, a, o)))
  }

  /** The belief vector once the successors of the states s < n have received their shares. */
  function Scattered(m: Tables, b: seq<real>, a: nat, o: nat, k: real, n: nat): (r: seq<real>)
    requires Indices(m, b, a, o) && n <= m.nS
    ensures |r| == m.nS
  {
    FlatDestsInRange(m, a, n);
    AddAt(Zeros(m.nS), FlatDests(m, a, n), FlatShares(m, b, a, o, k, n))
  }

  /** Before any state has been visited the vector is all zeros. */
  lemma ScatteredStart(m: Tables, b: seq<real>, a: nat, o: nat, k: real)
    requires Indices(m, b, a, o)
    ensures Scattered(m, b, a, o, k, 0) == Zeros(m.nS)
  {
  }

  /** State s scatters its shares on top of the states before it. */
  lemma ScatteredStep(m: Tables, b: seq<real>, a: nat, o: nat, k: real, s: nat)
    requires Indices(m, b, a, o) && s < m.nS
    ensures Scattered(m, b, a, o, k, s + 1) == AddAt(Scattered(m, b, a, o, k, s), m.dest[s][a], Shares(m, b, a, o, k, s))
  {
    FlatDestsInRange(m, a, s);
    AddAtConcat(Zeros(m.nS), FlatDests(m, a, s), FlatShares(m, b, a, o, k, s), m.dest[s][a], Shares(m, b, a, o, k, s));
  }

  /** The belief b^{a,o}. */
  function Posterior(m: Tables, b: seq<real>, a: nat, o: nat): (r: seq<real>)
    requires Indices(m, b, a, o) && AOProb(m, b, a, o) > 0.0
    ensures |r| == m.nS
  {
    Scattered(m, b, a, o, 1.0 / AOProb(m, b, a, o), m.nS)
  }

  /** P(s', o | b, a): the weights of all successors equal to target added up. */
  function Joint(m: Tables, b: seq<real>, a: nat, o: nat, target: nat): real
    requires Indices(m, b, a, o)
  {
    MassAt(FlatDests(m, a, m.nS), FlatWeights(m, b, a, o, m.nS), target)
  }

  /** Entry target of the fully scattered vector is k times P(target, o | b, a). */
  lemma ScatteredEntry(m: Tables, b: seq<real>, a: nat, o: nat, k: real, target: nat)
    requires Indices(m, b, a, o) && target < m.nS
    ensures Scattered(m, b, a, o, k, m.nS)[target] == k * Joint(m, b, a, o, target)
  {
    var ds, sh, ws := FlatDests(m, a, m.nS), FlatShares(m, b, a, o, k, m.nS), FlatWeights(m, b, a, o, m.nS);
    assert Scattered(m, b, a, o, k, m.nS)[target] == MassAt(ds, sh, target) by {
      FlatDestsInRange(m, a, m.nS);
      AddAtEntry(Zeros(m.nS), ds, sh, target);
    }
    assert MassAt(ds, sh, target) == k * MassAt(ds, ws, target) by {
      FlatSharesScaled(m, b, a, o, k, m.nS);
      MassAtScaled(k, ds, sh, ws, target);
    }
  }

  /** The fully scattered vector adds up to k times P(o | b, a). */
  lemma ScatteredSum(m: Tables, b: seq<real>, a: nat, o: nat, k: real)
    requires Indices(m, b, a, o)
    ensures Sum(Scattered(m, b, a, o, k, m.nS)) == k * AOProb(m, b, a, o)
  {
    var ds, sh, ws := FlatDests(m, a, m.nS), FlatShares(m, b, a, o, k, m.nS), FlatWeights(m, b, a, o, m.nS);
    assert Sum(Scattered(m, b, a, o, k, m.nS)) == Sum(sh) by {
      SumZeros(m.nS);
      FlatDestsInRange(m, a, m.nS);
      AddAtSum(Zeros(m.nS), ds, sh);
    }
    assert Sum(sh) == k * Sum(ws) by {
      FlatSharesScaled(m, b, a, o, k, m.nS);
      SumScaled(k, sh, ws);
    }
  }

  /** b^{a,o}(s') is P(s', o | b, a) / P(o | b, a). */
  lemma PosteriorIsNormalisedJoint(m: Tables, b: seq<real>, a: nat, o: nat, target: nat)
    requires Indices(m, b, a, o) && target < m.nS && AOProb(m, b, a, o) > 0.0
    ensures Posterior(m, b, a, o)[target] == Joint(m, b, a, o, target) / AOProb(m, b, a, o)
  {
    ScatteredEntry(m, b, a, o, 1.0 / AOProb(m, b, a, o), target);
  }

  /** The entries of the updated belief add up to 1. */
  lemma PosteriorSumsToOne(m: Tables, b: seq<real>, a: nat, o: nat)
    requires Indices(m, b, a, o) && AOProb(m, b, a, o) > 0.0
    ensures Sum(Posterior(m, b, a, o)) == 1.0
  {
    var nc := AOProb(m, b, a, o);
    ScatteredSum(m, b, a, o, 1.0 / nc);
    assert (1.0 / nc) * nc == 1.0;
  }


  class POMDP {
    const base: MDP
    const nObservations: nat
    const observationFunction: seq<seq<seq<real>>>
    const b0: BeliefPoint
    /** The cost tables [k][s][a] of a constrained POMDP, none for a plain one. */
    const costFunctions: Option<seq<seq<seq<real>>>>

    /** The MDP part is created fresh with initial state 0. */
    constructor(nStates: nat, nActions: nat, nObservations: nat, observationFunction: seq<seq<seq<real>>>,
                b0: BeliefPoint, nDecisions: nat, costFunctions: Option<seq<seq<seq<real>>>>)
      ensures fresh(base)
      ensures base.nStates == nStates && base.nActions == nActions
      ensures base.initialState == 0 && base.nDecisions == nDecisions
      ensures !base.rewardsDefined && !base.transitionsDefined
      ensures this.nObservations == nObservations && this.observationFunction == observationFunction && this.b0 == b0
      ensures this.costFunctions == costFunctions
    {
      base := new MDP(nStates, nActions, 0, nDecisions);
      this.nObservations := nObservations;
      this.observationFunction := observationFunction;
      this.b0 := b0;
      this.costFunctions := costFunctions;
    }

    /** The model's stationary tables. */
    function Tab(): (m: Tables)
      reads base
      requires base.TransitionsReady() && !base.hasTimeDependentTransitions
      ensures m.nS == base.nStates && m.nA == base.nActions && m.nO == nObservations
    {
      Tables(base.nStates, base.nActions, nObservations,
             base.transitionDestinations.value, base.transitionProbabilities.value, observationFunction)
    }

    /** What the belief computations need: stationary transitions into states and a covering observation table. */
    predicate Ready()
      reads base
    {
      base.TransitionsReady() && !base.hasTimeDependentTransitions && ValidTables(Tab())
    }

    /** getObservationProbability(a, sNext, o). */
    function GetObservationProbability(a: int, sNext: int, o: int): (p: real)
      requires ObservationsCover(observationFunction, base.nStates, base.nActions, nObservations)
      requires 0 <= a < base.nActions && 0 <= sNext < base.nStates && 0 <= o < nObservations
      ensures p == observationFunction[a][sNext][o]
    {
      observationFunction[a][sNext][o]
    }

    /** A point's cache, once filled, holds P(o | b, a) for its own belief. */
    predicate Coherent(bp: BeliefPoint)
      reads base, bp
      requires Ready()
    {
      bp.aoProbs.Some? ==> base.nStates <= |bp.belief| && bp.aoProbs.value == AOTable(Tab(), bp.belief)
    }

    /** The innermost loop of prepareBelief: the weights of the successors of s added to prob. */
    method AddSuccessorWeights(b: BeliefPoint, a: nat, o: nat, s: nat, prob0: real) returns (prob: real)
      requires Ready() && a < base.nActions && o < nObservations && s < base.nStates <= |b.belief|
      ensures prob == prob0 + Sum(Weights(Tab(), b.belief, a, o, s))
    {
      ghost var ws := Weights(Tab(), b.belief, a, o, s);
      var transitionDestinations := base.GetTransitionDestinations(s, a);
      var transitionProbabilities := base.GetTransitionProbabilities(s, a);
      prob := prob0;
      var i := 0;
      while i < |transitionDestinations|
        invariant 0 <= i <= |transitionDestinations|
        invariant prob == prob0 + Sum(ws[..i])
      {
        var sNext := transitionDestinations[i];
        var sNextProb := transitionProbabilities[i];
        SumPrefixStep(ws, i);
        prob := prob + GetObservationProbability(a, sNext, o) * sNextProb * b.GetBelief(s);
        i := i + 1;
      }
      assert ws[..i] == ws;
    }

    /** The inner two loops of prepareBelief: P(o | b, a) summed state by state and successor by successor. */
    method ObservationProbability(b: BeliefPoint, a: nat, o: nat) returns (prob: real)
      requires Ready() && a < base.nActions && o < nObservations && base.nStates <= |b.belief|
      ensures prob == AOProb(Tab(), b.belief, a, o)
    {
      ghost var m := Tab();
      prob := 0.0;
      var s := 0;
      while s < base.nStates
        invariant 0 <= s <= base.nStates
        invariant prob == Sum(FlatWeights(m, b.belief, a, o, s))
      {
        ghost var done := FlatWeights(m, b.belief, a, o, s);
        prob := AddSuccessorWeights(b, a, o, s, prob);
        SumConcat(done, Weights(m, b.belief, a, o, s));
        s := s + 1;
      }
    }

    /**
     * prepareBelief(b): nothing happens when the cache is already filled;
     * otherwise it is filled with P(o | b, a) for every action and observation.
     */
    method PrepareBelief(b: BeliefPoint)
      requires Ready() && base.nStates <= |b.belief|
      modifies b
      ensures old(b.aoProbs).Some? ==> b.aoProbs == old(b.aoProbs)
      ensures old(b.aoProbs).None? ==> b.aoProbs == Some(AOTable(Tab(), b.belief))
      ensures b.isStateBelief == old(b.isStateBelief) && b.state == old(b.state) && b.history == old(b.history)
      ensures b.upperBound == old(b.upperBound) && b.upperBoundTight == old(b.upperBoundTight)
      ensures b.beliefTransitionMap == old(b.beliefTransitionMap)
    {
      if b.HasActionObservationProbabilities() {
        return;
      }
      ghost var table := AOTable(Tab(), b.belief);
      var aoProbs: seq<seq<real>> := [];
      var a := 0;
      while a < base.nActions
        invariant 0 <= a <= base.nActions && |aoProbs| == a
        invariant unchanged(b)
        invariant forall a' :: 0 <= a' < a ==> aoProbs[a'] == table[a']
      {
        var row: seq<real> := [];
        var o := 0;
        while o < nObservations
          invariant 0 <= o <= nObservations && |row| == o
          invariant unchanged(b)
          invariant forall o' :: 0 <= o' < o ==> row[o'] == table[a][o']
        {
          var prob := ObservationProbability(b, a, o);
          row := row + [prob];
          o := o + 1;
        }
        assert row == table[a];
        aoProbs := aoProbs + [row];
        a := a + 1;
      }
      assert aoProbs == table;
      b.SetActionObservationProbabilities(aoProbs);
    }

    /** The inner loop of updateBelief: the successors of s receive their shares of the new belief. */
    method ScatterSuccessors(b: BeliefPoint, a: nat, o: nat, nc: real, s: nat, newBelief: array<real>)
      requires Ready() && a < base.nActions && o < nObservations && s < base.nStates <= |b.belief|
      requires nc != 0.0 && newBelief.Length == base.nStates
      modifies newBelief
      ensures newBelief[..] == AddAt(old(newBelief[..]), Tab().dest[s][a], Shares(Tab(), b.belief, a, o, 1.0 / nc, s))
    {
      ghost var m := Tab();
      ghost var start := newBelief[..];
      var transitionDestinations := base.GetTransitionDestinations(s, a);
      var transitionProbabilities := base.GetTransitionProbabilities(s, a);
      assert transitionDestinations == m.dest[s][a] && transitionProbabilities == m.prob[s][a];
      ghost var shares := Shares(m, b.belief, a, o, 1.0 / nc, s);
      var i := 0;
      while i < |transitionDestinations|
        invariant 0 <= i <= |transitionDestinations|
        invariant newBelief[..] == AddAt(start, transitionDestinations[..i], shares[..i])
      {
        var sNext := transitionDestinations[i];
        var sNextProb := transitionProbabilities[i];
        TakeSnoc(transitionDestinations, i);
        TakeSnoc(shares, i);
        AddAtSnoc(start, transitionDestinations[..i], shares[..i], sNext, shares[i]);
        ShareValue(m, b.belief, a, o, 1.0 / nc, s, i, GetObservationProbability(a, sNext, o), sNextProb, b.GetBelief(s));
        assert GetObservationProbability(a, sNext, o) * sNextProb * (1.0 / nc) * b.GetBelief(s) == shares[i];
        ghost var before := newBelief[..];
        newBelief[sNext] := newBelief[sNext] + GetObservationProbability(a, sNext, o) * sNextProb * (1.0 / nc) * b.GetBelief(s);
        assert newBelief[sNext] == before[sNext] + shares[i];
        assert newBelief[..] == before[sNext := before[sNext] + shares[i]];
        i := i + 1;
      }
      assert transitionDestinations[..i] == transitionDestinations && shares[..i] == shares;
    }

    /** The two loops of updateBelief: every state's successors receive their shares, starting from zeros. */
    method ScatterAll(b: BeliefPoint, a: nat, o: nat, nc: real) returns (newBelief: array<real>)
      requires Ready() && a < base.nActions && o < nObservations && base.nStates <= |b.belief| && nc != 0.0
      ensures fresh(newBelief) && newBelief[..] == Scattered(Tab(), b.belief, a, o, 1.0 / nc, base.nStates)
    {
      ghost var m := Tab();
      newBelief := new real[base.nStates](_ => 0.0);
      assert newBelief[..] == Zeros(base.nStates);
      ScatteredStart(m, b.belief, a, o, 1.0 / nc);
      var s := 0;
      while s < base.nStates
        invariant 0 <= s <= base.nStates
        invariant newBelief[..] == Scattered(m, b.belief, a, o, 1.0 / nc, s)
        modifies newBelief
      {
        ScatteredStep(m, b.belief, a, o, 1.0 / nc, s);
        ScatterSuccessors(b, a, o, nc, s, newBelief);
        s := s + 1;
      }
    }

    /**
     * updateBelief(b, a, o) on a point whose probabilities are already
     * cached: b is left as it is, and a fresh point holds the normalised
     * vector b^{a,o}.
     */
    method PreparedUpdate(b: BeliefPoint, a: int, o: int) returns (bao: BeliefPoint)
      requires Ready() && 0 <= a < base.nActions && 0 <= o < nObservations
      requires base.nStates <= |b.belief| && b.aoProbs == Some(AOTable(Tab(), b.belief))
      requires AOProb(Tab(), b.belief, a, o) > 0.0
      ensures fresh(bao) && bao.belief == Posterior(Tab(), b.belief, a, o)
      ensures bao.aoProbs.None? && !bao.isStateBelief && bao.state == -1 && bao.history == []
      ensures bao.upperBound == PosInf && !bao.upperBoundTight && bao.beliefTransitionMap.None?
    {
      var nc := b.GetActionObservationProbability(a, o);
      assert nc == AOProb(Tab(), b.belief, a, o);
      var newBelief := ScatterAll(b, a, o, nc);
      bao := new BeliefPoint(newBelief[..]);
    }

    /**
     * updateBelief(b, a, o): b is prepared if it was not, P(o | b, a) must be
     * positive, and a fresh point holds the normalised vector b^{a,o}.
     */
    method UpdateBelief(b: BeliefPoint, a: int, o: int) returns (bao: BeliefPoint)
      requires Ready() && 0 <= a < base.nActions && 0 <= o < nObservations
      requires base.nStates <= |b.belief| && Coherent(b)
      requires AOProb(Tab(), b.belief, a, o) > 0.0
      modifies b
      ensures fresh(bao) && bao.belief == Posterior(Tab(), b.belief, a, o)
      ensures bao.aoProbs.None? && !bao.isStateBelief && bao.state == -1 && bao.history == []
      ensures bao.upperBound == PosInf && !bao.upperBoundTight && bao.beliefTransitionMap.None?
      ensures b.aoProbs == Some(AOTable(Tab(), b.belief))
      ensures b.isStateBelief == old(b.isStateBelief) && b.state == old(b.state) && b.history == old(b.history)
      ensures b.upperBound == old(b.upperBound) && b.upperBoundTight == old(b.upperBoundTight)
      ensures b.beliefTransitionMap == old(b.beliefTransitionMap)
    {
      if !b.HasActionObservationProbabilities() {
        PrepareBelief(b);
      }
      bao := PreparedUpdate(b, a, o);
    }

    /** Every cost table of a constrained POMDP covers all states and actions. */
    predicate CostsReady()
      reads base
    {
      costFunctions.Some? &&
      forall k :: 0 <= k < |costFunctions.value| ==> Covers(costFunctions.value[k], base.nStates, base.nActions)
    }

    /** getCost(k, s, a) of a constrained POMDP. */
    function GetCost(k: int, s: int, a: int): (c: real)
      reads base
      requires CostsReady() && 0 <= k < |costFunctions.value|
      requires 0 <= s < base.nStates && 0 <= a < base.nActions
      ensures c == costFunctions.value[k][s][a]
    {
      costFunctions.value[k][s][a]
    }

    /** getReward(s, a) of the stationary reward table. */
    function GetReward(s: int, a: int): (r: real)
      reads base
      requires base.RewardsReady() && !base.hasTimeDependentReward
      requires 0 <= s < base.nStates && 0 <= a < base.nActions
      ensures r == base.rewardFunction.value[s][a]
    {
      base.GetReward(s, a)
    }
  }
}
