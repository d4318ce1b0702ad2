/**
 * Exact evaluation of a finite-horizon policy graph on a POMDP: a backward
 * pass over the layers computes, for every node q and state s, the expected
 * sum of the weights w(s, a) collected by executing the graph from q in s,
 * and the value of the graph is that table at the start node averaged over
 * the initial belief.
 */
module GraphEvaluation {
  import opened Numeric
  import opened Mdp
  import opened Beliefs
  import opened Pomdp
  import opened PolicyGraph

  /** The parts of a policy graph the evaluation reads. */
  datatype Layers = Layers(numLayers: int, counts: seq<int>, actions: seq<seq<int>>, transitions: seq<seq<seq<int>>>)

  /**
   * The graph fits the tables: every layer below the last gives each of its
   * nodes an action of the model and, per observation, a node of the next layer.
   */
  predicate Fits(g: Layers, m: Tables) {
    ValidTables(m) &&
    g.numLayers >= 1 && |g.counts| == g.numLayers &&
    |g.actions| >= g.numLayers - 1 && |g.transitions| >= g.numLayers - 1 &&
    (forall l :: 0 <= l < g.numLayers ==> g.counts[l] >= 0) &&
    (forall l :: 0 <= l < g.numLayers - 1 ==> |g.actions[l]| >= g.counts[l] && |g.transitions[l]| >= g.counts[l]) &&
    (forall l, q :: 0 <= l < g.numLayers - 1 && 0 <= q < g.counts[l] ==>
       0 <= g.actions[l][q] < m.nA && |g.transitions[l][q]| >= m.nO &&
       forall o :: 0 <= o < m.nO ==> 0 <= g.transitions[l][q][o] < g.counts[l + 1])
  }

  /** A value table with n rows of nS entries. */
  predicate Shaped(V: seq<seq<real>>, n: int, nS: nat) {
    |V| == n && forall q :: 0 <= q < n ==> |V[q]| == nS
  }

  /**
   * The expected sum of the weights w collected from layer t on by an
   * execution of the graph that is at node q in state s: zero at the last
   * layer, w(s, a) plus the continuations over all observations below it.
   */
  function Value(m: Tables, g: Layers, w: seq<seq<real>>, t: int, q: int, s: nat): real
    requires Fits(g, m) && Covers(w, m.nS, m.nA) && 0 <= t < g.numLayers && 0 <= q < g.counts[t] && s < m.nS
    decreases g.numLayers - t, 2, 0, 0
  {
    if t == g.numLayers - 1 then 0.0 else w[s][g.actions[t][q]] + ObservationSum(m, g, w, t, q, s, m.nO)
  }

  /** The continuations of the first o observations. */
  function ObservationSum(m: Tables, g: Layers, w: seq<seq<real>>, t: int, q: int, s: nat, o: nat): real
    requires Fits(g, m) && Covers(w, m.nS, m.nA) && 0 <= t < g.numLayers - 1 && 0 <= q < g.counts[t] && s < m.nS
    requires o <= m.nO
    decreases g.numLayers - t, 1, o, 0
  {
    if o == 0 then 0.0
    else ObservationSum(m, g, w, t, q, s, o - 1) + SuccessorSum(m, g, w, t, q, s, o - 1, |m.dest[s][g.actions[t][q]]|)
  }

  /**
   * For observation o, the first j successors s_j of s under the node's
   * action a, each contributing P(s_j | s, a) O(a, s_j, o) times the value of
   * the node q moves to on o in state s_j.
   */
  function SuccessorSum(m: Tables, g: Layers, w: seq<seq<real>>, t: int, q: int, s: nat, o: nat, j: nat): real
    requires Fits(g, m) && Covers(w, m.nS, m.nA) && 0 <= t < g.numLayers - 1 && 0 <= q < g.counts[t] && s < m.nS
    requires o < m.nO && j <= |m.dest[s][g.actions[t][q]]|
    decreases g.numLayers - t, 0, o, j
  {
    if j == 0 then 0.0
    else
      var a := g.actions[t][q];
      var sNext := m.dest[s][a][j - 1];
      SuccessorSum(m, g, w, t, q, s, o, j - 1) +
      m.prob[s][a][j - 1] * m.obs[a][sNext][o] * Value(m, g, w, t + 1, g.transitions[t][q][o], sNext)
  }

  /** The first n state values of node start weighted by b. */
  function StartSum(m: Tables, g: Layers, w: seq<seq<real>>, b: seq<real>, start: int, n: nat): real
    requires Fits(g, m) && Covers(w, m.nS, m.nA) && n <= m.nS && m.nS <= |b| && 0 <= start < g.counts[0]
  {
    if n == 0 then 0.0 else StartSum(m, g, w, b, start, n - 1) + Value(m, g, w, 0, start, n - 1) * b[n - 1]
  }

  /** The value of the graph from its start node under belief b. */
  function StartValue(m: Tables, g: Layers, w: seq<seq<real>>, b: seq<real>, start: int): real
    requires Fits(g, m) && Covers(w, m.nS, m.nA) && m.nS <= |b| && 0 <= start < g.counts[0]
  {
    StartSum(m, g, w, b, start, m.nS)
  }

  /** The weight R(s, a) - lambda C(s, a) the constrained case evaluates. */
  function Lagrangian(R: seq<seq<real>>, C: seq<seq<real>>, lambda: real, nS: nat, nA: nat): (w: seq<seq<real>>)
    requires Covers(R, nS, nA) && Covers(C, nS, nA)
    ensures Covers(w, nS, nA)
    ensures forall s, a :: 0 <= s < nS && 0 <= a < nA ==> w[s][a] == R[s][a] - lambda * C[s][a]
  {
    seq(nS, s requires 0 <= s < nS => seq(nA, a requires 0 <= a < nA => R[s][a] - lambda * C[s][a]))
  }

  lemma ScaledDifference(k: real, x: real, y: real, z: real, lambda: real)
    requires x == y - Times(lambda, z)
    ensures k * x == k * y - Times(lambda, k * z) && x * k == y * k - Times(lambda, z * k)
  {
    assert k * x == k * y - k * (lambda * z);
    assert x * k == y * k - (lambda * z) * k;
  }

  /** A sum splits when both of its parts do. */
  lemma PairDifference(xv: real, xr: real, xc: real, yv: real, yr: real, yc: real, lambda: real)
    requires xv == xr - Times(lambda, xc) && yv == yr - Times(lambda, yc)
    ensures xv + yv == (xr + yr) - Times(lambda, xc + yc)
  {
  }

  /** A total of two parts splits when both of its parts do. */
  lemma SumDifference(zv: real, zr: real, zc: real, xv: real, xr: real, xc: real, yv: real, yr: real, yc: real, lambda: real)
    requires zv == xv + yv && zr == xr + yr && zc == xc + yc
    requires xv == xr - Times(lambda, xc) && yv == yr - Times(lambda, yc)
    ensures zv == zr - Times(lambda, zc)
  {
  }

  /** The weight of state s and action a splits as wv = wr - lambda wc. */
  predicate SplitsAt(wv: seq<seq<real>>, wr: seq<seq<real>>, wc: seq<seq<real>>, lambda: real, s: nat, a: nat)
    requires s < |wv| && s < |wr| && s < |wc| && a < |wv[s]| && a < |wr[s]| && a < |wc[s]|
  {
    wv[s][a] == wr[s][a] - Times(lambda, wc[s][a])
  }

  /** Weights wv = wr - lambda wc for every state and action. */
  predicate Splits(m: Tables, wv: seq<seq<real>>, wr: seq<seq<real>>, wc: seq<seq<real>>, lambda: real)
    requires Covers(wv, m.nS, m.nA) && Covers(wr, m.nS, m.nA) && Covers(wc, m.nS, m.nA)
  {
    forall s: nat, a: nat :: s < m.nS && a < m.nA ==> SplitsAt(wv, wr, wc, lambda, s, a)
  }

  /**
   * Evaluation is linear in the weights: with wv = wr - lambda wc the value
   * of every node and state is its value under wr minus lambda times its
   * value under wc.
   */
  lemma {:induction false} ValueDifference(m: Tables, g: Layers, wv: seq<seq<real>>, wr: seq<seq<real>>, wc: seq<seq<real>>,
                                           lambda: real, t: int, q: int, s: nat)
    requires Fits(g, m) && Covers(wv, m.nS, m.nA) && Covers(wr, m.nS, m.nA) && Covers(wc, m.nS, m.nA)
    requires Splits(m, wv, wr, wc, lambda)
    requires 0 <= t < g.numLayers && 0 <= q < g.counts[t] && s < m.nS
    ensures Value(m, g, wv, t, q, s) == Value(m, g, wr, t, q, s) - Times(lambda, Value(m, g, wc, t, q, s))
    decreases g.numLayers - t, 2, 0, 0
  {
    if t < g.numLayers - 1 {
      var a := g.actions[t][q];
      assert SplitsAt(wv, wr, wc, lambda, s, a);
      ObservationSumDifference(m, g, wv, wr, wc, lambda, t, q, s, m.nO);
      PairDifference(wv[s][a], wr[s][a], wc[s][a], ObservationSum(m, g, wv, t, q, s, m.nO),
                     ObservationSum(m, g, wr, t, q, s, m.nO), ObservationSum(m, g, wc, t, q, s, m.nO), lambda);
    }
  }

  lemma {:induction false} ObservationSumDifference(m: Tables, g: Layers, wv: seq<seq<real>>, wr: seq<seq<real>>, wc: seq<seq<real>>,
                                                    lambda: real, t: int, q: int, s: nat, o: nat)
    requires Fits(g, m) && Covers(wv, m.nS, m.nA) && Covers(wr, m.nS, m.nA) && Covers(wc, m.nS, m.nA)
    requires Splits(m, wv, wr, wc, lambda)
    requires 0 <= t < g.numLayers - 1 && 0 <= q < g.counts[t] && s < m.nS && o <= m.nO
    ensures ObservationSum(m, g, wv, t, q, s, o) ==
            ObservationSum(m, g, wr, t, q, s, o) - Times(lambda, ObservationSum(m, g, wc, t, q, s, o))
    decreases g.numLayers - t, 1, o, 0
  {
    if o > 0 {
      var n := |m.dest[s][g.actions[t][q]]|;
      var o' := o - 1;
      ObservationSumDifference(m, g, wv, wr, wc, lambda, t, q, s, o');
      SuccessorSumDifference(m, g, wv, wr, wc, lambda, t, q, s, o', n);
      ObservationSumStep(m, g, wv, t, q, s, o');
      ObservationSumStep(m, g, wr, t, q, s, o');
      ObservationSumStep(m, g, wc, t, q, s, o');
      SumDifference(ObservationSum(m, g, wv, t, q, s, o), ObservationSum(m, g, wr, t, q, s, o), ObservationSum(m, g, wc, t, q, s, o),
                    ObservationSum(m, g, wv, t, q, s, o'), ObservationSum(m, g, wr, t, q, s, o'), ObservationSum(m, g, wc, t, q, s, o'),
                    SuccessorSum(m, g, wv, t, q, s, o', n), SuccessorSum(m, g, wr, t, q, s, o', n), SuccessorSum(m, g, wc, t, q, s, o', n), lambda);
    }
  }

  /** One more observation adds its successor sum. */
  lemma ObservationSumStep(m: Tables, g: Layers, w: seq<seq<real>>, t: int, q: int, s: nat, o: nat)
    requires Fits(g, m) && Covers(w, m.nS, m.nA) && 0 <= t < g.numLayers - 1 && 0 <= q < g.counts[t] && s < m.nS
    requires o < m.nO
    ensures ObservationSum(m, g, w, t, q, s, o + 1) ==
            ObservationSum(m, g, w, t, q, s, o) + SuccessorSum(m, g, w, t, q, s, o, |m.dest[s][g.actions[t][q]]|)
  {
  }

  lemma {:induction false} SuccessorSumDifference(m: Tables, g: Layers, wv: seq<seq<real>>, wr: seq<seq<real>>, wc: seq<seq<real>>,
                                                  lambda: real, t: int, q: int, s: nat, o: nat, j: nat)
    requires Fits(g, m) && Covers(wv, m.nS, m.nA) && Covers(wr, m.nS, m.nA) && Covers(wc, m.nS, m.nA)
    requires Splits(m, wv, wr, wc, lambda)
    requires 0 <= t < g.numLayers - 1 && 0 <= q < g.counts[t] && s < m.nS && o < m.nO
    requires j <= |m.dest[s][g.actions[t][q]]|
    ensures SuccessorSum(m, g, wv, t, q, s, o, j) ==
            SuccessorSum(m, g, wr, t, q, s, o, j) - Times(lambda, SuccessorSum(m, g, wc, t, q, s, o, j))
    decreases g.numLayers - t, 0, o, j
  {
    if j > 0 {
      var a, j' := g.actions[t][q], j - 1;
      var sNext := m.dest[s][a][j'];
      var qNext := g.transitions[t][q][o];
      var k := m.prob[s][a][j'] * m.obs[a][sNext][o];
      var vv, vr, vc := Value(m, g, wv, t + 1, qNext, sNext), Value(m, g, wr, t + 1, qNext, sNext), Value(m, g, wc, t + 1, qNext, sNext);
      SuccessorSumDifference(m, g, wv, wr, wc, lambda, t, q, s, o, j');
      ValueDifference(m, g, wv, wr, wc, lambda, t + 1, qNext, sNext);
      ScaledDifference(k, vv, vr, vc, lambda);
      SuccessorSumStep(m, g, wv, t, q, s, o, j');
      SuccessorSumStep(m, g, wr, t, q, s, o, j');
      SuccessorSumStep(m, g, wc, t, q, s, o, j');
      SumDifference(SuccessorSum(m, g, wv, t, q, s, o, j), SuccessorSum(m, g, wr, t, q, s, o, j), SuccessorSum(m, g, wc, t, q, s, o, j),
                    SuccessorSum(m, g, wv, t, q, s, o, j'), SuccessorSum(m, g, wr, t, q, s, o, j'), SuccessorSum(m, g, wc, t, q, s, o, j'),
                    k * vv, k * vr, k * vc, lambda);
    }
  }

  /** One more successor adds its weighted continuation. */
  lemma SuccessorSumStep(m: Tables, g: Layers, w: seq<seq<real>>, t: int, q: int, s: nat, o: nat, j: nat)
    requires Fits(g, m) && Covers(w, m.nS, m.nA) && 0 <= t < g.numLayers - 1 && 0 <= q < g.counts[t] && s < m.nS
    requires o < m.nO && j < |m.dest[s][g.actions[t][q]]|
    ensures SuccessorSum(m, g, w, t, q, s, o, j + 1) ==
            SuccessorSum(m, g, w, t, q, s, o, j) +
            m.prob[s][g.actions[t][q]][j] * m.obs[g.actions[t][q]][m.dest[s][g.actions[t][q]][j]][o] *
            Value(m, g, w, t + 1, g.transitions[t][q][o], m.dest[s][g.actions[t][q]][j])
  {
  }

  lemma {:induction false} StartSumDifference(m: Tables, g: Layers, wv: seq<seq<real>>, wr: seq<seq<real>>, wc: seq<seq<real>>,
                                              lambda: real, b: seq<real>, start: int, n: nat)
    requires Fits(g, m) && Covers(wv, m.nS, m.nA) && Covers(wr, m.nS, m.nA) && Covers(wc, m.nS, m.nA)
    requires Splits(m, wv, wr, wc, lambda)
    requires n <= m.nS && m.nS <= |b| && 0 <= start < g.counts[0]
    ensures StartSum(m, g, wv, b, start, n) == StartSum(m, g, wr, b, start, n) - Times(lambda, StartSum(m, g, wc, b, start, n))
  {
    if n > 0 {
      var n' := n - 1;
      StartSumDifference(m, g, wv, wr, wc, lambda, b, start, n');
      ValueDifference(m, g, wv, wr, wc, lambda, 0, start, n');
      var vv, vr, vc := Value(m, g, wv, 0, start, n'), Value(m, g, wr, 0, start, n'), Value(m, g, wc, 0, start, n');
      ScaledDifference(b[n'], vv, vr, vc, lambda);
      var xv, xr, xc := StartSum(m, g, wv, b, start, n'), StartSum(m, g, wr, b, start, n'), StartSum(m, g, wc, b, start, n');
      assert xv == xr - Times(lambda, xc);
      PairDifference(xv, xr, xc, vv * b[n'], vr * b[n'], vc * b[n'], lambda);
    }
  }

  /** The expected value of a graph under R - lambda C is its expected reward minus lambda times its expected cost. */
  lemma StartValueDifference(m: Tables, g: Layers, R: seq<seq<real>>, C: seq<seq<real>>, lambda: real, b: seq<real>, start: int)
    requires Fits(g, m) && Covers(R, m.nS, m.nA) && Covers(C, m.nS, m.nA) && m.nS <= |b| && 0 <= start < g.counts[0]
    ensures StartValue(m, g, Lagrangian(R, C, lambda, m.nS, m.nA), b, start) ==
            StartValue(m, g, R, b, start) - lambda * StartValue(m, g, C, b, start)
  {
    var w := Lagrangian(R, C, lambda, m.nS, m.nA);
    assert Splits(m, w, R, C, lambda) by {
      forall s: nat, a: nat | s < m.nS && a < m.nA
        ensures SplitsAt(w, R, C, lambda, s, a)
      {
      }
    }
    StartSumDifference(m, g, w, R, C, lambda, b, start, m.nS);
  }

  /** A table holding the values of every node of layer t in every state. */
  predicate Tabulates(V: seq<seq<real>>, m: Tables, g: Layers, w: seq<seq<real>>, t: int)
    requires Fits(g, m) && Covers(w, m.nS, m.nA) && 0 <= t < g.numLayers
  {
    Shaped(V, g.counts[t], m.nS) &&
    forall q, s :: 0 <= q < g.counts[t] && 0 <= s < m.nS ==> V[q][s] == Value(m, g, w, t, q, s)
  }

  /** The innermost loop of evaluate: add the successor terms of observation o to v0. */
  method AddSuccessors(m: Tables, g: Layers, w: seq<seq<real>>, t: int, q: int, s: nat, o: nat,
                       V: seq<seq<real>>, v0: real) returns (v: real)
    requires Fits(g, m) && Covers(w, m.nS, m.nA) && 0 <= t < g.numLayers - 1 && 0 <= q < g.counts[t] && s < m.nS
    requires o < m.nO && Tabulates(V, m, g, w, t + 1)
    ensures v == v0 + SuccessorSum(m, g, w, t, q, s, o, |m.dest[s][g.actions[t][q]]|)
  {
    var a := g.actions[t][q];
    var qNext := g.transitions[t][q][o];
    var transitionDestinations := m.dest[s][a];
    var transitionProbabilities := m.prob[s][a];
    v := v0;
    var j := 0;
    while j < |transitionDestinations|
      invariant 0 <= j <= |transitionDestinations|
      invariant v == v0 + SuccessorSum(m, g, w, t, q, s, o, j)
    {
      var sNext := transitionDestinations[j];
      var prob := transitionProbabilities[j];
      v := v + prob * m.obs[a][sNext][o] * V[qNext][sNext];
      j := j + 1;
    }
  }

  /** The loops of evaluate for node q of layer t and state s, starting from w0. */
  method NodeStateValue(m: Tables, g: Layers, w: seq<seq<real>>, t: int, q: int, s: nat,
                        V: seq<seq<real>>, w0: real) returns (v: real)
    requires Fits(g, m) && Covers(w, m.nS, m.nA) && 0 <= t < g.numLayers - 1 && 0 <= q < g.counts[t] && s < m.nS
    requires Tabulates(V, m, g, w, t + 1)
    ensures v == w0 + ObservationSum(m, g, w, t, q, s, m.nO)
  {
    v := w0;
    var o := 0;
    while o < m.nO
      invariant 0 <= o <= m.nO
      invariant v == w0 + ObservationSum(m, g, w, t, q, s, o)
    {
      v := AddSuccessors(m, g, w, t, q, s, o, V, v);
      o := o + 1;
    }
  }

  /** The table of layer t computed from the table of layer t + 1, node by node and state by state. */
  method BackupLayer(m: Tables, g: Layers, w: seq<seq<real>>, t: int, V: seq<seq<real>>) returns (next: seq<seq<real>>)
    requires Fits(g, m) && Covers(w, m.nS, m.nA) && 0 <= t < g.numLayers - 1
    requires Tabulates(V, m, g, w, t + 1)
    ensures Tabulates(next, m, g, w, t)
  {
    next := [];
    var q := 0;
    while q < g.counts[t]
      invariant 0 <= q <= g.counts[t]
      invariant |next| == q
      invariant forall i :: 0 <= i < q ==> |next[i]| == m.nS
      invariant forall i, s :: 0 <= i < q && 0 <= s < m.nS ==> next[i][s] == Value(m, g, w, t, i, s)
    {
      var a := g.actions[t][q];
      var row := [];
      var s := 0;
      while s < m.nS
        invariant 0 <= s <= m.nS
        invariant |row| == s && forall i :: 0 <= i < s ==> row[i] == Value(m, g, w, t, q, i)
      {
        var v := NodeStateValue(m, g, w, t, q, s, V, w[s][a]);
        row := row + [v];
        s := s + 1;
      }
      next := next + [row];
      q := q + 1;
    }
  }

  /** The backward pass from the all-zero table of the last layer down to layer 0. */
  method LayerZeroValues(m: Tables, g: Layers, w: seq<seq<real>>) returns (V: seq<seq<real>>)
    requires Fits(g, m) && Covers(w, m.nS, m.nA)
    ensures Tabulates(V, m, g, w, 0)
  {
    var t := g.numLayers - 1;
    V := seq(g.counts[t], _ => Zeros(m.nS));
    while t > 0
      invariant 0 <= t < g.numLayers
      invariant Tabulates(V, m, g, w, t)
    {
      t := t - 1;
      V := BackupLayer(m, g, w, t, V);
    }
  }

  /** The row of the start node weighted by the initial belief and summed. */
  method Expectation(m: Tables, g: Layers, w: seq<seq<real>>, V: seq<seq<real>>, start: int, b: BeliefPoint) returns (e: real)
    requires Fits(g, m) && Covers(w, m.nS, m.nA) && Tabulates(V, m, g, w, 0)
    requires 0 <= start < g.counts[0] && m.nS <= |b.belief|
    ensures e == StartValue(m, g, w, b.belief, start)
  {
    e := 0.0;
    var s := 0;
    while s < m.nS
      invariant 0 <= s <= m.nS
      invariant e == StartSum(m, g, w, b.belief, start, s)
    {
      e := e + V[start][s] * b.GetBelief(s);
      s := s + 1;
    }
  }

  class PolicyGraphEvaluatorFinite {
    const pomdp: POMDP
    const pg: POMDPPolicyGraph
    var expectedValue: real
    var expectedReward: real
    var expectedCost: real

    constructor(pomdp: POMDP, pg: POMDPPolicyGraph)
      ensures this.pomdp == pomdp && this.pg == pg
      ensures expectedValue == 0.0 && expectedReward == 0.0 && expectedCost == 0.0
    {
      this.pomdp := pomdp;
      this.pg := pg;
      expectedValue := 0.0;
      expectedReward := 0.0;
      expectedCost := 0.0;
    }

    function Graph(): Layers {
      Layers(pg.numLayers, pg.layerNodeCount, pg.layerNodeActions, pg.layerTransitions)
    }

    /**
     * What evaluate reads: stationary rewards and transitions, a graph that
     * fits them with a start node in layer 0, an initial belief over every
     * state, and for a constrained POMDP a cost table 0 covering the model.
     */
    predicate Evaluable()
      reads pomdp.base
    {
      pomdp.Ready() && pomdp.base.RewardsReady() && !pomdp.base.hasTimeDependentReward &&
      Fits(Graph(), pomdp.Tab()) && 0 <= pg.startNode < pg.layerNodeCount[0] &&
      pomdp.base.nStates <= |pomdp.b0.belief| &&
      (pomdp.costFunctions.Some? ==> pomdp.CostsReady() && |pomdp.costFunctions.value| >= 1)
    }

    function Rewards(): (R: seq<seq<real>>)
      reads pomdp.base
      requires Evaluable()
      ensures Covers(R, pomdp.base.nStates, pomdp.base.nActions)
    {
      pomdp.base.rewardFunction.value
    }

    function Costs(): (C: seq<seq<real>>)
      reads pomdp.base
      requires Evaluable() && pomdp.costFunctions.Some?
      ensures Covers(C, pomdp.base.nStates, pomdp.base.nActions)
    {
      pomdp.costFunctions.value[0]
    }

    /**
     * evaluate(lambda). For a constrained POMDP the three tables for
     * R - lambda C, R and C are evaluated and averaged over the initial
     * belief, so the expected value is the expected reward minus lambda times
     * the expected cost; for a plain POMDP the reward table is evaluated and
     * the expected value is the expected reward. The constrained case here
     * runs the shared loops once per table where the source interleaves the
     * three accumulations; no value differs.
     */
    method Evaluate(lambda: real)
      requires Evaluable()
      modifies this
      ensures pomdp.costFunctions.Some? ==>
        expectedValue == StartValue(pomdp.Tab(), Graph(), Lagrangian(Rewards(), Costs(), lambda, pomdp.base.nStates, pomdp.base.nActions), pomdp.b0.belief, pg.startNode) &&
        expectedReward == StartValue(pomdp.Tab(), Graph(), Rewards(), pomdp.b0.belief, pg.startNode) &&
        expectedCost == StartValue(pomdp.Tab(), Graph(), Costs(), pomdp.b0.belief, pg.startNode) &&
        expectedValue == expectedReward - lambda * expectedCost
      ensures pomdp.costFunctions.None? ==>
        expectedReward == StartValue(pomdp.Tab(), Graph(), Rewards(), pomdp.b0.belief, pg.startNode) &&
        expectedValue == expectedReward && expectedCost == old(expectedCost)
    {
      var m := pomdp.Tab();
      var g := Graph();
      var R := Rewards();
      var start := pg.startNode;
      if pomdp.costFunctions.Some? {
        var C := Costs();
        var w := Lagrangian(R, C, lambda, m.nS, m.nA);
        var Vvalue := LayerZeroValues(m, g, w);
        var Vreward := LayerZeroValues(m, g, R);
        var Vcost := LayerZeroValues(m, g, C);
        expectedValue := Expectation(m, g, w, Vvalue, start, pomdp.b0);
        expectedReward := Expectation(m, g, R, Vreward, start, pomdp.b0);
        expectedCost := Expectation(m, g, C, Vcost, start, pomdp.b0);
        StartValueDifference(m, g, R, C, lambda, pomdp.b0.belief, start);
      } else {
        var V := LayerZeroValues(m, g, R);
        expectedReward := Expectation(m, g, R, V, start, pomdp.b0);
        expectedValue := expectedReward;
      }
    }
  }
}
