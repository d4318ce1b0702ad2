/**
 * The pure mathematics of the finite-horizon point-based value iteration
 * that solves one agent's (C)POMDP subproblem: back projections of alpha
 * vectors, the point backup that chooses the best projection per observation
 * and the best action, the sawtooth upper bound interpolated from stored
 * belief points, and the one-step look-ahead upper bound.
 */
module PointBackups {
  import opened Numeric
  import opened Mdp
  import opened Beliefs
  import opened AlphaVectors
  import opened Pomdp

  /** The gap below which a point's upper and lower bounds count as tight. */
  const GapTolerance: real := 0.0001

  // ---------------------------------------------------------------------------
  // First maximum: the index a left-to-right scan with a strict > settles on.
  // ---------------------------------------------------------------------------

  /** j holds the largest value, and every index before j holds a smaller one. */
  predicate IsFirstMax(vals: seq<real>, j: int) {
    0 <= j < |vals| &&
    (forall i :: 0 <= i < |vals| ==> vals[i] <= vals[j]) &&
    (forall i :: 0 <= i < j ==> vals[i] < vals[j])
  }

  /** The first index holding the largest value. */
  function FirstMax(vals: seq<real>): (j: nat)
    requires |vals| > 0
    ensures IsFirstMax(vals, j)
    decreases |vals|
  {
    if |vals| == 1 then 0
    else
      var n := |vals| - 1;
      var j := FirstMax(vals[..n]);
      if vals[n] > vals[j] then n else j
  }

  /** The first maximum is the only index meeting its description. */
  lemma FirstMaxUnique(vals: seq<real>, j: int)
    requires IsFirstMax(vals, j)
    ensures j == FirstMax(vals)
  {
    var k := FirstMax(vals);
    assert vals[j] == vals[k];
  }

  /** The first maximum of a longer prefix: the new entry wins only when it is strictly larger. */
  lemma FirstMaxStep(vals: seq<real>, n: nat)
    requires 0 < n < |vals|
    ensures FirstMax(vals[..n + 1]) == if vals[n] > vals[FirstMax(vals[..n])] then n else FirstMax(vals[..n])
  {
    assert vals[..n + 1][..n] == vals[..n];
  }

  /** The first index, among those where ok holds, of the largest extended value; -1 when ok holds nowhere or every candidate is -infinity. */
  function ScanMax(vals: seq<XReal>, ok: seq<bool>, n: nat): (j: int)
    requires n <= |vals| && n <= |ok|
    ensures -1 <= j < n
    ensures j >= 0 ==> ok[j] && vals[j] != NegInf
    ensures j >= 0 ==> forall i :: 0 <= i < n && ok[i] ==> LessEq(vals[i], vals[j])
    ensures j >= 0 ==> forall i :: 0 <= i < j && ok[i] ==> Less(vals[i], vals[j])
    ensures j == -1 <==> forall i :: 0 <= i < n && ok[i] ==> vals[i] == NegInf
  {
    if n == 0 then -1
    else
      var j := ScanMax(vals, ok, n - 1);
      var best := if j == -1 then NegInf else vals[j];
      if ok[n - 1] && Less(best, vals[n - 1]) then n - 1 else j
  }

  /** A belief with some positive entry. */
  predicate HasMass(b: seq<real>) {
    exists s :: 0 <= s < |b| && b[s] > 0.0
  }

  /** Every entry is non-negative. */
  predicate NonNegative(b: seq<real>) {
    forall s :: 0 <= s < |b| ==> b[s] >= 0.0
  }

  /** A vector whose entries add up to something positive has a positive entry. */
  lemma {:induction false} PositiveSumHasMass(b: seq<real>)
    requires Sum(b) > 0.0
    ensures HasMass(b)
    decreases |b|
  {
    var n := |b| - 1;
    SumPrefixStep(b, n);
    assert b[..n + 1] == b;
    if b[n] <= 0.0 {
      PositiveSumHasMass(b[..n]);
      var s :| 0 <= s < n && b[..n][s] > 0.0;
      assert b[s] > 0.0;
    }
  }

  // ---------------------------------------------------------------------------
  // Back projections: gkao[s] = sum over successors s' of O(a, s', o) P(s' | s, a) v(s').
  // ---------------------------------------------------------------------------

  /** The sum over the first j successors of s. */
  function ProjectionSum(m: Tables, v: seq<real>, a: nat, o: nat, s: nat, j: nat): real
    requires ValidTables(m) && a < m.nA && o < m.nO && s < m.nS && m.nS <= |v| && j <= |m.dest[s][a]|
  {
    if j == 0 then 0.0
    else
      var sp := m.dest[s][a][j - 1];
      ProjectionSum(m, v, a, o, s, j - 1) + m.obs[a][sp][o] * m.prob[s][a][j - 1] * v[sp]
  }

  /** The back projection of v for action a and observation o. */
  function BackProjection(m: Tables, v: seq<real>, a: nat, o: nat): (r: seq<real>)
    requires ValidTables(m) && a < m.nA && o < m.nO && m.nS <= |v|
    ensures |r| == m.nS
  {
    seq(m.nS, s requires 0 <= s < m.nS => ProjectionSum(m, v, a, o, s, |m.dest[s][a]|))
  }

  /** The entry of v at d, zero where v has none. */
  function At(v: seq<real>, d: int): real {
    if 0 <= d < |v| then v[d] else 0.0
  }

  /** ws[0] v[ds[0]] + ... + ws[n-1] v[ds[n-1]], accumulated from the left. */
  function WeightedSum(ds: seq<int>, ws: seq<real>, v: seq<real>): real
    requires |ds| == |ws|
    decreases |ds|
  {
    if |ds| == 0 then 0.0
    else
      var n := |ds| - 1;
      WeightedSum(ds[..n], ws[..n], v) + ws[n] * At(v, ds[n])
  }

  lemma {:induction false} WeightedSumConcat(d1: seq<int>, w1: seq<real>, d2: seq<int>, w2: seq<real>, v: seq<real>)
    requires |d1| == |w1| && |d2| == |w2|
    ensures WeightedSum(d1 + d2, w1 + w2, v) == WeightedSum(d1, w1, v) + WeightedSum(d2, w2, v)
    decreases |d2|
  {
    if |d2| > 0 {
      var n := |d2| - 1;
      var ds, ws := d1 + d2, w1 + w2;
      var c := w2[n] * At(v, d2[n]);
      assert WeightedSum(ds, ws, v) == WeightedSum(d1 + d2[..n], w1 + w2[..n], v) + c by {
        assert ds[..|ds| - 1] == d1 + d2[..n];
        assert ws[..|ws| - 1] == w1 + w2[..n];
        assert ds[|ds| - 1] == d2[n] && ws[|ws| - 1] == w2[n];
      }
      assert WeightedSum(d2, w2, v) == WeightedSum(d2[..n], w2[..n], v) + c;
      WeightedSumConcat(d1, w1, d2[..n], w2[..n], v);
    } else {
      assert d1 + d2 == d1 && w1 + w2 == w1;
    }
  }

  lemma {:induction false} WeightedSumScaled(k: real, ds: seq<int>, sh: seq<real>, ws: seq<real>, v: seq<real>)
    requires |ds| == |ws| == |sh|
    requires forall i :: 0 <= i < |ds| ==> sh[i] == k * ws[i]
    ensures WeightedSum(ds, sh, v) == k * WeightedSum(ds, ws, v)
    decreases |ds|
  {
    if |ds| > 0 {
      var n := |ds| - 1;
      WeightedSumScaled(k, ds[..n], sh[..n], ws[..n], v);
      var x, y := WeightedSum(ds[..n], ws[..n], v), ws[n] * At(v, ds[n]);
      assert sh[n] * At(v, ds[n]) == k * y;
      Distribute(k, x, y, x + y);
    }
  }

  /** Multiplying the projection sum of s by b(s) gives the weighted sum over the successors of s. */
  lemma {:induction false} ProjectionTimesBelief(m: Tables, v: seq<real>, b: seq<real>, a: nat, o: nat, s: nat, j: nat)
    requires Indices(m, b, a, o) && s < m.nS && m.nS <= |v| && j <= |m.dest[s][a]|
    ensures ProjectionSum(m, v, a, o, s, j) * b[s] == WeightedSum(m.dest[s][a][..j], Weights(m, b, a, o, s)[..j], v)
  {
    if j > 0 {
      ProjectionTimesBelief(m, v, b, a, o, s, j - 1);
      var ds, ws := m.dest[s][a][..j], Weights(m, b, a, o, s)[..j];
      assert ds[..j - 1] == m.dest[s][a][..j - 1];
      assert ws[..j - 1] == Weights(m, b, a, o, s)[..j - 1];
      var sp := m.dest[s][a][j - 1];
      var x, y, z, w := m.obs[a][sp][o], m.prob[s][a][j - 1], v[sp], b[s];
      var p := ProjectionSum(m, v, a, o, s, j - 1);
      assert ws[j - 1] == x * y * w;
      assert (p + x * y * z) * w == p * w + (x * y * w) * z;
    }
  }

  /** The value at b of a back projection is the b-weighted sum over all successors of v. */
  lemma {:induction false} DotBackProjection(m: Tables, v: seq<real>, b: seq<real>, a: nat, o: nat, n: nat)
    requires Indices(m, b, a, o) && m.nS <= |v| && n <= m.nS
    ensures Dot(BackProjection(m, v, a, o), b, n) == WeightedSum(FlatDests(m, a, n), FlatWeights(m, b, a, o, n), v)
  {
    if n > 0 {
      var s := n - 1;
      var bp := BackProjection(m, v, a, o);
      var ds, ws := m.dest[s][a], Weights(m, b, a, o, s);
      var fd, fw := FlatDests(m, a, s), FlatWeights(m, b, a, o, s);
      assert Dot(bp, b, s) == WeightedSum(fd, fw, v) by {
        DotBackProjection(m, v, b, a, o, s);
      }
      assert bp[s] * b[s] == WeightedSum(ds, ws, v) by {
        ProjectionTimesBelief(m, v, b, a, o, s, |ds|);
        assert ds[..|ds|] == ds && ws[..|ws|] == ws;
      }
      assert FlatDests(m, a, n) == fd + ds && FlatWeights(m, b, a, o, n) == fw + ws;
      DotFlatStep(bp, b, v, fd, fw, ds, ws, s);
    }
  }

  /** One more state extends a dot product that equals a weighted sum by that state's own weighted sum. */
  lemma DotFlatStep(x: seq<real>, y: seq<real>, v: seq<real>, fd: seq<int>, fw: seq<real>, ds: seq<int>, ws: seq<real>, s: nat)
    requires s < |x| && s < |y| && |fd| == |fw| && |ds| == |ws|
    requires Dot(x, y, s) == WeightedSum(fd, fw, v) && x[s] * y[s] == WeightedSum(ds, ws, v)
    ensures Dot(x, y, s + 1) == WeightedSum(fd + ds, fw + ws, v)
  {
    WeightedSumConcat(fd, fw, ds, ws, v);
  }

  /** Adding w to entry d of y adds x[d] w to the dot product. */
  lemma {:induction false} DotUpdate(x: seq<real>, y: seq<real>, d: nat, w: real, n: nat)
    requires n <= |x| && n <= |y| && d < |y|
    ensures Dot(x, y[d := y[d] + w], n) == Dot(x, y, n) + (if d < n then x[d] * w else 0.0)
  {
    if n > 0 {
      DotUpdate(x, y, d, w, n - 1);
      if d == n - 1 {
        assert x[d] * (y[d] + w) == x[d] * y[d] + x[d] * w;
      }
    }
  }

  /** Scattering weights into acc adds their weighted sum to the dot product with v. */
  lemma {:induction false} DotAddAt(v: seq<real>, acc: seq<real>, ds: seq<int>, ws: seq<real>)
    requires |ds| == |ws| && |v| == |acc| && forall i :: 0 <= i < |ds| ==> 0 <= ds[i] < |acc|
    ensures Dot(v, AddAt(acc, ds, ws), |acc|) == Dot(v, acc, |acc|) + WeightedSum(ds, ws, v)
    decreases |ds|
  {
    if |ds| > 0 {
      var n := |ds| - 1;
      DotAddAt(v, acc, ds[..n], ws[..n]);
      var prev := AddAt(acc, ds[..n], ws[..n]);
      DotUpdate(v, prev, ds[n], ws[n], |acc|);
    }
  }

  lemma {:induction false} DotZeros(v: seq<real>, n: nat)
    requires n <= |v|
    ensures Dot(v, Zeros(|v|), n) == 0.0
  {
    if n > 0 {
      DotZeros(v, n - 1);
    }
  }

  /**
   * The value of the back projection of v at b is P(o | b, a) times the value
   * of v at the posterior belief b^{a,o}.
   */
  lemma ProjectionValue(m: Tables, v: seq<real>, b: seq<real>, a: nat, o: nat)
    requires Indices(m, b, a, o) && |b| == m.nS && |v| == m.nS && AOProb(m, b, a, o) > 0.0
    ensures Dot(BackProjection(m, v, a, o), b, m.nS) == Times(AOProb(m, b, a, o), Dot(v, Posterior(m, b, a, o), m.nS))
  {
    ScaledProjectionValue(m, v, b, a, o, AOProb(m, b, a, o), 1.0 / AOProb(m, b, a, o));
  }

  lemma ScaledProjectionValue(m: Tables, v: seq<real>, b: seq<real>, a: nat, o: nat, nc: real, k: real)
    requires Indices(m, b, a, o) && |b| == m.nS && |v| == m.nS
    requires nc == AOProb(m, b, a, o) && nc * k == 1.0
    ensures Dot(BackProjection(m, v, a, o), b, m.nS) == Times(nc, Dot(v, Scattered(m, b, a, o, k, m.nS), m.nS))
  {
    assert Dot(BackProjection(m, v, a, o), b, m.nS) == WeightedSum(FlatDests(m, a, m.nS), FlatWeights(m, b, a, o, m.nS), v) by {
      DotBackProjection(m, v, b, a, o, m.nS);
    }
    PosteriorValue(m, v, b, a, o, k);
    TimesInverse(nc, k, WeightedSum(FlatDests(m, a, m.nS), FlatWeights(m, b, a, o, m.nS), v));
    assert Times(nc, Dot(v, Scattered(m, b, a, o, k, m.nS), m.nS)) == WeightedSum(FlatDests(m, a, m.nS), FlatWeights(m, b, a, o, m.nS), v);
  }

  lemma TimesInverse(nc: real, k: real, x: real)
    requires nc * k == 1.0
    ensures Times(nc, Times(k, x)) == x
  {
    assert nc * (k * x) == (nc * k) * x;
  }

  /** The value of v at the scattered belief with factor k is k times the weighted sum over all successors. */
  lemma PosteriorValue(m: Tables, v: seq<real>, b: seq<real>, a: nat, o: nat, k: real)
    requires Indices(m, b, a, o) && |v| == m.nS
    ensures Dot(v, Scattered(m, b, a, o, k, m.nS), m.nS) == Times(k, WeightedSum(FlatDests(m, a, m.nS), FlatWeights(m, b, a, o, m.nS), v))
  {
    var ds, ws, sh := FlatDests(m, a, m.nS), FlatWeights(m, b, a, o, m.nS), FlatShares(m, b, a, o, k, m.nS);
    FlatDestsInRange(m, a, m.nS);
    FlatSharesScaled(m, b, a, o, k, m.nS);
    ScaledValue(v, ds, ws, sh, k);
  }

  /** Scattering k-scaled weights into zeros gives a vector whose value under v is k times their weighted sum. */
  lemma ScaledValue(v: seq<real>, ds: seq<int>, ws: seq<real>, sh: seq<real>, k: real)
    requires |ds| == |ws| == |sh| && forall i :: 0 <= i < |ds| ==> 0 <= ds[i] < |v|
    requires forall i :: 0 <= i < |ds| ==> sh[i] == k * ws[i]
    ensures Dot(v, AddAt(Zeros(|v|), ds, sh), |v|) == Times(k, WeightedSum(ds, ws, v))
  {
    assert Dot(v, AddAt(Zeros(|v|), ds, sh), |v|) == WeightedSum(ds, sh, v) by {
      DotAddAt(v, Zeros(|v|), ds, sh);
      DotZeros(v, |v|);
    }
    WeightedSumScaled(k, ds, sh, ws, v);
  }


  // ---------------------------------------------------------------------------
  // The point backup.
  // ---------------------------------------------------------------------------

  /** Transition and observation probabilities are never negative. */
  predicate NonNegativeTables(m: Tables)
    requires ValidTables(m)
  {
    (forall s, a, i :: 0 <= s < m.nS && 0 <= a < m.nA && 0 <= i < |m.prob[s][a]| ==> m.prob[s][a][i] >= 0.0) &&
    (forall a, s, o :: 0 <= a < m.nA && 0 <= s < m.nS && 0 <= o < m.nO ==> m.obs[a][s][o] >= 0.0)
  }

  /** gkao[k][a][o] exists for every vector k, action and observation, has a value per state and carries action a. */
  predicate ProjectionShape(G: seq<seq<seq<AlphaVector>>>, m: Tables) {
    forall k :: 0 <= k < |G| ==>
      |G[k]| == m.nA &&
      forall a :: 0 <= a < m.nA ==>
        |G[k][a]| == m.nO &&
        forall o :: 0 <= o < m.nO ==> |G[k][a][o].entries| == m.nS && G[k][a][o].action == a
  }

  /** One immediate-reward vector per action, carrying that action. */
  predicate ImmediateShape(imm: seq<AlphaVector>, m: Tables) {
    |imm| == m.nA && forall a :: 0 <= a < m.nA ==> |imm[a].entries| == m.nS && imm[a].action == a
  }

  /** The back projections of the vectors of V for every action and observation. */
  function Projections(m: Tables, V: seq<AlphaVector>): (G: seq<seq<seq<AlphaVector>>>)
    requires ValidTables(m) && Sized(V, m.nS)
    ensures |G| == |V| && ProjectionShape(G, m)
  {
    seq(|V|, k requires 0 <= k < |V| =>
      seq(m.nA, a requires 0 <= a < m.nA =>
        seq(m.nO, o requires 0 <= o < m.nO => AlphaVector(BackProjection(m, V[k].entries, a, o), a, None))))
  }

  /** The values at b of the projections for a and o, one per vector. */
  function ProjectionValues(G: seq<seq<seq<AlphaVector>>>, m: Tables, a: nat, o: nat, b: seq<real>): (r: seq<real>)
    requires ProjectionShape(G, m) && a < m.nA && o < m.nO && |b| == m.nS
    ensures |r| == |G|
  {
    seq(|G|, k requires 0 <= k < |G| => DotProduct(G[k][a][o], b))
  }

  /** The projection backup keeps for a and o: the first of largest value at b. */
  function BestProjection(G: seq<seq<seq<AlphaVector>>>, m: Tables, a: nat, o: nat, b: seq<real>): (k: nat)
    requires ProjectionShape(G, m) && |G| > 0 && a < m.nA && o < m.nO && |b| == m.nS
    ensures k < |G|
  {
    FirstMax(ProjectionValues(G, m, a, o, b))
  }

  /** The kept projections of observations 0 .. n-1 added up from the left. */
  function ObservationTotal(G: seq<seq<seq<AlphaVector>>>, m: Tables, a: nat, b: seq<real>, n: nat): (r: seq<real>)
    requires ProjectionShape(G, m) && |G| > 0 && a < m.nA && 1 <= n <= m.nO && |b| == m.nS
    ensures |r| == m.nS
  {
    var chosen := G[BestProjection(G, m, a, n - 1, b)][a][n - 1].entries;
    if n == 1 then chosen else Plus(ObservationTotal(G, m, a, b, n - 1), chosen)
  }

  /** One more observation adds its kept projection. */
  lemma ObservationTotalNext(G: seq<seq<seq<AlphaVector>>>, m: Tables, a: nat, b: seq<real>, n: nat)
    requires ProjectionShape(G, m) && |G| > 0 && a < m.nA && 1 <= n < m.nO && |b| == m.nS
    ensures ObservationTotal(G, m, a, b, n + 1) == Plus(ObservationTotal(G, m, a, b, n), G[BestProjection(G, m, a, n, b)][a][n].entries)
  {
  }

  /** The candidate vector of action a: its immediate rewards plus the kept projections. */
  function ActionVector(G: seq<seq<seq<AlphaVector>>>, imm: seq<AlphaVector>, m: Tables, a: nat, b: seq<real>): (r: seq<real>)
    requires ProjectionShape(G, m) && |G| > 0 && ImmediateShape(imm, m) && a < m.nA && 1 <= m.nO && |b| == m.nS
    ensures |r| == m.nS
  {
    Plus(imm[a].entries, ObservationTotal(G, m, a, b, m.nO))
  }

  /** The value at b of every action's candidate vector. */
  function ActionValues(G: seq<seq<seq<AlphaVector>>>, imm: seq<AlphaVector>, m: Tables, b: seq<real>): (r: seq<real>)
    requires ProjectionShape(G, m) && |G| > 0 && ImmediateShape(imm, m) && 1 <= m.nO && |b| == m.nS
    ensures |r| == m.nA
  {
    seq(m.nA, a requires 0 <= a < m.nA => Dot(ActionVector(G, imm, m, a, b), b, m.nS))
  }

  /** The vector the backup at point bp returns: the candidate of the first best action, tagged with that action and bp. */
  function BackupAt(G: seq<seq<seq<AlphaVector>>>, imm: seq<AlphaVector>, m: Tables, bp: BeliefPoint): (w: AlphaVector)
    requires ProjectionShape(G, m) && |G| > 0 && ImmediateShape(imm, m) && 1 <= m.nO && 1 <= m.nA && |bp.belief| == m.nS
    ensures |w.entries| == m.nS && w.belief == Some(bp) && 0 <= w.action < m.nA
  {
    var a := FirstMax(ActionValues(G, imm, m, bp.belief));
    AlphaVector(ActionVector(G, imm, m, a, bp.belief), a, Some(bp))
  }

  /** The values at b of the kept projections of observations 0 .. n-1, added up. */
  function ChosenSum(G: seq<seq<seq<AlphaVector>>>, m: Tables, a: nat, b: seq<real>, n: nat): real
    requires ProjectionShape(G, m) && |G| > 0 && a < m.nA && n <= m.nO && |b| == m.nS
  {
    if n == 0 then 0.0
    else ChosenSum(G, m, a, b, n - 1) + ProjectionValues(G, m, a, n - 1, b)[BestProjection(G, m, a, n - 1, b)]
  }

  lemma {:induction false} ObservationTotalValue(G: seq<seq<seq<AlphaVector>>>, m: Tables, a: nat, b: seq<real>, n: nat)
    requires ProjectionShape(G, m) && |G| > 0 && a < m.nA && 1 <= n <= m.nO && |b| == m.nS
    ensures Dot(ObservationTotal(G, m, a, b, n), b, m.nS) == ChosenSum(G, m, a, b, n)
  {
    if n > 1 {
      ObservationTotalValue(G, m, a, b, n - 1);
      DotPlus(ObservationTotal(G, m, a, b, n - 1), G[BestProjection(G, m, a, n - 1, b)][a][n - 1].entries, b, m.nS);
    }
  }

  /**
   * The one-step look-ahead value of action a at b against the value function
   * V: the immediate reward plus, for every observation that can follow,
   * P(o | b, a) times the best value of V at the updated belief b^{a,o}.
   */
  function LookAhead(m: Tables, imm: seq<AlphaVector>, V: seq<AlphaVector>, b: seq<real>, a: nat): real
    requires ValidTables(m) && ImmediateShape(imm, m) && Sized(V, m.nS) && |V| > 0 && a < m.nA && |b| == m.nS
  {
    Dot(imm[a].entries, b, m.nS) + Sum(SuccessorValues(m, V, b, a))
  }

  /** The successor values of action a, one per observation. */
  function SuccessorValues(m: Tables, V: seq<AlphaVector>, b: seq<real>, a: nat): (r: seq<real>)
    requires ValidTables(m) && Sized(V, m.nS) && |V| > 0 && a < m.nA && |b| == m.nS
    ensures |r| == m.nO
  {
    seq(m.nO, o requires 0 <= o < m.nO => SuccessorValue(m, V, b, a, o))
  }

  /** P(o | b, a) times the best value of V at b^{a,o}, or nothing when o cannot follow a at b. */
  function SuccessorValue(m: Tables, V: seq<AlphaVector>, b: seq<real>, a: nat, o: nat): real
    requires ValidTables(m) && Sized(V, m.nS) && |V| > 0 && a < m.nA && o < m.nO && |b| == m.nS
  {
    if AOProb(m, b, a, o) > 0.0 then Times(AOProb(m, b, a, o), MaxValue(Posterior(m, b, a, o), V, |V|).value) else 0.0
  }

  lemma TimesMonotone(p: real, x: real, y: real)
    requires p > 0.0
    ensures x <= y <==> Times(p, x) <= Times(p, y)
  {
    if x <= y {
      assert p * x <= p * y;
    } else {
      assert p * y < p * x;
    }
  }

  lemma ProductNonNegative(x: real, y: real, z: real)
    requires x >= 0.0 && y >= 0.0 && z >= 0.0
    ensures x * y * z >= 0.0
  {
    assert x * y >= 0.0;
  }

  lemma {:induction false} FlatWeightsNonNegative(m: Tables, b: seq<real>, a: nat, o: nat, n: nat)
    requires Indices(m, b, a, o) && n <= m.nS && NonNegativeTables(m) && NonNegative(b)
    ensures NonNegative(FlatWeights(m, b, a, o, n))
  {
    if n > 0 {
      FlatWeightsNonNegative(m, b, a, o, n - 1);
      var ws := Weights(m, b, a, o, n - 1);
      forall i | 0 <= i < |ws|
        ensures ws[i] >= 0.0
      {
        ProductNonNegative(m.obs[a][m.dest[n - 1][a][i]][o], m.prob[n - 1][a][i], b[n - 1]);
      }
      var prev := FlatWeights(m, b, a, o, n - 1);
      assert FlatWeights(m, b, a, o, n) == prev + ws;
      assert forall i :: 0 <= i < |prev + ws| ==> (prev + ws)[i] >= 0.0 by {
        forall i | 0 <= i < |prev + ws|
          ensures (prev + ws)[i] >= 0.0
        {
          if i < |prev| {
            assert (prev + ws)[i] == prev[i];
          } else {
            assert (prev + ws)[i] == ws[i - |prev|];
          }
        }
      }
    }
  }

  lemma {:induction false} SumNonNegative(ws: seq<real>)
    requires NonNegative(ws)
    ensures Sum(ws) >= 0.0
    decreases |ws|
  {
    if |ws| > 0 {
      var n := |ws| - 1;
      SumPrefixStep(ws, n);
      assert ws[..n + 1] == ws;
      assert NonNegative(ws[..n]) by {
        forall i | 0 <= i < n
          ensures ws[..n][i] >= 0.0
        {
          assert ws[..n][i] == ws[i];
        }
      }
      SumNonNegative(ws[..n]);
    }
  }

  /** Non-negative weights that add up to zero weigh nothing. */
  lemma {:induction false} ZeroWeights(ds: seq<int>, ws: seq<real>, v: seq<real>)
    requires |ds| == |ws| && NonNegative(ws) && Sum(ws) == 0.0
    ensures WeightedSum(ds, ws, v) == 0.0
    decreases |ds|
  {
    if |ds| > 0 {
      var n := |ds| - 1;
      SumPrefixStep(ws, n);
      assert ws[..n + 1] == ws;
      assert NonNegative(ws[..n]) by {
        forall i | 0 <= i < n
          ensures ws[..n][i] >= 0.0
        {
          assert ws[..n][i] == ws[i];
        }
      }
      SumNonNegative(ws[..n]);
      ZeroWeights(ds[..n], ws[..n], v);
    }
  }

  /** An observation that cannot follow contributes nothing to any projection's value. */
  lemma UnreachableProjection(m: Tables, v: seq<real>, b: seq<real>, a: nat, o: nat)
    requires Indices(m, b, a, o) && |b| == m.nS && |v| == m.nS && NonNegativeTables(m) && NonNegative(b)
    ensures AOProb(m, b, a, o) >= 0.0
    ensures AOProb(m, b, a, o) == 0.0 ==> Dot(BackProjection(m, v, a, o), b, m.nS) == 0.0
  {
    FlatWeightsNonNegative(m, b, a, o, m.nS);
    SumNonNegative(FlatWeights(m, b, a, o, m.nS));
    if AOProb(m, b, a, o) == 0.0 {
      DotBackProjection(m, v, b, a, o, m.nS);
      ZeroWeights(FlatDests(m, a, m.nS), FlatWeights(m, b, a, o, m.nS), v);
    }
  }

  /**
   * The Bellman step for one action and observation: the projection the backup
   * keeps is worth P(o | b, a) times the best value of V at b^{a,o}, and
   * nothing when o cannot follow.
   */
  lemma ChosenProjectionValue(m: Tables, V: seq<AlphaVector>, b: seq<real>, a: nat, o: nat)
    requires ValidTables(m) && Sized(V, m.nS) && |V| > 0 && a < m.nA && o < m.nO && |b| == m.nS
    requires NonNegativeTables(m) && NonNegative(b)
    ensures ProjectionValues(Projections(m, V), m, a, o, b)[BestProjection(Projections(m, V), m, a, o, b)] == SuccessorValue(m, V, b, a, o)
  {
    var G := Projections(m, V);
    var vals := ProjectionValues(G, m, a, o, b);
    var j := BestProjection(G, m, a, o, b);
    assert IsFirstMax(vals, j);
    UnreachableProjection(m, V[j].entries, b, a, o);
    if AOProb(m, b, a, o) > 0.0 {
      var post := Posterior(m, b, a, o);
      var p := AOProb(m, b, a, o);
      var best := MaxValue(post, V, |V|);
      MaxValueIsMax(post, V, |V|);
      forall k | 0 <= k < |V|
        ensures vals[k] == Times(p, DotProduct(V[k], post))
      {
        ProjectionValue(m, V[k].entries, b, a, o);
      }
      var w :| 0 <= w < |V| && best.value == DotProduct(V[w], post);
      assert LessEq(Finite(DotProduct(V[j], post)), best);
      TimesMonotone(p, DotProduct(V[j], post), best.value);
      assert vals[w] <= vals[j];
      TimesMonotone(p, best.value, DotProduct(V[j], post));
    }
  }

  /** Projections whose kept value at every observation o is vals[o] add up, over the first n observations, to the sum of vals[..n]. */
  lemma {:induction false} ChosenSumIsSum(G: seq<seq<seq<AlphaVector>>>, m: Tables, a: nat, b: seq<real>, vals: seq<real>, n: nat)
    requires ProjectionShape(G, m) && |G| > 0 && a < m.nA && n <= m.nO && |b| == m.nS && |vals| == m.nO
    requires forall o :: 0 <= o < m.nO ==> ProjectionValues(G, m, a, o, b)[BestProjection(G, m, a, o, b)] == vals[o]
    ensures ChosenSum(G, m, a, b, n) == Sum(vals[..n])
  {
    if n > 0 {
      ChosenSumIsSum(G, m, a, b, vals, n - 1);
      SumPrefixStep(vals, n - 1);
    }
  }

  /**
   * The candidate vector of every action is worth, at b, exactly that action's
   * one-step look-ahead value against V; so the backup at b picks the first
   * action of largest look-ahead value and returns a vector worth that much.
   */
  lemma BackupIsLookAhead(m: Tables, imm: seq<AlphaVector>, V: seq<AlphaVector>, b: seq<real>, a: nat)
    requires ValidTables(m) && ImmediateShape(imm, m) && Sized(V, m.nS) && |V| > 0 && a < m.nA && 1 <= m.nO && |b| == m.nS
    requires NonNegativeTables(m) && NonNegative(b)
    ensures Dot(ActionVector(Projections(m, V), imm, m, a, b), b, m.nS) == LookAhead(m, imm, V, b, a)
  {
    var G := Projections(m, V);
    var vals := SuccessorValues(m, V, b, a);
    forall o | 0 <= o < m.nO
      ensures ProjectionValues(G, m, a, o, b)[BestProjection(G, m, a, o, b)] == vals[o]
    {
      ChosenProjectionValue(m, V, b, a, o);
    }
    ActionVectorValue(G, m, imm, b, a, vals);
  }

  /** Projections whose kept value at every observation o is vals[o] give action a a vector worth its immediate reward plus the sum of vals. */
  lemma ActionVectorValue(G: seq<seq<seq<AlphaVector>>>, m: Tables, imm: seq<AlphaVector>, b: seq<real>, a: nat, vals: seq<real>)
    requires ProjectionShape(G, m) && |G| > 0 && ImmediateShape(imm, m) && a < m.nA && 1 <= m.nO && |b| == m.nS && |vals| == m.nO
    requires forall o :: 0 <= o < m.nO ==> ProjectionValues(G, m, a, o, b)[BestProjection(G, m, a, o, b)] == vals[o]
    ensures Dot(ActionVector(G, imm, m, a, b), b, m.nS) == Dot(imm[a].entries, b, m.nS) + Sum(vals)
  {
    DotPlus(imm[a].entries, ObservationTotal(G, m, a, b, m.nO), b, m.nS);
    ObservationTotalValue(G, m, a, b, m.nO);
    ChosenSumIsSum(G, m, a, b, vals, m.nO);
    assert vals[..m.nO] == vals;
  }

  /**
   * The backup at bp against the projections of V is a Bellman backup: its
   * value at bp's belief is the one-step look-ahead value of its action,
   * no action looks further ahead, and every earlier action looks ahead
   * strictly less.
   */
  lemma BackupAtIsBellman(m: Tables, imm: seq<AlphaVector>, V: seq<AlphaVector>, bp: BeliefPoint)
    requires ValidTables(m) && ImmediateShape(imm, m) && Sized(V, m.nS) && |V| > 0 && 1 <= m.nO && 1 <= m.nA
    requires |bp.belief| == m.nS && NonNegativeTables(m) && NonNegative(bp.belief)
    ensures var w := BackupAt(Projections(m, V), imm, m, bp);
      DotProduct(w, bp.belief) == LookAhead(m, imm, V, bp.belief, w.action) &&
      (forall a :: 0 <= a < m.nA ==> LookAhead(m, imm, V, bp.belief, a) <= DotProduct(w, bp.belief)) &&
      (forall a :: 0 <= a < w.action ==> LookAhead(m, imm, V, bp.belief, a) < DotProduct(w, bp.belief))
  {
    var G := Projections(m, V);
    var b := bp.belief;
    var vals := ActionValues(G, imm, m, b);
    forall a | 0 <= a < m.nA
      ensures vals[a] == LookAhead(m, imm, V, b, a)
    {
      BackupIsLookAhead(m, imm, V, b, a);
    }
    var w := BackupAt(G, imm, m, bp);
    assert IsFirstMax(vals, w.action);
    assert DotProduct(w, b) == vals[w.action];
  }

  // ---------------------------------------------------------------------------
  // The sawtooth upper bound.
  // ---------------------------------------------------------------------------

  /** What the sawtooth bound reads of a stored belief point. */
  datatype StoredBound = StoredBound(belief: seq<real>, isState: bool, state: int, upper: real)

  /** The stored points the sawtooth bound needs: more points than states, at least one not a state belief, and every such point with a positive entry. */
  predicate SawtoothReady(P: seq<StoredBound>, nS: nat) {
    |P| > nS &&
    (forall i :: 0 <= i < |P| ==> |P[i].belief| == nS) &&
    (forall i :: 0 <= i < |P| && P[i].isState ==> 0 <= P[i].state < nS) &&
    (forall i :: 0 <= i < |P| && !P[i].isState ==> HasMass(P[i].belief)) &&
    exists i :: 0 <= i < |P| && !P[i].isState
  }

  /** Stored point i is the last state belief for s among the first n. */
  predicate LastStatePoint(P: seq<StoredBound>, s: int, i: int, n: nat)
    requires n <= |P|
  {
    0 <= i < n && P[i].isState && P[i].state == s &&
    forall j :: i < j < n ==> !(P[j].isState && P[j].state == s)
  }

  /** The upper bound of every state's corner, as the first n stored points give it. */
  function StateUppers(P: seq<StoredBound>, nS: nat, n: nat): (su: seq<real>)
    requires n <= |P| && forall i :: 0 <= i < |P| && P[i].isState ==> 0 <= P[i].state < nS
    ensures |su| == nS
  {
    if n == 0 then Zeros(nS)
    else
      var su := StateUppers(P, nS, n - 1);
      if P[n - 1].isState then su[P[n - 1].state := P[n - 1].upper] else su
  }

  /** A corner's bound is the one stored at the last state belief for it, and 0 when there is none. */
  lemma {:induction false} StateUppersMeaning(P: seq<StoredBound>, nS: nat, n: nat)
    requires n <= |P| && forall i :: 0 <= i < |P| && P[i].isState ==> 0 <= P[i].state < nS
    ensures forall s, i :: 0 <= s < nS && LastStatePoint(P, s, i, n) ==> StateUppers(P, nS, n)[s] == P[i].upper
    ensures forall s :: 0 <= s < nS && (forall i :: 0 <= i < n ==> !(P[i].isState && P[i].state == s)) ==> StateUppers(P, nS, n)[s] == 0.0
  {
    if n > 0 {
      StateUppersMeaning(P, nS, n - 1);
      forall s, i | 0 <= s < nS && LastStatePoint(P, s, i, n)
        ensures StateUppers(P, nS, n)[s] == P[i].upper
      {
        if i < n - 1 {
          assert LastStatePoint(P, s, i, n - 1);
        }
      }
    }
  }

  /** f: the stored upper bound minus the corner interpolation over the positive entries of bb. */
  function Excess(bb: seq<real>, su: seq<real>, upper: real, n: nat): real
    requires n <= |bb| && n <= |su|
  {
    if n == 0 then upper
    else Excess(bb, su, upper, n - 1) - (if bb[n - 1] > 0.0 then bb[n - 1] * su[n - 1] else 0.0)
  }

  /** c: the least ratio b(s) / bb(s) over the positive entries of bb; +infinity when there are none. */
  function Ratio(b: seq<real>, bb: seq<real>, n: nat): (c: XReal)
    requires n <= |b| && n <= |bb|
    ensures c != NegInf
  {
    if n == 0 then PosInf
    else
      var c := Ratio(b, bb, n - 1);
      if bb[n - 1] > 0.0 && Less(Finite(b[n - 1] / bb[n - 1]), c) then Finite(b[n - 1] / bb[n - 1]) else c
  }

  /** The least ratio is finite exactly when bb has a positive entry among the first n. */
  lemma {:induction false} RatioFinite(b: seq<real>, bb: seq<real>, n: nat)
    requires n <= |b| && n <= |bb|
    ensures Ratio(b, bb, n).Finite? <==> exists s :: 0 <= s < n && bb[s] > 0.0
  {
    if n > 0 {
      RatioFinite(b, bb, n - 1);
    }
  }

  /** The least ratio is at most every ratio over a positive entry. */
  lemma {:induction false} RatioLeast(b: seq<real>, bb: seq<real>, n: nat)
    requires n <= |b| && n <= |bb|
    ensures forall s :: 0 <= s < n && bb[s] > 0.0 ==> LessEq(Ratio(b, bb, n), Finite(b[s] / bb[s]))
  {
    if n > 0 {
      RatioLeast(b, bb, n - 1);
    }
  }

  /** A finite least ratio is attained at some positive entry of bb. */
  lemma {:induction false} RatioAttained(b: seq<real>, bb: seq<real>, n: nat)
    requires n <= |b| && n <= |bb| && Ratio(b, bb, n).Finite?
    ensures exists s :: 0 <= s < n && bb[s] > 0.0 && Ratio(b, bb, n).value == b[s] / bb[s]
  {
    var c := Ratio(b, bb, n - 1);
    if !(bb[n - 1] > 0.0 && Less(Finite(b[n - 1] / bb[n - 1]), c)) {
      RatioAttained(b, bb, n - 1);
    }
  }

  /** The bound c f that a point which is not a state belief offers at b. */
  function Offer(b: seq<real>, p: StoredBound, su: seq<real>, nS: nat): real
    requires |b| == nS && |p.belief| == nS && |su| == nS && HasMass(p.belief)
  {
    RatioFinite(b, p.belief, nS);
    Times(Ratio(b, p.belief, nS).value, Excess(p.belief, su, p.upper, nS))
  }

  /** The least offer among the first n stored points, +infinity if none of them may offer. */
  function LeastOffer(b: seq<real>, P: seq<StoredBound>, su: seq<real>, nS: nat, n: nat): (z: XReal)
    requires n <= |P| && |b| == nS && |su| == nS
    requires forall i :: 0 <= i < |P| ==> |P[i].belief| == nS
    requires forall i :: 0 <= i < |P| && !P[i].isState ==> HasMass(P[i].belief)
    ensures z != NegInf
  {
    if n == 0 then PosInf
    else
      var z := LeastOffer(b, P, su, nS, n - 1);
      if !P[n - 1].isState && Less(Finite(Offer(b, P[n - 1], su, nS)), z) then Finite(Offer(b, P[n - 1], su, nS)) else z
  }

  /** The least offer is finite exactly when one of the first n stored points is not a state belief. */
  lemma {:induction false} LeastOfferFinite(b: seq<real>, P: seq<StoredBound>, su: seq<real>, nS: nat, n: nat)
    requires n <= |P| && |b| == nS && |su| == nS
    requires forall i :: 0 <= i < |P| ==> |P[i].belief| == nS
    requires forall i :: 0 <= i < |P| && !P[i].isState ==> HasMass(P[i].belief)
    ensures LeastOffer(b, P, su, nS, n).Finite? <==> exists i :: 0 <= i < n && !P[i].isState
  {
    if n > 0 {
      LeastOfferFinite(b, P, su, nS, n - 1);
    }
  }

  /** The least offer is at most the offer of every stored point that is not a state belief. */
  lemma {:induction false} LeastOfferLeast(b: seq<real>, P: seq<StoredBound>, su: seq<real>, nS: nat, n: nat)
    requires n <= |P| && |b| == nS && |su| == nS
    requires forall i :: 0 <= i < |P| ==> |P[i].belief| == nS
    requires forall i :: 0 <= i < |P| && !P[i].isState ==> HasMass(P[i].belief)
    ensures forall i :: 0 <= i < n && !P[i].isState ==> LessEq(LeastOffer(b, P, su, nS, n), Finite(Offer(b, P[i], su, nS)))
  {
    if n > 0 {
      LeastOfferLeast(b, P, su, nS, n - 1);
    }
  }

  /** A finite least offer is the offer of some stored point that is not a state belief. */
  lemma {:induction false} LeastOfferAttained(b: seq<real>, P: seq<StoredBound>, su: seq<real>, nS: nat, n: nat)
    requires n <= |P| && |b| == nS && |su| == nS
    requires forall i :: 0 <= i < |P| ==> |P[i].belief| == nS
    requires forall i :: 0 <= i < |P| && !P[i].isState ==> HasMass(P[i].belief)
    requires LeastOffer(b, P, su, nS, n).Finite?
    ensures exists i :: 0 <= i < n && !P[i].isState && LeastOffer(b, P, su, nS, n).value == Offer(b, P[i], su, nS)
  {
    var z := LeastOffer(b, P, su, nS, n - 1);
    if !(!P[n - 1].isState && Less(Finite(Offer(b, P[n - 1], su, nS)), z)) {
      LeastOfferAttained(b, P, su, nS, n - 1);
    }
  }

  /** The sawtooth upper bound at b: the least offer plus the corner interpolation of b. */
  function SawTooth(b: seq<real>, P: seq<StoredBound>, nS: nat): real
    requires SawtoothReady(P, nS) && |b| == nS
  {
    var su := StateUppers(P, nS, |P|);
    LeastOfferFinite(b, P, su, nS, |P|);
    LeastOffer(b, P, su, nS, |P|).value + Dot(b, su, nS)
  }

  /** A belief compared with itself: every positive entry gives ratio 1. */
  lemma {:induction false} RatioSelf(b: seq<real>, n: nat)
    requires n <= |b| && exists s :: 0 <= s < n && b[s] > 0.0
    ensures Ratio(b, b, n) == Finite(1.0)
  {
    var c := Ratio(b, b, n);
    RatioFinite(b, b, n);
    RatioAttained(b, b, n);
    RatioLeast(b, b, n);
    var s :| 0 <= s < n && b[s] > 0.0 && c.value == b[s] / b[s];
    assert b[s] / b[s] == 1.0;
    forall t | 0 <= t < n && b[t] > 0.0
      ensures b[t] / b[t] == 1.0
    {
    }
  }

  /** For a non-negative belief, the excess plus the corner interpolation gives back the stored bound. */
  lemma {:induction false} ExcessPlusCorners(b: seq<real>, su: seq<real>, upper: real, n: nat)
    requires n <= |b| && n <= |su| && NonNegative(b)
    ensures Excess(b, su, upper, n) + Dot(b, su, n) == upper
  {
    if n > 0 {
      ExcessPlusCorners(b, su, upper, n - 1);
      if b[n - 1] <= 0.0 {
        assert b[n - 1] == 0.0;
        assert b[n - 1] * su[n - 1] == 0.0;
      }
    }
  }

  /** The sawtooth bound never exceeds the bound stored at a point that is not a state belief, evaluated at that point's own belief. */
  lemma SawToothAtStoredPoint(b: seq<real>, P: seq<StoredBound>, nS: nat, j: nat)
    requires SawtoothReady(P, nS) && |b| == nS && NonNegative(b)
    requires j < |P| && !P[j].isState && P[j].belief == b
    ensures SawTooth(b, P, nS) <= P[j].upper
  {
    var su := StateUppers(P, nS, |P|);
    OfferAtOwnBelief(b, P[j], su, nS);
    LeastOfferFinite(b, P, su, nS, |P|);
    assert LeastOffer(b, P, su, nS, |P|).value <= Offer(b, P[j], su, nS) by {
      LeastOfferLeast(b, P, su, nS, |P|);
      assert LessEq(LeastOffer(b, P, su, nS, |P|), Finite(Offer(b, P[j], su, nS)));
    }
    assert SawTooth(b, P, nS) == LeastOffer(b, P, su, nS, |P|).value + Dot(b, su, nS);
  }

  /** At its own belief a stored point offers exactly its bound minus the corner interpolation. */
  lemma OfferAtOwnBelief(b: seq<real>, p: StoredBound, su: seq<real>, nS: nat)
    requires |b| == nS && |su| == nS && p.belief == b && NonNegative(b) && HasMass(b)
    ensures Offer(b, p, su, nS) + Dot(b, su, nS) == p.upper
  {
    assert Offer(b, p, su, nS) == Excess(b, su, p.upper, nS) by {
      RatioSelf(b, nS);
      assert Times(1.0, Excess(b, su, p.upper, nS)) == Excess(b, su, p.upper, nS);
    }
    ExcessPlusCorners(b, su, p.upper, nS);
  }

  // ---------------------------------------------------------------------------
  // The one-step look-ahead upper bound.
  // ---------------------------------------------------------------------------

  /** The upper bound of a belief at the next stage: zero past the horizon, the sawtooth over the stored points otherwise. */
  function NextUpper(post: seq<real>, next: Option<seq<StoredBound>>, nS: nat): real
    requires |post| == nS && (next.Some? ==> SawtoothReady(next.value, nS))
  {
    if next.None? then 0.0 else SawTooth(post, next.value, nS)
  }

  /** P(o | b, a) times the next-stage upper bound at b^{a,o}, or nothing when o cannot follow a at b. */
  function SuccessorUpper(m: Tables, b: seq<real>, a: nat, o: nat, next: Option<seq<StoredBound>>): real
    requires ValidTables(m) && a < m.nA && o < m.nO && |b| == m.nS && (next.Some? ==> SawtoothReady(next.value, m.nS))
  {
    if AOProb(m, b, a, o) > 0.0 then Times(AOProb(m, b, a, o), NextUpper(Posterior(m, b, a, o), next, m.nS)) else 0.0
  }

  /** The upper-bound look-ahead of action a over observations 0 .. n-1. */
  function UpperLookAhead(m: Tables, imm: seq<AlphaVector>, b: seq<real>, a: nat, next: Option<seq<StoredBound>>, n: nat): real
    requires ValidTables(m) && ImmediateShape(imm, m) && a < m.nA && n <= m.nO && |b| == m.nS
    requires next.Some? ==> SawtoothReady(next.value, m.nS)
  {
    if n == 0 then Dot(imm[a].entries, b, m.nS)
    else UpperLookAhead(m, imm, b, a, next, n - 1) + SuccessorUpper(m, b, a, n - 1, next)
  }

  /** The upper-bound look-aheads of all actions, in action order. */
  function LookAheads(m: Tables, imm: seq<AlphaVector>, b: seq<real>, next: Option<seq<StoredBound>>): (r: seq<real>)
    requires ValidTables(m) && ImmediateShape(imm, m) && |b| == m.nS
    requires next.Some? ==> SawtoothReady(next.value, m.nS)
    ensures |r| == m.nA
  {
    seq(m.nA, a requires 0 <= a < m.nA => UpperLookAhead(m, imm, b, a, next, m.nO))
  }

  /** The running maximum of the first n values, as a scan with a strict > from minus infinity keeps it. */
  function RunningMax(vals: seq<real>, n: nat): (x: XReal)
    requires n <= |vals|
    ensures n == 0 <==> x == NegInf
    ensures n > 0 ==> x.Finite?
  {
    if n == 0 then NegInf
    else
      var x := RunningMax(vals, n - 1);
      if Less(x, Finite(vals[n - 1])) then Finite(vals[n - 1]) else x
  }

  /** The scan is at least each of the first n values and, over at least one, is one of them. */
  lemma {:induction false} RunningMaxIsMax(vals: seq<real>, n: nat)
    requires n <= |vals|
    ensures forall i :: 0 <= i < n ==> LessEq(Finite(vals[i]), RunningMax(vals, n))
    ensures n > 0 ==> exists i :: 0 <= i < n && RunningMax(vals, n) == Finite(vals[i])
  {
    if n > 0 {
      RunningMaxIsMax(vals, n - 1);
      var x := RunningMax(vals, n - 1);
      if Less(x, Finite(vals[n - 1])) {
        assert RunningMax(vals, n) == Finite(vals[n - 1]);
      } else {
        var i :| 0 <= i < n - 1 && x == Finite(vals[i]);
        assert RunningMax(vals, n) == Finite(vals[i]);
      }
      forall i | 0 <= i < n - 1
        ensures LessEq(Finite(vals[i]), RunningMax(vals, n))
      {
        if Less(x, Finite(vals[n - 1])) && Less(Finite(vals[i]), x) {
          LessTrans(Finite(vals[i]), x, Finite(vals[n - 1]));
        }
      }
    }
  }

  /** The running maximum of the look-aheads of the actions a < n, the scan of upperBoundUpdateSkip. */
  function ScanUpper(m: Tables, imm: seq<AlphaVector>, b: seq<real>, next: Option<seq<StoredBound>>, n: nat): (x: XReal)
    requires ValidTables(m) && ImmediateShape(imm, m) && |b| == m.nS && n <= m.nA
    requires next.Some? ==> SawtoothReady(next.value, m.nS)
    ensures n == 0 <==> x == NegInf
    ensures n > 0 ==> x.Finite?
  {
    if n == 0 then NegInf
    else
      var x := ScanUpper(m, imm, b, next, n - 1);
      var v := UpperLookAhead(m, imm, b, n - 1, next, m.nO);
      if Less(x, Finite(v)) then Finite(v) else x
  }

  /** The scan over the actions is the running maximum of their look-aheads. */
  lemma {:induction false} ScanUpperIsRunningMax(m: Tables, imm: seq<AlphaVector>, b: seq<real>, next: Option<seq<StoredBound>>, n: nat)
    requires ValidTables(m) && ImmediateShape(imm, m) && |b| == m.nS && n <= m.nA
    requires next.Some? ==> SawtoothReady(next.value, m.nS)
    ensures ScanUpper(m, imm, b, next, n) == RunningMax(LookAheads(m, imm, b, next), n)
  {
    if n > 0 {
      var k := n - 1;
      var vals := LookAheads(m, imm, b, next);
      ScanUpperIsRunningMax(m, imm, b, next, k);
      ScanUpperStep(m, imm, b, next, k);
      RunningMaxStep(vals, k);
      assert vals[k] == UpperLookAhead(m, imm, b, k, next, m.nO);
    }
  }

  /** One more action in the scan: it takes the look-ahead of action k when that is strictly larger. */
  lemma ScanUpperStep(m: Tables, imm: seq<AlphaVector>, b: seq<real>, next: Option<seq<StoredBound>>, k: nat)
    requires ValidTables(m) && ImmediateShape(imm, m) && |b| == m.nS && k < m.nA
    requires next.Some? ==> SawtoothReady(next.value, m.nS)
    ensures var x := ScanUpper(m, imm, b, next, k);
      var v := UpperLookAhead(m, imm, b, k, next, m.nO);
      ScanUpper(m, imm, b, next, k + 1) == if Less(x, Finite(v)) then Finite(v) else x
  {
  }

  /** One more value in the running maximum. */
  lemma RunningMaxStep(vals: seq<real>, k: nat)
    requires k < |vals|
    ensures RunningMax(vals, k + 1) ==
      if Less(RunningMax(vals, k), Finite(vals[k])) then Finite(vals[k]) else RunningMax(vals, k)
  {
  }

  /** The new upper bound of a point: the largest look-ahead, as the scan over the actions finds it. */
  function UpperBoundAt(m: Tables, imm: seq<AlphaVector>, b: seq<real>, next: Option<seq<StoredBound>>): real
    requires ValidTables(m) && ImmediateShape(imm, m) && |b| == m.nS && m.nA >= 1
    requires next.Some? ==> SawtoothReady(next.value, m.nS)
  {
    ScanUpper(m, imm, b, next, m.nA).value
  }

  /** The new upper bound is at least every action's look-ahead and is the look-ahead of some action. */
  lemma UpperBoundIsBest(m: Tables, imm: seq<AlphaVector>, b: seq<real>, next: Option<seq<StoredBound>>)
    requires ValidTables(m) && ImmediateShape(imm, m) && |b| == m.nS && m.nA >= 1
    requires next.Some? ==> SawtoothReady(next.value, m.nS)
    ensures forall a :: 0 <= a < m.nA ==> UpperLookAhead(m, imm, b, a, next, m.nO) <= UpperBoundAt(m, imm, b, next)
    ensures exists a :: 0 <= a < m.nA && UpperLookAhead(m, imm, b, a, next, m.nO) == UpperBoundAt(m, imm, b, next)
  {
    var vals := LookAheads(m, imm, b, next);
    RunningMaxIsMax(vals, m.nA);
    ScanUpperIsRunningMax(m, imm, b, next, m.nA);
    forall a | 0 <= a < m.nA
      ensures UpperLookAhead(m, imm, b, a, next, m.nO) <= UpperBoundAt(m, imm, b, next)
    {
      assert LessEq(Finite(vals[a]), RunningMax(vals, m.nA));
    }
    var a :| 0 <= a < m.nA && RunningMax(vals, m.nA) == Finite(vals[a]);
    assert UpperLookAhead(m, imm, b, a, next, m.nO) == UpperBoundAt(m, imm, b, next);
  }

  /** One more observation in the look-ahead of an action. */
  lemma UpperLookAheadStep(m: Tables, imm: seq<AlphaVector>, b: seq<real>, a: nat, next: Option<seq<StoredBound>>, o: nat)
    requires ValidTables(m) && ImmediateShape(imm, m) && a < m.nA && o < m.nO && |b| == m.nS
    requires next.Some? ==> SawtoothReady(next.value, m.nS)
    ensures UpperLookAhead(m, imm, b, a, next, o + 1) == UpperLookAhead(m, imm, b, a, next, o) + SuccessorUpper(m, b, a, o, next)
  {
  }

  /** Past the horizon nothing follows, so an action's look-ahead is its immediate reward. */
  lemma {:induction false} HorizonLookAhead(m: Tables, imm: seq<AlphaVector>, b: seq<real>, a: nat, n: nat)
    requires ValidTables(m) && ImmediateShape(imm, m) && a < m.nA && n <= m.nO && |b| == m.nS
    ensures UpperLookAhead(m, imm, b, a, None, n) == Dot(imm[a].entries, b, m.nS)
  {
    if n > 0 {
      var o := n - 1;
      UpperLookAheadStep(m, imm, b, a, None, o);
      HorizonSuccessor(m, b, a, o);
      HorizonLookAhead(m, imm, b, a, o);
    }
  }

  /** Past the horizon an observation adds nothing to the look-ahead. */
  lemma HorizonSuccessor(m: Tables, b: seq<real>, a: nat, o: nat)
    requires ValidTables(m) && a < m.nA && o < m.nO && |b| == m.nS
    ensures SuccessorUpper(m, b, a, o, None) == 0.0
  {
    if AOProb(m, b, a, o) > 0.0 {
      var post := Posterior(m, b, a, o);
      assert NextUpper(post, None, m.nS) == 0.0;
      TimesZero(AOProb(m, b, a, o));
    }
  }

  /** A point's bounds count as tight when the lower bound is finite and within the tolerance of the upper bound. */
  predicate Tightens(upper: real, lower: XReal) {
    lower.Finite? && Abs(upper - lower.value) < GapTolerance
  }

  /** upper - lower with an extended lower bound: +infinity when there is no lower bound. */
  function Gap(upper: real, lower: XReal): (g: XReal)
    ensures lower.Finite? ==> g == Finite(upper - lower.value)
    ensures lower == NegInf ==> g == PosInf
    ensures lower == PosInf ==> g == NegInf
  {
    match lower
    case Finite(l) => Finite(upper - l)
    case NegInf => PosInf
    case PosInf => NegInf
  }
}
