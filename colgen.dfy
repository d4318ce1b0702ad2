/**
 * Column generation for multi-agent CMDPs: a master LP chooses a mixture of
 * policies per agent subject to the shared cost limits; every round each
 * agent's finite-horizon value iteration, run with the current dual prices
 * as Lagrange multipliers, contributes a new column, and the rounds stop
 * once the multipliers settle or the time limit passes.
 */
module ColumnGeneration {
  import opened Numeric
  import opened Cmdp
  import opened MdpPolicies
  import opened ValueIteration
  import opened Instance
  import opened Lp
  import opened MasterProgram

  /** Solvability of a value-iteration call depends on the multipliers only through their shape. */
  lemma SolvableUnderLambda(m: CMDP, T: nat, l1: Lambda, l2: Lambda)
    requires Solvable(Problem(m, T, l1))
    requires l2.Count() == l1.Count() && l2.Instantaneous? == l1.Instantaneous? && l2.Spans(T)
    requires l2.Instantaneous? ==> |l2.perResourceTime[0]| == T
    ensures Solvable(Problem(m, T, l2))
  {
    assert TablesOf(Problem(m, T, l2)) == TablesOf(Problem(m, T, l1)).(lambda := l2);
  }

  /** The number of capacity rows per resource: one with budget constraints, one per decision otherwise. */
  function Width(budget: bool, T: nat): nat {
    if budget then 1 else T
  }

  /** The multipliers vi.solve is called with. */
  function LambdaOf(budget: bool, lambdaBudget: seq<real>, lambdaInstantaneous: seq<seq<real>>): Lambda {
    if budget then Lambda.Budget(lambdaBudget) else Lambda.Instantaneous(lambdaInstantaneous)
  }

  /** The multipliers as a table with one entry per capacity row: lambdaBudget[k] alone in row k with budget constraints. */
  function MultiplierTable(budget: bool, lambdaBudget: seq<real>, lambdaInstantaneous: seq<seq<real>>, K: nat): (r: seq<seq<real>>)
    requires budget ==> K <= |lambdaBudget|
    ensures budget ==> |r| == K && forall k :: 0 <= k < K ==> r[k] == [lambdaBudget[k]]
    ensures !budget ==> r == lambdaInstantaneous
  {
    if budget then seq(K, k requires 0 <= k < K => [lambdaBudget[k]]) else lambdaInstantaneous
  }

  /** A K x W table filled with v. */
  function Filled(K: nat, W: nat, v: real): (r: seq<seq<real>>)
    ensures |r| == K && forall k :: 0 <= k < K ==> |r[k]| == W && forall t :: 0 <= t < W ==> r[k][t] == v
  {
    seq(K, k => seq(W, t => v))
  }

  /** The dual prices of the K x W capacity rows, as a table. */
  function DualTable(duals: seq<real>, K: nat, W: nat): (r: seq<seq<real>>)
    requires K * W <= |duals|
    ensures |r| == K
    ensures forall k :: 0 <= k < K ==> k * W + W <= |duals| && r[k] == DualRow(duals, W, k)
  {
    ResourceBlocks(K, W);
    seq(K, k requires 0 <= k < K => DualRow(duals, W, k))
  }

  lemma ResourceBlocks(K: nat, W: nat)
    ensures forall k :: 0 <= k < K ==> k * W + W <= K * W
  {
    forall k | 0 <= k < K
      ensures k * W + W <= K * W
    {
      ResourceBlock(K, W, k);
    }
  }

  /** The first k + 1 blocks of W rows fit in K blocks. */
  lemma NextBlock(K: nat, W: nat, k: nat)
    requires k < K
    ensures (k + 1) * W == k * W + W && (k + 1) * W <= K * W
  {
    ResourceBlock(K, W, k);
  }

  /** The dual prices of the W capacity rows of resource k. */
  function DualRow(duals: seq<real>, W: nat, k: nat): (r: seq<real>)
    requires k * W + W <= |duals|
    ensures |r| == W && forall t :: 0 <= t < W ==> r[t] == duals[CostRow(W, k, t)]
  {
    duals[k * W..k * W + W]
  }

  /** A table whose entry (k, t) is the dual price of capacity row (k, t) is the dual table. */
  lemma TableFromEntries(table: seq<seq<real>>, duals: seq<real>, K: nat, W: nat)
    requires K * W <= |duals| && |table| == K && forall k :: 0 <= k < K ==> |table[k]| == W
    requires forall k, t :: 0 <= k < K && 0 <= t < W ==> CostRow(W, k, t) < |duals| && table[k][t] == duals[CostRow(W, k, t)]
    ensures table == DualTable(duals, K, W)
  {
    var r := DualTable(duals, K, W);
    forall k | 0 <= k < K
      ensures table[k] == r[k]
    {
      assert table[k] == DualRow(duals, W, k);
    }
  }

  /** costConstraints[k][t] is capacity row k * W + t. */
  predicate CapacityIds(costConstraints: seq<seq<nat>>, K: nat, W: nat) {
    |costConstraints| == K && (forall k :: 0 <= k < K ==> |costConstraints[k]| == W) &&
    forall k, t :: 0 <= k < K && 0 <= t < W ==> costConstraints[k][t] == CostRow(W, k, t)
  }

  /** The dual loop with budget constraints: the new lambdaBudget[k] is the dual price of the row of resource k. */
  method BudgetDuals(duals: seq<real>, costConstraints: seq<seq<nat>>, lambdaBudget: seq<real>, K: nat)
    returns (newLambdaBudget: seq<real>, lambdaDiff: real)
    requires CapacityIds(costConstraints, K, 1) && K <= |duals| && K <= |lambdaBudget|
    ensures |newLambdaBudget| == K
    ensures forall k :: 0 <= k < K ==> CostRow(1, k, 0) < |duals| && newLambdaBudget[k] == duals[CostRow(1, k, 0)]
    ensures lambdaDiff == DualDistance(MultiplierTable(true, lambdaBudget, [], K), duals, 1, K)
  {
    newLambdaBudget := Zeros(K);
    lambdaDiff := 0.0;
    ghost var table := MultiplierTable(true, lambdaBudget, [], K);
    var k := 0;
    while k < K
      invariant 0 <= k <= K && |newLambdaBudget| == K
      invariant forall k' :: 0 <= k' < k ==> newLambdaBudget[k'] == duals[k']
      invariant lambdaDiff == DualDistance(table, duals, 1, k)
    {
      assert costConstraints[k][0] == k * 1 + 0 == k;
      var dual := duals[costConstraints[k][0]];
      newLambdaBudget := newLambdaBudget[k := dual];
      lambdaDiff := lambdaDiff + Abs(lambdaBudget[k] - dual);
      assert RowDistance(table[k], duals, 1, k, 1) == Abs(lambdaBudget[k] - dual);
      assert DualDistance(table, duals, 1, k + 1) == DualDistance(table, duals, 1, k) + RowDistance(table[k], duals, 1, k, 1);
      k := k + 1;
    }
    forall k | 0 <= k < K
      ensures CostRow(1, k, 0) == k
    {
    }
  }

  /** The time loop of the dual loop for resource k, with instantaneous constraints. */
  method InstantaneousRow(duals: seq<real>, costConstraints: seq<seq<nat>>, row0: seq<real>, K: nat, T: nat, k: nat)
    returns (row: seq<real>, diff: real)
    requires CapacityIds(costConstraints, K, T) && K * T <= |duals| && k < K && |row0| == T
    ensures k * T + T <= |duals| && |row| == T
    ensures forall t :: 0 <= t < T ==> row[t] == duals[CostRow(T, k, t)]
    ensures diff == RowDistance(row0, duals, T, k, T)
  {
    ResourceBlock(K, T, k);
    row := [];
    diff := 0.0;
    var t := 0;
    while t < T
      invariant 0 <= t <= T && |row| == t
      invariant forall t' :: 0 <= t' < t ==> row[t'] == duals[CostRow(T, k, t')]
      invariant diff == RowDistance(row0, duals, T, k, t)
    {
      var dual := duals[costConstraints[k][t]];
      row := row + [dual];
      diff := diff + Abs(row0[t] - dual);
      t := t + 1;
    }
  }

  /** The dual loop with instantaneous constraints: entry (k, t) of the new table is the dual price of row (k, t). */
  method InstantaneousDuals(duals: seq<real>, costConstraints: seq<seq<nat>>, lambdaInstantaneous: seq<seq<real>>, K: nat, T: nat)
    returns (newLambdaInstantaneous: seq<seq<real>>, lambdaDiff: real)
    requires CapacityIds(costConstraints, K, T) && K * T <= |duals|
    requires |lambdaInstantaneous| == K && forall k :: 0 <= k < K ==> |lambdaInstantaneous[k]| == T
    ensures |newLambdaInstantaneous| == K && forall k :: 0 <= k < K ==> |newLambdaInstantaneous[k]| == T
    ensures forall k, t :: 0 <= k < K && 0 <= t < T ==>
      CostRow(T, k, t) < |duals| && newLambdaInstantaneous[k][t] == duals[CostRow(T, k, t)]
    ensures lambdaDiff == DualDistance(lambdaInstantaneous, duals, T, K)
  {
    newLambdaInstantaneous := Filled(K, T, 0.0);
    lambdaDiff := 0.0;
    var k := 0;
    while k < K
      invariant 0 <= k <= K && |newLambdaInstantaneous| == K
      invariant forall k' :: 0 <= k' < K ==> |newLambdaInstantaneous[k']| == T
      invariant forall k', t :: 0 <= k' < k && 0 <= t < T ==>
        CostRow(T, k', t) < |duals| && newLambdaInstantaneous[k'][t] == duals[CostRow(T, k', t)]
      invariant k * T <= |duals| && lambdaDiff == DualDistance(lambdaInstantaneous, duals, T, k)
    {
      var row, diff := InstantaneousRow(duals, costConstraints, lambdaInstantaneous[k], K, T, k);
      NextBlock(K, T, k);
      assert DualDistance(lambdaInstantaneous, duals, T, k + 1) ==
        DualDistance(lambdaInstantaneous, duals, T, k) + RowDistance(lambdaInstantaneous[k], duals, T, k, T);
      forall t | 0 <= t < T
        ensures CostRow(T, k, t) < |duals|
      {
        CostRowRange(K, T, k, t);
      }
      newLambdaInstantaneous := newLambdaInstantaneous[k := row];
      lambdaDiff := lambdaDiff + diff;
      k := k + 1;
    }
  }

  /** The sum of |row[t] - dual| over the first n capacity rows of resource k. */
  function RowDistance(row: seq<real>, duals: seq<real>, W: nat, k: nat, n: nat): real
    requires n <= |row| && n <= W && k * W + W <= |duals|
  {
    if n == 0 then 0.0 else RowDistance(row, duals, W, k, n - 1) + Abs(row[n - 1] - duals[CostRow(W, k, n - 1)])
  }

  /** lambdaDiff: the distance between the multipliers and the new dual prices, resource after resource. */
  function DualDistance(table: seq<seq<real>>, duals: seq<real>, W: nat, n: nat): real
    requires n <= |table| && (forall k :: 0 <= k < n ==> W <= |table[k]|) && n * W <= |duals|
  {
    if n == 0 then 0.0
    else
      ResourceBlock(n, W, n - 1);
      DualDistance(table, duals, W, n - 1) + RowDistance(table[n - 1], duals, W, n - 1, W)
  }

  lemma {:induction false} RowDistanceZero(row: seq<real>, duals: seq<real>, W: nat, k: nat, n: nat)
    requires n <= |row| && n <= W && k * W + W <= |duals|
    ensures RowDistance(row, duals, W, k, n) >= 0.0
    ensures RowDistance(row, duals, W, k, n) == 0.0 <==> forall t :: 0 <= t < n ==> row[t] == duals[CostRow(W, k, t)]
  {
    if n > 0 {
      RowDistanceZero(row, duals, W, k, n - 1);
    }
  }

  /** The sum of |x[t] - y[t]| over the first n entries. */
  function RowGap(x: seq<real>, y: seq<real>, n: nat): real
    requires n <= |x| && n <= |y|
  {
    if n == 0 then 0.0 else RowGap(x, y, n - 1) + Abs(x[n - 1] - y[n - 1])
  }

  /** The sum of |a[k][t] - b[k][t]| over the first n resources and W entries each. */
  function TableDistance(a: seq<seq<real>>, b: seq<seq<real>>, W: nat, n: nat): real
    requires n <= |a| && n <= |b| && forall k :: 0 <= k < n ==> W <= |a[k]| && W <= |b[k]|
  {
    if n == 0 then 0.0 else TableDistance(a, b, W, n - 1) + RowGap(a[n - 1], b[n - 1], W)
  }

  lemma {:induction false} RowGapZero(x: seq<real>, y: seq<real>, n: nat)
    requires n <= |x| && n <= |y|
    ensures RowGap(x, y, n) >= 0.0
    ensures RowGap(x, y, n) == 0.0 <==> forall t :: 0 <= t < n ==> x[t] == y[t]
  {
    if n > 0 {
      RowGapZero(x, y, n - 1);
    }
  }

  /** Two tables are at distance 0 exactly when they agree entry by entry, and the distance is never negative. */
  lemma {:induction false} TableDistanceZero(a: seq<seq<real>>, b: seq<seq<real>>, W: nat, n: nat)
    requires n <= |a| && n <= |b| && forall k :: 0 <= k < n ==> W <= |a[k]| && W <= |b[k]|
    ensures TableDistance(a, b, W, n) >= 0.0
    ensures TableDistance(a, b, W, n) == 0.0 <==> forall k, t :: 0 <= k < n && 0 <= t < W ==> a[k][t] == b[k][t]
  {
    if n > 0 {
      TableDistanceZero(a, b, W, n - 1);
      RowGapZero(a[n - 1], b[n - 1], W);
    }
  }

  lemma {:induction false} RowDistanceIsGap(row: seq<real>, duals: seq<real>, W: nat, k: nat, n: nat)
    requires n <= |row| && n <= W && k * W + W <= |duals|
    ensures RowDistance(row, duals, W, k, n) == RowGap(row, DualRow(duals, W, k), n)
  {
    if n > 0 {
      RowDistanceIsGap(row, duals, W, k, n - 1);
    }
  }

  /** lambdaDiff, summed against the dual prices, is the distance from the multipliers to the dual table. */
  lemma {:induction false} DualDistanceIsTableDistance(table: seq<seq<real>>, duals: seq<real>, K: nat, W: nat, n: nat)
    requires n <= K && K <= |table| && (forall k :: 0 <= k < K ==> W <= |table[k]|) && K * W <= |duals|
    requires n * W <= |duals|
    ensures DualDistance(table, duals, W, n) == TableDistance(table, DualTable(duals, K, W), W, n)
  {
    if n > 0 {
      MulMonotone(n - 1, n, W);
      DualDistanceIsTableDistance(table, duals, K, W, n - 1);
      DualDistanceStep(table, duals, K, W, n);
    }
  }

  lemma DualDistanceStep(table: seq<seq<real>>, duals: seq<real>, K: nat, W: nat, n: nat)
    requires 0 < n <= K && K <= |table| && (forall k :: 0 <= k < K ==> W <= |table[k]|) && K * W <= |duals|
    requires n * W <= |duals| && (n - 1) * W <= |duals|
    ensures DualDistance(table, duals, W, n) - DualDistance(table, duals, W, n - 1) ==
      TableDistance(table, DualTable(duals, K, W), W, n) - TableDistance(table, DualTable(duals, K, W), W, n - 1)
  {
    ResourceBlock(K, W, n - 1);
    RowDistanceIsGap(table[n - 1], duals, W, n - 1, W);
  }

  /** Each of the K resources has a total cost, and a cost at each of the T decisions. */
  predicate CostsCover(sol: MDPPolicyDeterministic, K: nat, T: nat) {
    K <= |sol.expectedTotalCost| && K <= |sol.expectedInstantaneousCost| &&
    forall k :: 0 <= k < K ==> T <= |sol.expectedInstantaneousCost[k]|
  }

  /** Every one of the solutions has the costs of K resources over T decisions. */
  predicate AllCostsCover(sols: seq<MDPPolicyDeterministic>, K: nat, T: nat) {
    forall j :: 0 <= j < |sols| ==> CostsCover(sols[j], K, T)
  }

  lemma AllCostsCoverSnoc(sols: seq<MDPPolicyDeterministic>, s: MDPPolicyDeterministic, K: nat, T: nat)
    requires AllCostsCover(sols, K, T) && CostsCover(s, K, T)
    ensures AllCostsCover(sols + [s], K, T)
  {
    forall j | 0 <= j < |sols| + 1
      ensures CostsCover((sols + [s])[j], K, T)
    {
      if j < |sols| {
        assert (sols + [s])[j] == sols[j];
      }
    }
  }

  /** A solution of value iteration has a total cost and a per-time cost for every cost function of the model. */
  lemma SolvedCostsCover(M: Tables, sol: MDPPolicyDeterministic, K: nat)
    requires WellFormed(M) && SolvedBy(M, sol) && K <= M.NC()
    ensures CostsCover(sol, K, M.T)
  {
    forall k | 0 <= k < K
      ensures M.T <= |sol.expectedInstantaneousCost[k]|
    {
      assert sol.expectedInstantaneousCost[k] == Column(ForwardOf(M, sol.pi).cols, k);
    }
  }

  /**
   * The coefficients of a solution's column in the capacity rows: the total
   * cost of resource k with budget constraints, its cost at time t otherwise.
   */
  function ColumnCost(sol: MDPPolicyDeterministic, budget: bool, K: nat, T: nat): (c: seq<seq<real>>)
    requires CostsCover(sol, K, T)
    ensures CoversKT(c, K, Width(budget, T)) && |c| == K
    ensures forall k, t :: 0 <= k < K && 0 <= t < Width(budget, T) ==>
      c[k][t] == if budget then sol.expectedTotalCost[k] else sol.expectedInstantaneousCost[k][t]
  {
    if budget then seq(K, k requires 0 <= k < K => [sol.expectedTotalCost[k]])
    else seq(K, k requires 0 <= k < K => sol.expectedInstantaneousCost[k][..T])
  }

  /** Columns whose weight is below this are left out of the extracted mixture. */
  const KeepThreshold: real := 0.000001

  /** The policies of the first n columns whose weight exceeds the threshold, in column order. */
  function KeptPolicies(values: seq<real>, sols: seq<MDPPolicyDeterministic>, n: nat): seq<MDPPolicyDeterministic>
    requires n <= |values| && n <= |sols|
  {
    if n == 0 then []
    else KeptPolicies(values, sols, n - 1) + (if values[n - 1] > KeepThreshold then [sols[n - 1]] else [])
  }

  /** The weights of those columns. */
  function KeptWeights(values: seq<real>, n: nat): seq<real>
    requires n <= |values|
  {
    if n == 0 then []
    else KeptWeights(values, n - 1) + (if values[n - 1] > KeepThreshold then [values[n - 1]] else [])
  }

  /** The expected reward of the mixture: the kept columns' rewards, weighted. */
  function MixedReward(values: seq<real>, sols: seq<MDPPolicyDeterministic>, n: nat): real
    requires n <= |values| && n <= |sols|
  {
    if n == 0 then 0.0
    else MixedReward(values, sols, n - 1) + (if values[n - 1] > KeepThreshold then values[n - 1] * sols[n - 1].expectedReward else 0.0)
  }

  /** The expected total cost of resource k of the mixture. */
  function MixedTotalCost(values: seq<real>, sols: seq<MDPPolicyDeterministic>, K: nat, T: nat, k: nat, n: nat): real
    requires n <= |values| && n <= |sols| && AllCostsCover(sols, K, T) && k < K
  {
    if n == 0 then 0.0
    else
      var step := if values[n - 1] > KeepThreshold then values[n - 1] * sols[n - 1].expectedTotalCost[k] else 0.0;
      MixedTotalCost(values, sols, K, T, k, n - 1) + step
  }

  /** The expected cost of resource k at time t of the mixture. */
  function MixedInstantaneousCost(values: seq<real>, sols: seq<MDPPolicyDeterministic>, K: nat, T: nat, k: nat, t: nat, n: nat): real
    requires n <= |values| && n <= |sols| && AllCostsCover(sols, K, T) && k < K && t < T
  {
    if n == 0 then 0.0
    else
      var step := if values[n - 1] > KeepThreshold then values[n - 1] * sols[n - 1].expectedInstantaneousCost[k][t] else 0.0;
      MixedInstantaneousCost(values, sols, K, T, k, t, n - 1) + step
  }

  /**
   * The instantaneous cost extractSolution reports as written: every kept
   * column overwrites the entry, so only the last kept column's weighted cost
   * remains.
   */
  function AsWrittenInstantaneousCost(values: seq<real>, sols: seq<MDPPolicyDeterministic>, K: nat, T: nat, k: nat, t: nat, n: nat): real
    requires n <= |values| && n <= |sols| && AllCostsCover(sols, K, T) && k < K && t < T
  {
    if n == 0 then 0.0
    else if values[n - 1] > KeepThreshold then values[n - 1] * sols[n - 1].expectedInstantaneousCost[k][t]
    else AsWrittenInstantaneousCost(values, sols, K, T, k, t, n - 1)
  }

  /** The total weight of the kept columns among the first n. */
  function KeptTotal(values: seq<real>, n: nat): real
    requires n <= |values|
  {
    if n == 0 then 0.0 else KeptTotal(values, n - 1) + (if values[n - 1] > KeepThreshold then values[n - 1] else 0.0)
  }

  /** ... which is the sum of the mixture's probabilities. */
  lemma {:induction false} KeptTotalIsSum(values: seq<real>, n: nat)
    requires n <= |values|
    ensures KeptTotal(values, n) == Sum(KeptWeights(values, n))
  {
    if n > 0 {
      KeptTotalIsSum(values, n - 1);
      if values[n - 1] > KeepThreshold {
        assert KeptWeights(values, n) == KeptWeights(values, n - 1) + [values[n - 1]];
        SumAppend(KeptWeights(values, n - 1), values[n - 1]);
      } else {
        assert KeptWeights(values, n) == KeptWeights(values, n - 1);
      }
    }
  }

  /** When all kept columns cost c at (k, t), the mixture costs c times the kept weight. */
  lemma {:induction false} MixedInstantaneousCostUniform(values: seq<real>, sols: seq<MDPPolicyDeterministic>, K: nat, T: nat, k: nat, t: nat, n: nat, c: real)
    requires n <= |values| && n <= |sols| && AllCostsCover(sols, K, T) && k < K && t < T
    requires forall j :: 0 <= j < n && values[j] > KeepThreshold ==> sols[j].expectedInstantaneousCost[k][t] == c
    ensures MixedInstantaneousCost(values, sols, K, T, k, t, n) == KeptTotal(values, n) * c
  {
    if n > 0 {
      MixedInstantaneousCostUniform(values, sols, K, T, k, t, n - 1, c);
      var v := if values[n - 1] > KeepThreshold then values[n - 1] else 0.0;
      assert (KeptTotal(values, n - 1) + v) * c == KeptTotal(values, n - 1) * c + v * c;
    }
  }

  /** Two columns of weight 1/2 that both cost 1 at (0, 0): the mixture costs 1, extractSolution reports 1/2. */
  lemma AsWrittenUnderreports()
    ensures var p := MDPPolicyDeterministic([], 0.0, [[1.0]], [0.0]);
      AsWrittenInstantaneousCost([0.5, 0.5], [p, p], 1, 1, 0, 0, 2) == 0.5 &&
      MixedInstantaneousCost([0.5, 0.5], [p, p], 1, 1, 0, 0, 2) == 1.0
  {
    var p := MDPPolicyDeterministic([], 0.0, [[1.0]], [0.0]);
    assert AllCostsCover([p, p], 1, 1);
    assert MixedInstantaneousCost([0.5, 0.5], [p, p], 1, 1, 0, 0, 1) == 0.5;
  }

  /** With at most one column kept, the reported instantaneous cost is the mixture's. */
  lemma {:induction false} OneKeptAgrees(values: seq<real>, sols: seq<MDPPolicyDeterministic>, K: nat, T: nat, k: nat, t: nat, n: nat)
    requires n <= |values| && n <= |sols| && AllCostsCover(sols, K, T) && k < K && t < T
    requires forall j, j' :: 0 <= j < j' < n && values[j] > KeepThreshold ==> values[j'] <= KeepThreshold
    ensures AsWrittenInstantaneousCost(values, sols, K, T, k, t, n) == MixedInstantaneousCost(values, sols, K, T, k, t, n)
  {
    if n > 0 {
      OneKeptAgrees(values, sols, K, T, k, t, n - 1);
      if values[n - 1] > KeepThreshold {
        NoneKept(values, sols, K, T, k, t, n - 1);
      }
    }
  }

  /** With no column kept, both instantaneous costs are zero. */
  lemma {:induction false} NoneKept(values: seq<real>, sols: seq<MDPPolicyDeterministic>, K: nat, T: nat, k: nat, t: nat, n: nat)
    requires n <= |values| && n <= |sols| && AllCostsCover(sols, K, T) && k < K && t < T
    requires forall j :: 0 <= j < n ==> values[j] <= KeepThreshold
    ensures AsWrittenInstantaneousCost(values, sols, K, T, k, t, n) == 0.0
    ensures MixedInstantaneousCost(values, sols, K, T, k, t, n) == 0.0
  {
    if n > 0 {
      NoneKept(values, sols, K, T, k, t, n - 1);
    }
  }

  /**
   * What extractSolution builds for one agent from the weights of its columns
   * and their solutions; its instantaneous costs are the ones it reports as
   * written.
   */
  ghost predicate MixtureOf(ps: MDPPolicySet, values: seq<real>, sols: seq<MDPPolicyDeterministic>, K: nat, T: nat)
    requires |values| == |sols| && AllCostsCover(sols, K, T)
  {
    ps.policies == KeptPolicies(values, sols, |sols|) && ps.probabilities == KeptWeights(values, |sols|) &&
    ps.expectedReward == MixedReward(values, sols, |sols|) &&
    |ps.expectedTotalCost| == K &&
    (forall k :: 0 <= k < K ==> ps.expectedTotalCost[k] == MixedTotalCost(values, sols, K, T, k, |sols|)) &&
    |ps.expectedInstantaneousCost| == K &&
    (forall k :: 0 <= k < K ==> |ps.expectedInstantaneousCost[k]| == T) &&
    (forall k, t :: 0 <= k < K && 0 <= t < T ==>
      ps.expectedInstantaneousCost[k][t] == AsWrittenInstantaneousCost(values, sols, K, T, k, t, |sols|))
  }

  /** acc with p * c[i] written over entry i for i < n, the rest of acc unchanged. */
  method SetScaled(acc: seq<real>, p: real, c: seq<real>, n: nat) returns (r: seq<real>)
    requires n <= |acc| && n <= |c|
    ensures |r| == |acc|
    ensures forall i :: 0 <= i < n ==> r[i] == p * c[i]
    ensures forall i :: n <= i < |acc| ==> r[i] == acc[i]
  {
    r := acc;
    var i := 0;
    while i < n
      invariant 0 <= i <= n && |r| == |acc|
      invariant forall i' :: 0 <= i' < i ==> r[i'] == p * c[i']
      invariant forall i' :: i <= i' < |acc| ==> r[i'] == acc[i']
    {
      r := r[i := p * c[i]];
      i := i + 1;
    }
  }

  /**
   * The column loop of extractSolution for one column of weight prob with
   * solution sol: its total costs are added in, and its instantaneous costs
   * are written over the entries, as the source does.
   */
  method AddKeptCosts(total: seq<real>, inst: seq<seq<real>>, prob: real, sol: MDPPolicyDeterministic, K: nat, T: nat)
    returns (total': seq<real>, inst': seq<seq<real>>)
    requires CostsCover(sol, K, T) && |total| == K && |inst| == K && forall k :: 0 <= k < K ==> |inst[k]| == T
    ensures |total'| == K && |inst'| == K && forall k :: 0 <= k < K ==> |inst'[k]| == T
    ensures forall k :: 0 <= k < K ==> total'[k] == total[k] + prob * sol.expectedTotalCost[k]
    ensures forall k, t :: 0 <= k < K && 0 <= t < T ==> inst'[k][t] == prob * sol.expectedInstantaneousCost[k][t]
  {
    total', inst' := total, inst;
    var k := 0;
    while k < K
      invariant 0 <= k <= K && |total'| == K && |inst'| == K && forall k' :: 0 <= k' < K ==> |inst'[k']| == T
      invariant forall k' :: 0 <= k' < K ==> total'[k'] == total[k'] + (if k' < k then prob * sol.expectedTotalCost[k'] else 0.0)
      invariant forall k', t :: 0 <= k' < K && 0 <= t < T ==>
        inst'[k'][t] == (if k' < k then prob * sol.expectedInstantaneousCost[k'][t] else inst[k'][t])
    {
      total' := total'[k := total'[k] + prob * sol.expectedTotalCost[k]];
      var row := SetScaled(inst'[k], prob, sol.expectedInstantaneousCost[k], T);
      inst' := inst'[k := row];
      k := k + 1;
    }
  }

  /** Column j joins the mixture when its weight is above the threshold; only then do the sums move. */
  lemma MixtureStep(values: seq<real>, sols: seq<MDPPolicyDeterministic>, K: nat, T: nat, j: nat)
    requires j < |values| && j < |sols| && AllCostsCover(sols, K, T)
    ensures var kept := values[j] > KeepThreshold;
      KeptPolicies(values, sols, j + 1) == KeptPolicies(values, sols, j) + (if kept then [sols[j]] else []) &&
      KeptWeights(values, j + 1) == KeptWeights(values, j) + (if kept then [values[j]] else []) &&
      MixedReward(values, sols, j + 1) == MixedReward(values, sols, j) + (if kept then values[j] * sols[j].expectedReward else 0.0)
    ensures forall k :: 0 <= k < K ==>
      MixedTotalCost(values, sols, K, T, k, j + 1) ==
        MixedTotalCost(values, sols, K, T, k, j) + (if values[j] > KeepThreshold then values[j] * sols[j].expectedTotalCost[k] else 0.0)
    ensures forall k, t :: 0 <= k < K && 0 <= t < T ==>
      AsWrittenInstantaneousCost(values, sols, K, T, k, t, j + 1) ==
        if values[j] > KeepThreshold then values[j] * sols[j].expectedInstantaneousCost[k][t]
        else AsWrittenInstantaneousCost(values, sols, K, T, k, t, j)
  {
  }

  /** The state of the column loop of extractSolution after the first j columns. */
  predicate Extracted(values: seq<real>, sols: seq<MDPPolicyDeterministic>, K: nat, T: nat, j: nat,
                      policies: seq<MDPPolicyDeterministic>, probs: seq<real>, reward: real, total: seq<real>, inst: seq<seq<real>>)
    requires j <= |values| && j <= |sols| && AllCostsCover(sols, K, T)
  {
    policies == KeptPolicies(values, sols, j) && probs == KeptWeights(values, j) &&
    reward == MixedReward(values, sols, j) &&
    |total| == K && |inst| == K && (forall k :: 0 <= k < K ==> |inst[k]| == T) &&
    (forall k :: 0 <= k < K ==> total[k] == MixedTotalCost(values, sols, K, T, k, j)) &&
    forall k, t :: 0 <= k < K && 0 <= t < T ==> inst[k][t] == AsWrittenInstantaneousCost(values, sols, K, T, k, t, j)
  }

  /** One kept column of extractSolution: its policy and weight are appended and its weighted reward and costs taken in. */
  method KeepColumn(values: seq<real>, sols: seq<MDPPolicyDeterministic>, K: nat, T: nat, j: nat, prob: real,
                    policies: seq<MDPPolicyDeterministic>, probs: seq<real>, reward: real, total: seq<real>, inst: seq<seq<real>>)
    returns (policies': seq<MDPPolicyDeterministic>, probs': seq<real>, reward': real, total': seq<real>, inst': seq<seq<real>>)
    requires j < |values| && j < |sols| && AllCostsCover(sols, K, T) && prob == values[j] && prob > KeepThreshold
    requires Extracted(values, sols, K, T, j, policies, probs, reward, total, inst)
    ensures Extracted(values, sols, K, T, j + 1, policies', probs', reward', total', inst')
  {
    MixtureStep(values, sols, K, T, j);
    policies' := policies + [sols[j]];
    probs' := probs + [prob];
    reward' := reward + prob * sols[j].expectedReward;
    assert CostsCover(sols[j], K, T);
    total', inst' := AddKeptCosts(total, inst, prob, sols[j], K, T);
  }

  /**
   * extractSolution for one agent: the columns of weight above the
   * threshold form the mixture, with the weighted sums of their rewards and
   * total costs, and the last kept column's weighted instantaneous costs.
   */
  method ExtractAgent(values: seq<real>, sols: seq<MDPPolicyDeterministic>, K: nat, T: nat) returns (ps: MDPPolicySet)
    requires |values| == |sols| && AllCostsCover(sols, K, T)
    ensures MixtureOf(ps, values, sols, K, T)
  {
    var policies: seq<MDPPolicyDeterministic> := [];
    var probs: seq<real> := [];
    var expectedReward := 0.0;
    var expectedTotalCost := Zeros(K);
    var expectedInstantaneousCost := Filled(K, T, 0.0);
    var j := 0;
    while j < |sols|
      invariant 0 <= j <= |sols|
      invariant Extracted(values, sols, K, T, j, policies, probs, expectedReward, expectedTotalCost, expectedInstantaneousCost)
    {
      var prob := values[j];
      if prob > KeepThreshold {
        policies, probs, expectedReward, expectedTotalCost, expectedInstantaneousCost :=
          KeepColumn(values, sols, K, T, j, prob, policies, probs, expectedReward, expectedTotalCost, expectedInstantaneousCost);
      } else {
        MixtureStep(values, sols, K, T, j);
      }
      j := j + 1;
    }
    ps := MDPPolicySet(policies, probs, expectedReward, expectedInstantaneousCost, expectedTotalCost);
  }

  /** The right-hand sides of a table of limits stand for instance.getCostLimit. */
  predicate LimitsCover(instance: CMDPInstance) {
    (instance.constraintType == ConstraintType.Budget ==> instance.numDomainResources <= |instance.costLimitsBudget|) &&
    (instance.constraintType == ConstraintType.Instantaneous ==>
      CoversKT(instance.costLimitsInstantaneous, instance.numDomainResources, instance.numDecisions))
  }

  /** The limit of every capacity row: getCostLimit(k) with budget constraints, getCostLimit(k, t) otherwise. */
  function LimitTable(instance: CMDPInstance): (r: seq<seq<real>>)
    requires LimitsCover(instance)
    ensures var budget := instance.constraintType == ConstraintType.Budget;
      var K, W := instance.numDomainResources, Width(budget, instance.numDecisions);
      |r| == K && (forall k :: 0 <= k < K ==> |r[k]| == W) &&
      forall k, t :: 0 <= k < K && 0 <= t < W ==>
        r[k][t] == if budget then instance.GetCostLimit(k).value else instance.GetCostLimitAt(k, t).value
  {
    var K := instance.numDomainResources;
    if instance.constraintType == ConstraintType.Budget then
      seq(K, k requires 0 <= k < K => [instance.costLimitsBudget[k]])
    else
      seq(K, k requires 0 <= k < K => instance.costLimitsInstantaneous[k][..instance.numDecisions])
  }

  /** |rhs| constraints of the given kind with empty left-hand sides, appended in order. */
  method AppendRows(m0: LPModel, kind: LPConstraintType, rhs: seq<real>) returns (m: LPModel, ids: seq<nat>)
    requires m0.Valid()
    ensures m.Valid() && m.variables == m0.variables && m.infinite == m0.infinite
    ensures |m.constraints| == |m0.constraints| + |rhs| && m.constraints[..|m0.constraints|] == m0.constraints
    ensures forall r :: 0 <= r < |rhs| ==>
      m.constraints[|m0.constraints| + r] == LPConstraint(EmptyExpression(|m0.variables|), kind, rhs[r])
    ensures |ids| == |rhs| && forall r :: 0 <= r < |rhs| ==> ids[r] == |m0.constraints| + r
  {
    m := m0;
    ids := [];
    var r := 0;
    while r < |rhs|
      invariant 0 <= r <= |rhs|
      invariant m.Valid() && m.variables == m0.variables && m.infinite == m0.infinite
      invariant |m.constraints| == |m0.constraints| + r && m.constraints[..|m0.constraints|] == m0.constraints
      invariant forall r' :: 0 <= r' < r ==>
        m.constraints[|m0.constraints| + r'] == LPConstraint(EmptyExpression(|m0.variables|), kind, rhs[r'])
      invariant |ids| == r && forall r' :: 0 <= r' < r ==> ids[r'] == |m0.constraints| + r'
    {
      ids := ids + [|m.constraints|];
      m := AddConstraint(m, EmptyExpression(|m0.variables|), kind, rhs[r]);
      r := r + 1;
    }
  }

  /** The W capacity rows of resource k, LESS_EQUAL its limits, without terms. */
  method ResourceRows(m0: LPModel, limits: seq<seq<real>>, K: nat, W: nat, k: nat) returns (m: LPModel, rows: seq<nat>)
    requires m0.Valid() && CoversKT(limits, K, W) && k < K
    ensures m.Valid() && m.variables == m0.variables && m.infinite == m0.infinite
    ensures |m.constraints| == |m0.constraints| + W && m.constraints[..|m0.constraints|] == m0.constraints
    ensures forall r :: |m0.constraints| <= r < |m.constraints| ==>
      m.constraints[r].kind == LessEqual && m.constraints[r].rhs == limits[k][r - |m0.constraints|]
    ensures |rows| == W && forall t :: 0 <= t < W ==> rows[t] == |m0.constraints| + t
  {
    m := m0;
    rows := [];
    var t := 0;
    while t < W
      invariant 0 <= t <= W
      invariant m.Valid() && m.variables == m0.variables && m.infinite == m0.infinite
      invariant |m.constraints| == |m0.constraints| + t && m.constraints[..|m0.constraints|] == m0.constraints
      invariant forall r :: |m0.constraints| <= r < |m.constraints| ==>
        m.constraints[r].kind == LessEqual && m.constraints[r].rhs == limits[k][r - |m0.constraints|]
      invariant |rows| == t && forall t' :: 0 <= t' < t ==> rows[t'] == |m0.constraints| + t'
    {
      rows := rows + [|m.constraints|];
      m := AddConstraint(m, EmptyExpression(|m0.variables|), LessEqual, limits[k][t]);
      t := t + 1;
    }
  }

  /** The capacity rows of initializeModel: for resource after resource, W rows LESS_EQUAL the limits. */
  method CapacityRows(infinite: real, limits: seq<seq<real>>, K: nat, W: nat)
    returns (m: LPModel, costConstraints: seq<seq<nat>>)
    requires CoversKT(limits, K, W)
    ensures m.Valid() && m.variables == [] && m.infinite == infinite && |m.constraints| == K * W
    ensures forall k, t :: 0 <= k < K && 0 <= t < W ==>
      CostRow(W, k, t) < K * W && m.constraints[CostRow(W, k, t)].kind == LessEqual && m.constraints[CostRow(W, k, t)].rhs == limits[k][t]
    ensures |costConstraints| == K && forall k :: 0 <= k < K ==> |costConstraints[k]| == W
    ensures forall k, t :: 0 <= k < K && 0 <= t < W ==> costConstraints[k][t] == CostRow(W, k, t)
  {
    m := CreateModel(infinite);
    costConstraints := [];
    var k := 0;
    while k < K
      invariant 0 <= k <= K
      invariant m.Valid() && m.variables == [] && m.infinite == infinite && |m.constraints| == k * W
      invariant forall k', t :: 0 <= k' < k && 0 <= t < W ==>
        CostRow(W, k', t) < k * W && m.constraints[CostRow(W, k', t)].kind == LessEqual && m.constraints[CostRow(W, k', t)].rhs == limits[k'][t]
      invariant |costConstraints| == k && forall k' :: 0 <= k' < k ==> |costConstraints[k']| == W
      invariant forall k', t :: 0 <= k' < k && 0 <= t < W ==> costConstraints[k'][t] == CostRow(W, k', t)
    {
      var m1, rows := ResourceRows(m, limits, K, W, k);
      assert |m1.constraints| == (k + 1) * W;
      forall k', t | 0 <= k' < k + 1 && 0 <= t < W
        ensures CostRow(W, k', t) < (k + 1) * W
        ensures m1.constraints[CostRow(W, k', t)].kind == LessEqual && m1.constraints[CostRow(W, k', t)].rhs == limits[k'][t]
      {
        CostRowRange(k + 1, W, k', t);
        if k' < k {
          CostRowRange(k, W, k', t);
          assert m1.constraints[CostRow(W, k', t)] == m1.constraints[..|m.constraints|][CostRow(W, k', t)];
        } else {
          assert CostRow(W, k', t) - |m.constraints| == t;
        }
      }
      m := m1;
      costConstraints := costConstraints + [rows];
      k := k + 1;
    }
    forall k, t | 0 <= k < K && 0 <= t < W
      ensures CostRow(W, k, t) < K * W
    {
      CostRowRange(K, W, k, t);
    }
  }

  /**
   * initializeModel: for each resource its capacity rows (LESS_EQUAL the
   * limits), then one probability row per agent (EQUAL to 1), all without
   * terms.
   */
  method InitialRows(infinite: real, limits: seq<seq<real>>, K: nat, W: nat, nAgents: nat)
    returns (m: LPModel, costConstraints: seq<seq<nat>>, probabilityConstraints: seq<nat>)
    requires CoversKT(limits, K, W)
    ensures Layout(m, limits, nAgents, K, W, costConstraints, probabilityConstraints)
    ensures m.variables == [] && m.infinite == infinite
  {
    var m2;
    m2, costConstraints := CapacityRows(infinite, limits, K, W);
    m, probabilityConstraints := AppendRows(m2, Equal, seq(nAgents, i => 1.0));
    forall k, t | 0 <= k < K && 0 <= t < W
      ensures m.constraints[CostRow(W, k, t)] == m2.constraints[CostRow(W, k, t)]
    {
      assert m.constraints[CostRow(W, k, t)] == m.constraints[..|m2.constraints|][CostRow(W, k, t)];
    }
    forall i | 0 <= i < nAgents
      ensures probabilityConstraints[i] == WeightRow(K, W, i)
      ensures m.constraints[WeightRow(K, W, i)].kind == Equal && m.constraints[WeightRow(K, W, i)].rhs == 1.0
    {
      assert WeightRow(K, W, i) == |m2.constraints| + i;
      assert m.constraints[|m2.constraints| + i] == LPConstraint(EmptyExpression(0), Equal, seq(nAgents, i => 1.0)[i]);
    }
    assert RowIds(nAgents, K, W, costConstraints, probabilityConstraints);
    assert RowKinds(m, limits, nAgents, K, W);
  }

  /** Changing the limit of capacity row (k, t) in the model and in the table keeps the layout and the columns. */
  lemma ChangeLimitKeeps(m: LPModel, limits: seq<seq<real>>, nAgents: nat, K: nat, W: nat,
                         costConstraints: seq<seq<nat>>, probabilityConstraints: seq<nat>,
                         vars: seq<seq<nat>>, coeffs: seq<seq<seq<seq<real>>>>, k: nat, t: nat, v: real)
    requires Layout(m, limits, nAgents, K, W, costConstraints, probabilityConstraints)
    requires Columns(m, nAgents, K, W, vars, coeffs)
    requires k < K && t < W
    ensures CostRow(W, k, t) < |m.constraints|
    ensures Layout(ChangeConstraintRHS(m, CostRow(W, k, t), v), limits[k := limits[k][t := v]], nAgents, K, W,
                   costConstraints, probabilityConstraints)
    ensures Columns(ChangeConstraintRHS(m, CostRow(W, k, t), v), nAgents, K, W, vars, coeffs)
  {
    CostRowRange(K, W, k, t);
    var r := ChangeConstraintRHS(m, CostRow(W, k, t), v);
    var l := limits[k := limits[k][t := v]];
    forall k', t' | 0 <= k' < K && 0 <= t' < W
      ensures r.constraints[CostRow(W, k', t')].kind == LessEqual && r.constraints[CostRow(W, k', t')].rhs == l[k'][t']
      ensures r.constraints[CostRow(W, k', t')].lhs == m.constraints[CostRow(W, k', t')].lhs
    {
      CostRowRange(K, W, k', t');
      if CostRow(W, k', t') == CostRow(W, k, t) {
        CostRowInjective(W, k, t, k', t');
      } else if k' == k {
        assert t' != t;
      }
    }
    forall i | 0 <= i < nAgents
      ensures r.constraints[WeightRow(K, W, i)] == m.constraints[WeightRow(K, W, i)]
    {
    }
    assert RowKinds(r, l, nAgents, K, W);
    assert ColumnShapes(r, nAgents, K, W, vars, coeffs);
    assert CostEntries(r, nAgents, K, W, vars, coeffs);
    assert WeightEntries(r, nAgents, K, W, vars, coeffs);
  }

  /** Backward induction chooses a feasible action everywhere. */
  lemma OptFeasible(M: Tables)
    requires WellFormed(M)
    ensures forall t, s :: 0 <= t < M.T && 0 <= s < M.S ==> Opt(M, t, s).action in Feasible(M, t, s)
  {
    forall t, s | 0 <= t < M.T && 0 <= s < M.S
      ensures Opt(M, t, s).action in Feasible(M, t, s)
    {
      OptUnfold(M, t, s);
    }
  }

  /** The policy of backward induction: the optimal action at every time and state. */
  ghost function OptimalPolicy(M: Tables): (pol: seq<seq<int>>)
    requires WellFormed(M)
    ensures PolicyFeasible(M, pol)
    ensures forall t, s :: 0 <= t < M.T && 0 <= s < M.S ==> pol[t][s] == Opt(M, t, s).action
  {
    OptFeasible(M);
    seq(M.T, t requires 0 <= t < M.T => seq(M.S, s requires 0 <= s < M.S => Opt(M, t, s).action))
  }

  /** What value iteration returns for M: the optimal policy with its expected reward and costs. */
  ghost function Response(M: Tables): (sol: MDPPolicyDeterministic)
    requires WellFormed(M)
    ensures |sol.expectedTotalCost| == M.NC() && |sol.expectedInstantaneousCost| == M.NC()
    ensures forall k :: 0 <= k < M.NC() ==> |sol.expectedInstantaneousCost[k]| == M.T
  {
    var pol := OptimalPolicy(M);
    var F := ForwardOf(M, pol);
    MDPPolicyDeterministic(pol, Opt(M, 0, M.init).reward,
      seq(M.NC(), k requires 0 <= k < M.NC() => Column(F.cols, k)), F.totals)
  }

  /** solve has one possible answer: whatever meets its contract is Response. */
  lemma SolvedByIsResponse(M: Tables, sol: MDPPolicyDeterministic)
    requires WellFormed(M) && SolvedBy(M, sol)
    ensures sol == Response(M)
  {
    var pol := OptimalPolicy(M);
    forall t | 0 <= t < M.T
      ensures sol.pi[t] == pol[t]
    {
      assert |sol.pi[t]| == |pol[t]| == M.S;
    }
    assert sol.pi == pol;
    var F := ForwardOf(M, pol);
    assert sol.expectedInstantaneousCost == seq(M.NC(), k requires 0 <= k < M.NC() => Column(F.cols, k));
  }

  /** Response meets the contract of solve. */
  lemma ResponseSolves(M: Tables)
    requires WellFormed(M)
    ensures SolvedBy(M, Response(M))
  {
  }

  /** sol is what value iteration returns for model m over T decisions under the multipliers l. */
  ghost predicate Responds(m: CMDP, T: nat, l: Lambda, sol: MDPPolicyDeterministic)
    reads m.base
  {
    Solvable(Problem(m, T, l)) && sol == Response(TablesOf(Problem(m, T, l)))
  }

  /** sols[i] is what value iteration returns for agent i's model under the multipliers l, for every agent. */
  ghost predicate AllRespond(cmdps: seq<CMDP>, T: nat, l: Lambda, sols: seq<MDPPolicyDeterministic>)
    reads set i | 0 <= i < |cmdps| :: cmdps[i].base
  {
    |sols| == |cmdps| &&
    forall i {:trigger Responds(cmdps[i], T, l, sols[i])} :: 0 <= i < |cmdps| ==> Responds(cmdps[i], T, l, sols[i])
  }

  /** sols[i] is the Response of agent i under the multipliers l, for the first |sols| agents. */
  ghost predicate RespondUpTo(cmdps: seq<CMDP>, T: nat, l: Lambda, sols: seq<MDPPolicyDeterministic>)
    reads set i | 0 <= i < |cmdps| :: cmdps[i].base
  {
    |sols| <= |cmdps| &&
    forall i {:trigger Responds(cmdps[i], T, l, sols[i])} :: 0 <= i < |sols| ==> Responds(cmdps[i], T, l, sols[i])
  }

  /** One more agent's Response. */
  lemma RespondsNext(cmdps: seq<CMDP>, T: nat, l: Lambda, sols: seq<MDPPolicyDeterministic>, s: MDPPolicyDeterministic)
    requires RespondUpTo(cmdps, T, l, sols) && |sols| < |cmdps| && Responds(cmdps[|sols|], T, l, s)
    ensures RespondUpTo(cmdps, T, l, sols + [s])
    ensures |sols| + 1 == |cmdps| ==> AllRespond(cmdps, T, l, sols + [s])
  {
    forall i | 0 <= i < |sols| + 1
      ensures Responds(cmdps[i], T, l, (sols + [s])[i])
    {
      if i < |sols| {
        assert (sols + [s])[i] == sols[i];
      }
    }
  }

  /** vi.solve with lambdaBudget under budget constraints, with lambdaInstantaneous otherwise. */
  method BestResponse(m: CMDP, T: nat, K: nat, budget: bool, lambdaBudget: seq<real>, lambdaInstantaneous: seq<seq<real>>)
    returns (sol: MDPPolicyDeterministic)
    requires Solvable(Problem(m, T, LambdaOf(budget, lambdaBudget, lambdaInstantaneous)))
    requires LambdaOf(budget, lambdaBudget, lambdaInstantaneous).Count() == K
    ensures Responds(m, T, LambdaOf(budget, lambdaBudget, lambdaInstantaneous), sol)
    ensures CostsCover(sol, K, T)
  {
    if budget {
      sol := SolveBudget(m, T, lambdaBudget);
    } else {
      sol := SolveInstantaneous(m, T, lambdaInstantaneous);
    }
    ghost var M := TablesOf(Problem(m, T, LambdaOf(budget, lambdaBudget, lambdaInstantaneous)));
    SolvedCostsCover(M, sol, K);
    SolvedByIsResponse(M, sol);
  }

  /** The multipliers l as a table over the capacity rows: l[k] alone in row k for budget constraints. */
  function LambdaTable(l: Lambda, K: nat): (r: seq<seq<real>>)
    requires l.Budget? ==> K <= |l.perResource|
    ensures l.Budget? ==> |r| == K && forall k :: 0 <= k < K ==> r[k] == [l.perResource[k]]
    ensures l.Instantaneous? ==> r == l.perResourceTime
  {
    match l
    case Budget(b) => MultiplierTable(true, b, [], K)
    case Instantaneous(t) => t
  }

  /** A K x W table. */
  predicate TableShape(table: seq<seq<real>>, K: nat, W: nat) {
    |table| == K && forall k :: 0 <= k < K ==> |table[k]| == W
  }

  /** Multipliers of the constraint kind, one per capacity row, whose table is table. */
  predicate Priced(l: Lambda, budget: bool, K: nat, W: nat, table: seq<seq<real>>) {
    (l.Budget? <==> budget) && (l.Budget? ==> |l.perResource| == K && W == 1) &&
    TableShape(table, K, W) && LambdaTable(l, K) == table
  }

  /** A table prices one multiplier vector only. */
  lemma PricedUnique(l1: Lambda, l2: Lambda, budget: bool, K: nat, W: nat, table: seq<seq<real>>)
    requires Priced(l1, budget, K, W, table) && Priced(l2, budget, K, W, table)
    ensures l1 == l2
  {
    if budget {
      var x, y := l1.perResource, l2.perResource;
      forall k | 0 <= k < K
        ensures x[k] == y[k]
      {
        assert [x[k]] == table[k] == [y[k]];
      }
      assert x == y;
    }
  }

  /** Agent i's column in each round, in round order. */
  function AgentColumns(responses: seq<seq<MDPPolicyDeterministic>>, i: nat): (r: seq<MDPPolicyDeterministic>)
    requires forall n :: 0 <= n < |responses| ==> i < |responses[n]|
    ensures |r| == |responses| && forall n :: 0 <= n < |responses| ==> r[n] == responses[n][i]
  {
    seq(|responses|, n requires 0 <= n < |responses| => responses[n][i])
  }

  lemma AgentColumnsNext(responses: seq<seq<MDPPolicyDeterministic>>, sols: seq<MDPPolicyDeterministic>, m: nat)
    requires |sols| == m && forall n :: 0 <= n < |responses| ==> |responses[n]| == m
    ensures forall i :: 0 <= i < m ==> AgentColumns(responses + [sols], i) == AgentColumns(responses, i) + [sols[i]]
  {
    forall i | 0 <= i < m
      ensures AgentColumns(responses + [sols], i) == AgentColumns(responses, i) + [sols[i]]
    {
      assert forall n :: 0 <= n < |responses| ==> (responses + [sols])[n] == responses[n];
    }
  }

  /**
   * The rounds of solve so far: round n starts from the multipliers
   * lambdas[n], whose table is tables[n]; every agent's new column is its
   * Response to them; the master's answer gives the next table, the duals
   * of the capacity rows; and diffs[n] is the distance between the two.
   */
  ghost predicate Rounded(cmdps: seq<CMDP>, T: nat, K: nat, W: nat, budget: bool, lambdas: seq<Lambda>,
                          tables: seq<seq<seq<real>>>, answers: seq<LPSolution>, diffs: seq<real>,
                          responses: seq<seq<MDPPolicyDeterministic>>)
    reads set i | 0 <= i < |cmdps| :: cmdps[i].base
  {
    |tables| == |answers| + 1 && |diffs| == |answers| && |lambdas| == |answers| && |responses| == |answers| &&
    TableShape(tables[0], K, W) &&
    (forall n :: 0 <= n < |answers| ==>
      K * W <= |answers[n].duals| && tables[n + 1] == DualTable(answers[n].duals, K, W) &&
      Priced(lambdas[n], budget, K, W, tables[n]) && diffs[n] == TableDistance(tables[n], tables[n + 1], W, K)) &&
    forall n :: 0 <= n < |answers| ==> AllRespond(cmdps, T, lambdas[n], responses[n])
  }

  /** No rounds yet. */
  lemma RoundedStart(cmdps: seq<CMDP>, T: nat, K: nat, W: nat, budget: bool, table: seq<seq<real>>)
    requires TableShape(table, K, W)
    ensures Rounded(cmdps, T, K, W, budget, [], [table], [], [], [])
  {
  }

  /** One more round, from the multipliers l whose table is the last one. */
  lemma RoundedNext(cmdps: seq<CMDP>, T: nat, K: nat, W: nat, budget: bool, lambdas: seq<Lambda>,
                    tables: seq<seq<seq<real>>>, answers: seq<LPSolution>, diffs: seq<real>,
                    responses: seq<seq<MDPPolicyDeterministic>>,
                    l: Lambda, answer: LPSolution, diff: real, sols: seq<MDPPolicyDeterministic>)
    requires Rounded(cmdps, T, K, W, budget, lambdas, tables, answers, diffs, responses)
    requires Priced(l, budget, K, W, tables[|answers|])
    requires K * W <= |answer.duals| && diff == TableDistance(tables[|answers|], DualTable(answer.duals, K, W), W, K)
    requires AllRespond(cmdps, T, l, sols)
    ensures Rounded(cmdps, T, K, W, budget, lambdas + [l], tables + [DualTable(answer.duals, K, W)], answers + [answer],
                    diffs + [diff], responses + [sols])
  {
    var tables', answers' := tables + [DualTable(answer.duals, K, W)], answers + [answer];
    var lambdas', diffs', responses' := lambdas + [l], diffs + [diff], responses + [sols];
    forall n | 0 <= n < |answers'|
      ensures K * W <= |answers'[n].duals| && tables'[n + 1] == DualTable(answers'[n].duals, K, W)
      ensures Priced(lambdas'[n], budget, K, W, tables'[n]) && diffs'[n] == TableDistance(tables'[n], tables'[n + 1], W, K)
    {
      if n < |answers| {
        assert tables'[n] == tables[n] && tables'[n + 1] == tables[n + 1];
      }
    }
    forall n | 0 <= n < |answers'|
      ensures AllRespond(cmdps, T, lambdas'[n], responses'[n])
    {
      if n < |answers| {
        assert responses'[n] == responses[n] && lambdas'[n] == lambdas[n];
      }
    }
  }

  /**
   * The rounds so far are Rounded from the table table0, and their answers
   * are AnsweredBy lp on masters that start from the variables start; the
   * last table is table and the last master's variables are variables; and
   * every agent has one more column per round, its solutions being sols0[i]
   * followed by its Response of each round.
   */
  ghost predicate Recorded(cmdps: seq<CMDP>, T: nat, K: nat, W: nat, budget: bool, lp: LPModel -> LPSolution,
                           table0: seq<seq<real>>, vars0: seq<seq<nat>>, sols0: seq<seq<MDPPolicyDeterministic>>, start: seq<LPVariable>,
                           table: seq<seq<real>>, vars: seq<seq<nat>>, sols: seq<seq<MDPPolicyDeterministic>>, variables: seq<LPVariable>,
                           lambdas: seq<Lambda>, tables: seq<seq<seq<real>>>, answers: seq<LPSolution>, diffs: seq<real>,
                           responses: seq<seq<MDPPolicyDeterministic>>, masters: seq<LPModel>)
    reads set i | 0 <= i < |cmdps| :: cmdps[i].base
  {
    Rounded(cmdps, T, K, W, budget, lambdas, tables, answers, diffs, responses) &&
    AnsweredBy(lp, masters, answers, start, |cmdps|) && LastVariables(masters, start) == variables &&
    tables[0] == table0 && tables[|answers|] == table &&
    |vars0| == |cmdps| && |vars| == |cmdps| && |sols0| == |cmdps| && |sols| == |cmdps| &&
    forall i {:trigger AgentColumns(responses, i)} :: 0 <= i < |cmdps| ==>
      |vars[i]| == |vars0[i]| + |answers| && sols[i] == sols0[i] + AgentColumns(responses, i)
  }

  /** A round from the current multipliers l: every agent's Response news[i] joins its solutions, and the duals of answer are the next table. */
  lemma RecordedNext(cmdps: seq<CMDP>, T: nat, K: nat, W: nat, budget: bool, lp: LPModel -> LPSolution,
                     table0: seq<seq<real>>, vars0: seq<seq<nat>>, sols0: seq<seq<MDPPolicyDeterministic>>, start: seq<LPVariable>,
                     l: Lambda, table: seq<seq<real>>, vars: seq<seq<nat>>, sols: seq<seq<MDPPolicyDeterministic>>, variables: seq<LPVariable>,
                     lambdas: seq<Lambda>, tables: seq<seq<seq<real>>>, answers: seq<LPSolution>, diffs: seq<real>,
                     responses: seq<seq<MDPPolicyDeterministic>>, masters: seq<LPModel>,
                     m: LPModel, diff: real, news: seq<MDPPolicyDeterministic>,
                     table': seq<seq<real>>, vars': seq<seq<nat>>, sols': seq<seq<MDPPolicyDeterministic>>)
    requires Recorded(cmdps, T, K, W, budget, lp, table0, vars0, sols0, start, table, vars, sols, variables,
                      lambdas, tables, answers, diffs, responses, masters)
    requires Priced(l, budget, K, W, table) && AllRespond(cmdps, T, l, news)
    requires Answers(m, lp(m)) && variables <= m.variables && |m.variables| == |variables| + |cmdps|
    requires K * W <= |lp(m).duals| && table' == DualTable(lp(m).duals, K, W) && diff == TableDistance(table, table', W, K)
    requires |vars'| == |cmdps| && |sols'| == |cmdps|
    requires forall i :: 0 <= i < |cmdps| ==> |vars'[i]| == |vars[i]| + 1 && sols'[i] == sols[i] + [news[i]]
    ensures Recorded(cmdps, T, K, W, budget, lp, table0, vars0, sols0, start, table', vars', sols', m.variables,
                     lambdas + [l], tables + [table'], answers + [lp(m)], diffs + [diff], responses + [news], masters + [m])
  {
    var answer := lp(m);
    AnsweredNext(lp, masters, answers, start, |cmdps|, m);
    RoundedNext(cmdps, T, K, W, budget, lambdas, tables, answers, diffs, responses, l, answer, diff, news);
    AgentColumnsNext(responses, news, |cmdps|);
    forall i | 0 <= i < |cmdps|
      ensures sols'[i] == sols0[i] + AgentColumns(responses + [news], i)
    {
      assert sols[i] == sols0[i] + AgentColumns(responses, i);
    }
    assert (tables + [table'])[0] == table0;
  }

  /**
   * A round whose multipliers did not move is repeated: the next round
   * starts from the same multipliers, and every agent's new column is the
   * same solution again.
   */
  lemma {:induction false} StillRoundRepeats(cmdps: seq<CMDP>, T: nat, K: nat, W: nat, budget: bool, lambdas: seq<Lambda>,
                                             tables: seq<seq<seq<real>>>, answers: seq<LPSolution>, diffs: seq<real>,
                                             responses: seq<seq<MDPPolicyDeterministic>>, n: nat)
    requires Rounded(cmdps, T, K, W, budget, lambdas, tables, answers, diffs, responses)
    requires n + 1 < |answers| && diffs[n] == 0.0
    ensures lambdas[n + 1] == lambdas[n] && responses[n + 1] == responses[n]
  {
    var a, b := tables[n], tables[n + 1];
    assert Priced(lambdas[n], budget, K, W, a) && Priced(lambdas[n + 1], budget, K, W, b);
    TableDistanceZero(a, b, W, K);
    assert a == b by {
      forall k | 0 <= k < K
        ensures a[k] == b[k]
      {
      }
    }
    PricedUnique(lambdas[n], lambdas[n + 1], budget, K, W, a);
    assert AllRespond(cmdps, T, lambdas[n], responses[n]) && AllRespond(cmdps, T, lambdas[n + 1], responses[n + 1]);
    forall i | 0 <= i < |cmdps|
      ensures responses[n + 1][i] == responses[n][i]
    {
      assert Responds(cmdps[i], T, lambdas[n], responses[n][i]) && Responds(cmdps[i], T, lambdas[n + 1], responses[n + 1][i]);
    }
  }

  /**
   * Where the rounds' answers come from: round n's answer is lp's answer on
   * masters[n], the master holding the columns of rounds 0 .. n. The
   * variables of start and of every master are a prefix of those of the
   * last master, and each round adds nAgents of them.
   */
  ghost predicate AnsweredBy(lp: LPModel -> LPSolution, masters: seq<LPModel>, answers: seq<LPSolution>,
                             start: seq<LPVariable>, nAgents: nat)
  {
    |masters| == |answers| &&
    (forall n :: 0 <= n < |answers| ==> answers[n] == lp(masters[n]) && Answers(masters[n], answers[n])) &&
    (forall n :: 0 <= n < |masters| ==> |masters[n].variables| == |start| + (n + 1) * nAgents) &&
    start <= LastVariables(masters, start) &&
    (forall n :: 0 <= n < |masters| ==> masters[n].variables <= LastVariables(masters, start))
  }

  /** The variables of the master after the rounds so far. */
  function LastVariables(masters: seq<LPModel>, start: seq<LPVariable>): seq<LPVariable> {
    if |masters| == 0 then start else masters[|masters| - 1].variables
  }

  lemma PrefixTrans<X>(a: seq<X>, b: seq<X>, c: seq<X>)
    requires a <= b && b <= c
    ensures a <= c
  {
    assert a == b[..|a|] && b == c[..|b|];
  }

  /** A round whose master extends the last one by nAgents columns, answered by lp. */
  lemma AnsweredNext(lp: LPModel -> LPSolution, masters: seq<LPModel>, answers: seq<LPSolution>,
                     start: seq<LPVariable>, nAgents: nat, m: LPModel)
    requires AnsweredBy(lp, masters, answers, start, nAgents) && Answers(m, lp(m))
    requires LastVariables(masters, start) <= m.variables
    requires |m.variables| == |LastVariables(masters, start)| + nAgents
    ensures AnsweredBy(lp, masters + [m], answers + [lp(m)], start, nAgents)
    ensures LastVariables(masters + [m], start) == m.variables
  {
    var masters', answers' := masters + [m], answers + [lp(m)];
    forall n | 0 <= n < |answers'|
      ensures answers'[n] == lp(masters'[n]) && Answers(masters'[n], answers'[n])
    {
      if n < |answers| {
        assert answers'[n] == answers[n] && masters'[n] == masters[n];
      }
    }
    forall n | 0 <= n < |masters'|
      ensures |masters'[n].variables| == |start| + (n + 1) * nAgents
    {
      if n < |masters| {
        assert masters'[n] == masters[n];
      }
    }
    forall n | 0 <= n < |masters'|
      ensures masters'[n].variables <= m.variables
    {
      if n < |masters| {
        assert masters'[n] == masters[n];
        PrefixTrans(masters[n].variables, LastVariables(masters, start), m.variables);
      }
    }
    PrefixTrans(start, LastVariables(masters, start), m.variables);
  }

  /**
   * The rounds before round rounds went on: each one's lambdaDiff was at
   * least the tolerance and its time within the limit; the time passes the
   * limit at round n0, which is not before.
   */
  ghost predicate WentOn(diffs: seq<real>, elapsed: nat -> real, tolerance: real, limit: real, rounds: nat, n0: nat)
  {
    rounds <= n0 && |diffs| == rounds && elapsed(n0) > limit &&
    forall n :: 0 <= n < rounds ==> tolerance <= diffs[n] && elapsed(n) <= limit
  }

  /** A round that goes on. */
  lemma WentOnNext(diffs: seq<real>, elapsed: nat -> real, tolerance: real, limit: real, rounds: nat, n0: nat, d: real)
    requires WentOn(diffs, elapsed, tolerance, limit, rounds, n0)
    requires tolerance <= d && elapsed(rounds) <= limit
    ensures WentOn(diffs + [d], elapsed, tolerance, limit, rounds + 1, n0)
  {
    assert forall n :: 0 <= n < rounds ==> (diffs + [d])[n] == diffs[n];
  }

  /** A round that stops: the rounds before it went on, and it does not. */
  lemma WentOnStop(diffs: seq<real>, elapsed: nat -> real, tolerance: real, limit: real, rounds: nat, n0: nat, d: real)
    requires WentOn(diffs, elapsed, tolerance, limit, rounds, n0)
    requires d < tolerance || elapsed(rounds) > limit
    ensures forall n :: 0 <= n < rounds ==> tolerance <= (diffs + [d])[n] && elapsed(n) <= limit
    ensures (diffs + [d])[rounds] < tolerance || elapsed(rounds) > limit
  {
    assert forall n :: 0 <= n < rounds ==> (diffs + [d])[n] == diffs[n];
  }

  /**
   * Column j of agent i stands for the solution sols[i][j]: its coefficients
   * in the capacity rows are that solution's costs and its objective
   * coefficient is that solution's expected reward.
   */
  ghost predicate Links(m: LPModel, nAgents: nat, K: nat, T: nat, budget: bool,
                        vars: seq<seq<nat>>, sols: seq<seq<MDPPolicyDeterministic>>, coeffs: seq<seq<seq<seq<real>>>>)
    requires ColumnShapes(m, nAgents, K, Width(budget, T), vars, coeffs)
  {
    |sols| == nAgents &&
    (forall i :: 0 <= i < nAgents ==> |sols[i]| == |vars[i]| && AllCostsCover(sols[i], K, T)) &&
    (forall i, j :: 0 <= i < nAgents && 0 <= j < |vars[i]| ==>
      CostsCover(sols[i][j], K, T) &&
      coeffs[i][j] == ColumnCost(sols[i][j], budget, K, T) &&
      m.variables[vars[i][j]].obj == sols[i][j].expectedReward)
  }

  /** The master before any column: every agent has no variables, solutions or coefficients. */
  lemma NoColumns(m: LPModel, nAgents: nat, K: nat, T: nat, budget: bool,
                  vars: seq<seq<nat>>, sols: seq<seq<MDPPolicyDeterministic>>, coeffs: seq<seq<seq<seq<real>>>>)
    requires m.Valid() && |m.constraints| == K * Width(budget, T) + nAgents
    requires |vars| == nAgents && |sols| == nAgents && |coeffs| == nAgents
    requires forall i :: 0 <= i < nAgents ==> vars[i] == [] && sols[i] == [] && coeffs[i] == []
    ensures Columns(m, nAgents, K, Width(budget, T), vars, coeffs)
    ensures Links(m, nAgents, K, T, budget, vars, sols, coeffs)
  {
  }

  /** A new column for agent i that stands for the solution s keeps the links of the others. */
  lemma AddSolutionKeepsLinks(m: LPModel, nAgents: nat, K: nat, T: nat, budget: bool,
                              vars: seq<seq<nat>>, sols: seq<seq<MDPPolicyDeterministic>>, coeffs: seq<seq<seq<seq<real>>>>,
                              i: nat, s: MDPPolicyDeterministic, col: seq<real>)
    requires ColumnShapes(m, nAgents, K, Width(budget, T), vars, coeffs) && Links(m, nAgents, K, T, budget, vars, sols, coeffs)
    requires i < nAgents && CostsCover(s, K, T) && |col| == |m.constraints|
    requires ColumnShapes(AddColumn(m, 0.0, 1.0, s.expectedReward, col), nAgents, K, Width(budget, T),
                          vars[i := vars[i] + [|m.variables|]], coeffs[i := coeffs[i] + [ColumnCost(s, budget, K, T)]])
    ensures Links(AddColumn(m, 0.0, 1.0, s.expectedReward, col), nAgents, K, T, budget,
                  vars[i := vars[i] + [|m.variables|]], sols[i := sols[i] + [s]], coeffs[i := coeffs[i] + [ColumnCost(s, budget, K, T)]])
  {
    var m' := AddColumn(m, 0.0, 1.0, s.expectedReward, col);
    var vars' := vars[i := vars[i] + [|m.variables|]];
    var sols' := sols[i := sols[i] + [s]];
    var coeffs' := coeffs[i := coeffs[i] + [ColumnCost(s, budget, K, T)]];
    forall i' | 0 <= i' < nAgents
      ensures |sols'[i']| == |vars'[i']| && AllCostsCover(sols'[i'], K, T)
    {
      if i' == i {
        forall j | 0 <= j < |sols'[i]|
          ensures CostsCover(sols'[i][j], K, T)
        {
          if j < |sols[i]| {
            assert sols'[i][j] == sols[i][j];
          }
        }
      }
    }
    forall i', j | 0 <= i' < nAgents && 0 <= j < |vars'[i']|
      ensures CostsCover(sols'[i'][j], K, T) && coeffs'[i'][j] == ColumnCost(sols'[i'][j], budget, K, T)
      ensures m'.variables[vars'[i'][j]].obj == sols'[i'][j].expectedReward
    {
      if i' != i || j < |vars[i]| {
        assert vars'[i'][j] == vars[i'][j] < |m.variables|;
        assert sols'[i'][j] == sols[i'][j] && coeffs'[i'][j] == coeffs[i'][j];
        assert m'.variables[vars'[i'][j]] == m.variables[vars[i'][j]];
      }
    }
  }

  class ColGen {
    const instance: CMDPInstance
    const cmdps: seq<CMDP>
    const numAgents: nat
    const numDomainResources: nat
    const numDecisions: nat
    const useBudgetConstraints: bool
    const lambdaTolerance: real
    const timelimit: real

    var model: LPModel
    var lambdaInstantaneous: seq<seq<real>>
    var lambdaBudget: seq<real>
    /** Per agent: the LP variables of its columns and the solutions they stand for. */
    var vars: seq<seq<nat>>
    var mdpSolutions: seq<seq<MDPPolicyDeterministic>>
    var costConstraints: seq<seq<nat>>
    var probabilityConstraints: seq<nat>
    /** The right-hand sides of the capacity rows, and each column's coefficients in them. */
    ghost var limits: seq<seq<real>>
    ghost var coefficients: seq<seq<seq<seq<real>>>>

    /** Capacity rows per resource. */
    function W(): nat {
      Width(useBudgetConstraints, numDecisions)
    }

    ghost predicate Valid()
      reads this
    {
      |cmdps| == numAgents &&
      Layout(model, limits, numAgents, numDomainResources, W(), costConstraints, probabilityConstraints) &&
      Columns(model, numAgents, numDomainResources, W(), vars, coefficients) &&
      Links(model, numAgents, numDomainResources, numDecisions, useBudgetConstraints, vars, mdpSolutions, coefficients) &&
      MultiplierShapes()
    }

    /** One multiplier per capacity row (and lambdaBudget of length K with instantaneous constraints too). */
    predicate MultiplierShapes()
      reads this
    {
      |lambdaBudget| == numDomainResources && |lambdaInstantaneous| == numDomainResources &&
      (forall k :: 0 <= k < numDomainResources ==> |lambdaInstantaneous[k]| == W())
    }

    /** The multipliers of the next round. */
    function CurrentLambda(): Lambda
      reads this
    {
      LambdaOf(useBudgetConstraints, lambdaBudget, lambdaInstantaneous)
    }

    /** The multipliers as a table over the capacity rows. */
    function CurrentTable(): seq<seq<real>>
      reads this
      requires useBudgetConstraints ==> numDomainResources <= |lambdaBudget|
    {
      MultiplierTable(useBudgetConstraints, lambdaBudget, lambdaInstantaneous, numDomainResources)
    }

    /** The current multipliers are of the constraint kind and their table is the current table. */
    lemma CurrentPriced()
      requires MultiplierShapes()
      ensures Priced(CurrentLambda(), useBudgetConstraints, numDomainResources, W(), CurrentTable())
    {
    }

    /** The multipliers in the shape of this instance, every entry 0. */
    function ZeroLambda(): (l: Lambda)
      ensures l.Count() == numDomainResources && (l.Instantaneous? <==> !useBudgetConstraints) && l.Spans(numDecisions)
    {
      LambdaOf(useBudgetConstraints, Zeros(numDomainResources), Filled(numDomainResources, numDecisions, 0.0))
    }

    /**
     * Every agent's value iteration can run for the horizon; with the
     * multipliers in the instance's shape, it then runs whatever their values
     * (SolvableUnderLambda).
     */
    ghost predicate AgentsSolvable()
      reads set i | 0 <= i < |cmdps| :: cmdps[i].base
    {
      forall i {:trigger Solvable(Problem(cmdps[i], numDecisions, ZeroLambda()))} :: 0 <= i < |cmdps| ==>
        Solvable(Problem(cmdps[i], numDecisions, ZeroLambda()))
    }

    /**
     * setInstance and initializeModel: no columns yet, the multipliers at
     * Double.MAX_VALUE, and lambdaBudget 0 for instantaneous constraints.
     */
    constructor(instance: CMDPInstance, infinite: real, lambdaTolerance: real, timelimit: real)
      requires LimitsCover(instance)
      ensures Valid()
      ensures this.instance == instance && cmdps == instance.cmdps && numAgents == |instance.cmdps|
      ensures numDomainResources == instance.numDomainResources && numDecisions == instance.numDecisions
      ensures useBudgetConstraints <==> instance.constraintType == ConstraintType.Budget
      ensures this.lambdaTolerance == lambdaTolerance && this.timelimit == timelimit
      ensures model.variables == [] && model.infinite == infinite && limits == LimitTable(instance)
      ensures forall i :: 0 <= i < numAgents ==> vars[i] == [] && mdpSolutions[i] == []
      ensures lambdaInstantaneous == Filled(numDomainResources, W(), MaxDouble)
      ensures lambdaBudget == if useBudgetConstraints then seq(numDomainResources, k => MaxDouble) else Zeros(numDomainResources)
    {
      this.instance := instance;
      cmdps := instance.cmdps;
      numAgents := |instance.cmdps|;
      numDomainResources := instance.numDomainResources;
      numDecisions := instance.numDecisions;
      useBudgetConstraints := instance.constraintType == ConstraintType.Budget;
      this.lambdaTolerance := lambdaTolerance;
      this.timelimit := timelimit;
      new;
      var K, W := numDomainResources, Width(useBudgetConstraints, numDecisions);
      var table := LimitTable(instance);
      limits := table;
      model, costConstraints, probabilityConstraints := InitialRows(infinite, table, K, W, numAgents);
      lambdaInstantaneous := Filled(K, W, MaxDouble);
      lambdaBudget := if useBudgetConstraints then seq(K, k => MaxDouble) else Zeros(K);
      vars := seq(numAgents, i => []);
      mdpSolutions := seq(numAgents, i => []);
      coefficients := seq(numAgents, i => []);
      NoColumns(model, numAgents, K, numDecisions, useBudgetConstraints, vars, mdpSolutions, coefficients);
    }

    /** vi.solve for agent i under the current multipliers. */
    method Respond(i: nat) returns (sol: MDPPolicyDeterministic)
      requires i < |cmdps| && MultiplierShapes() && AgentsSolvable()
      ensures Responds(cmdps[i], numDecisions, CurrentLambda(), sol)
      ensures CostsCover(sol, numDomainResources, numDecisions)
    {
      assert Solvable(Problem(cmdps[i], numDecisions, ZeroLambda()));
      SolvableUnderLambda(cmdps[i], numDecisions, ZeroLambda(), CurrentLambda());
      sol := BestResponse(cmdps[i], numDecisions, numDomainResources, useBudgetConstraints, lambdaBudget, lambdaInstantaneous);
    }

    /** The next agent's vi.solve under the current multipliers, after those of the agents before it. */
    method AppendResponse(sols: seq<MDPPolicyDeterministic>) returns (sols': seq<MDPPolicyDeterministic>)
      requires |cmdps| == numAgents && MultiplierShapes() && AgentsSolvable()
      requires |sols| < numAgents && AllCostsCover(sols, numDomainResources, numDecisions)
      requires RespondUpTo(cmdps, numDecisions, CurrentLambda(), sols)
      ensures |sols'| == |sols| + 1 && AllCostsCover(sols', numDomainResources, numDecisions)
      ensures RespondUpTo(cmdps, numDecisions, CurrentLambda(), sols')
      ensures |sols'| == numAgents ==> AllRespond(cmdps, numDecisions, CurrentLambda(), sols')
    {
      var s := Respond(|sols|);
      AllCostsCoverSnoc(sols, s, numDomainResources, numDecisions);
      RespondsNext(cmdps, numDecisions, CurrentLambda(), sols, s);
      sols' := sols + [s];
    }

    /** vi.solve for every agent under the current multipliers, in agent order. */
    method Responses() returns (sols: seq<MDPPolicyDeterministic>)
      requires |cmdps| == numAgents && MultiplierShapes() && AgentsSolvable()
      ensures |sols| == numAgents && AllCostsCover(sols, numDomainResources, numDecisions)
      ensures AllRespond(cmdps, numDecisions, CurrentLambda(), sols)
    {
      sols := [];
      var i := 0;
      while i < numAgents
        invariant 0 <= i <= numAgents && |sols| == i && AllCostsCover(sols, numDomainResources, numDecisions)
        invariant RespondUpTo(cmdps, numDecisions, CurrentLambda(), sols)
        invariant i == numAgents ==> AllRespond(cmdps, numDecisions, CurrentLambda(), sols)
      {
        sols := AppendResponse(sols);
        i := i + 1;
      }
    }

    /** addColumn(0, 1, reward) for column col of agent i, which stands for the solution s. */
    method AddSolutionColumn(i: nat, s: MDPPolicyDeterministic, col: seq<real>)
      requires Valid() && i < numAgents && CostsCover(s, numDomainResources, numDecisions)
      requires |col| == numDomainResources * W() + numAgents
      requires forall k, t :: 0 <= k < numDomainResources && 0 <= t < W() ==>
        CostRow(W(), k, t) < numDomainResources * W() &&
        col[CostRow(W(), k, t)] == ColumnCost(s, useBudgetConstraints, numDomainResources, numDecisions)[k][t]
      requires forall i' :: 0 <= i' < numAgents ==> col[WeightRow(numDomainResources, W(), i')] == if i' == i then 1.0 else 0.0
      modifies this
      ensures Valid()
      ensures model.variables == old(model.variables) + [LPVariable(0.0, 1.0, s.expectedReward)]
      ensures vars == old(vars)[i := old(vars[i]) + [old(|model.variables|)]]
      ensures mdpSolutions == old(mdpSolutions)[i := old(mdpSolutions[i]) + [s]]
      ensures lambdaBudget == old(lambdaBudget) && lambdaInstantaneous == old(lambdaInstantaneous) && limits == old(limits)
      ensures costConstraints == old(costConstraints) && probabilityConstraints == old(probabilityConstraints)
    {
      var K, T := numDomainResources, numDecisions;
      var cost := ColumnCost(s, useBudgetConstraints, K, T);
      var n := |model.variables|;
      AddColumnKeepsColumns(model, numAgents, K, W(), vars, coefficients, i, s.expectedReward, cost, col);
      AddColumnKeepsKinds(model, limits, numAgents, K, W(), s.expectedReward, col);
      AddSolutionKeepsLinks(model, numAgents, K, T, useBudgetConstraints, vars, mdpSolutions, coefficients, i, s, col);
      model := AddColumn(model, 0.0, 1.0, s.expectedReward, col);
      vars := vars[i := vars[i] + [n]];
      mdpSolutions := mdpSolutions[i := mdpSolutions[i] + [s]];
      coefficients := coefficients[i := coefficients[i] + [cost]];
    }

    /** One new column per agent, in agent order: agent i's column stands for sols[i]. */
    method AddColumnsFor(sols: seq<MDPPolicyDeterministic>)
      requires Valid() && |sols| == numAgents && AllCostsCover(sols, numDomainResources, numDecisions)
      modifies this
      ensures Valid()
      ensures forall i :: 0 <= i < numAgents ==>
        vars[i] == old(vars[i]) + [old(|model.variables|) + i] && mdpSolutions[i] == old(mdpSolutions[i]) + [sols[i]]
      ensures old(model.variables) <= model.variables && |model.variables| == old(|model.variables|) + numAgents
      ensures lambdaBudget == old(lambdaBudget) && lambdaInstantaneous == old(lambdaInstantaneous)
      ensures costConstraints == old(costConstraints) && probabilityConstraints == old(probabilityConstraints)
    {
      ghost var n0, vars0, sols0, mv0 := |model.variables|, vars, mdpSolutions, model.variables;
      ghost var budget0, inst0, costs0, probs0 := lambdaBudget, lambdaInstantaneous, costConstraints, probabilityConstraints;
      var i := 0;
      while i < numAgents
        invariant 0 <= i <= numAgents
        invariant Valid() && mv0 <= model.variables && |model.variables| == n0 + i
        invariant forall i' :: 0 <= i' < i ==> vars[i'] == vars0[i'] + [n0 + i'] && mdpSolutions[i'] == sols0[i'] + [sols[i']]
        invariant forall i' :: i <= i' < numAgents ==> vars[i'] == vars0[i'] && mdpSolutions[i'] == sols0[i']
        invariant lambdaBudget == budget0 && lambdaInstantaneous == inst0
        invariant costConstraints == costs0 && probabilityConstraints == probs0
      {
        assert CostsCover(sols[i], numDomainResources, numDecisions);
        var cost := ColumnCost(sols[i], useBudgetConstraints, numDomainResources, numDecisions);
        var col := NewColumn(numAgents, numDomainResources, W(), i, cost);
        AddSolutionColumn(i, sols[i], col);
        i := i + 1;
      }
    }

    /**
     * The agent loop of solve: every agent's best response to the multipliers
     * becomes a new column, in agent order. Value iteration does not read
     * the master, so solving all agents first and then adding their columns
     * builds the same master as alternating the two.
     */
    method GenerateColumns() returns (sols: seq<MDPPolicyDeterministic>)
      requires Valid() && AgentsSolvable()
      modifies this
      ensures Valid()
      ensures |sols| == numAgents
      ensures AllRespond(cmdps, numDecisions, old(CurrentLambda()), sols)
      ensures forall i :: 0 <= i < numAgents ==>
        vars[i] == old(vars[i]) + [old(|model.variables|) + i] && mdpSolutions[i] == old(mdpSolutions[i]) + [sols[i]]
      ensures old(model.variables) <= model.variables && |model.variables| == old(|model.variables|) + numAgents
      ensures lambdaBudget == old(lambdaBudget) && lambdaInstantaneous == old(lambdaInstantaneous)
      ensures costConstraints == old(costConstraints) && probabilityConstraints == old(probabilityConstraints)
    {
      sols := Responses();
      AddColumnsFor(sols);
    }

    /**
     * The dual loop of solve: the new multipliers are the dual prices of the
     * capacity rows (the other kind of multiplier starts again from 0), and
     * lambdaDiff is their distance from the current ones.
     */
    method DualUpdate(answer: LPSolution) returns (newLambdaInstantaneous: seq<seq<real>>, newLambdaBudget: seq<real>, lambdaDiff: real)
      requires Valid() && Answers(model, answer)
      ensures |newLambdaBudget| == numDomainResources && |newLambdaInstantaneous| == numDomainResources
      ensures forall k :: 0 <= k < numDomainResources ==> |newLambdaInstantaneous[k]| == W()
      ensures useBudgetConstraints ==> newLambdaInstantaneous == Filled(numDomainResources, 1, 0.0)
      ensures !useBudgetConstraints ==> newLambdaBudget == Zeros(numDomainResources)
      ensures MultiplierTable(useBudgetConstraints, newLambdaBudget, newLambdaInstantaneous, numDomainResources) ==
        DualTable(answer.duals, numDomainResources, W())
      ensures lambdaDiff == DualDistance(CurrentTable(), answer.duals, W(), numDomainResources)
    {
      var K, T := numDomainResources, numDecisions;
      assert CapacityIds(costConstraints, K, W());
      if useBudgetConstraints {
        newLambdaInstantaneous := Filled(K, 1, 0.0);
        newLambdaBudget, lambdaDiff := BudgetDuals(answer.duals, costConstraints, lambdaBudget, K);
        TableFromEntries(MultiplierTable(true, newLambdaBudget, newLambdaInstantaneous, K), answer.duals, K, 1);
      } else {
        newLambdaInstantaneous, lambdaDiff := InstantaneousDuals(answer.duals, costConstraints, lambdaInstantaneous, K, T);
        newLambdaBudget := Zeros(K);
        TableFromEntries(newLambdaInstantaneous, answer.duals, K, T);
      }
    }

    /** The weight the last solve gave to each column of agent i. */
    function AgentValues(answer: LPSolution, i: nat): (values: seq<real>)
      reads this
      requires Valid() && Answers(model, answer) && i < numAgents
      ensures |values| == |vars[i]|
    {
      var vs := vars[i];
      seq(|vs|, j requires 0 <= j < |vs| => answer.values[vs[j]])
    }

    /** extractSolution: one mixture per agent, whose instantaneous costs are those of the last kept column, as the overwrite leaves them. */
    method ExtractSolution(answer: LPSolution) returns (solution: seq<MDPAgentSolution>)
      requires Valid() && Answers(model, answer)
      ensures |solution| == numAgents
      ensures forall i :: 0 <= i < numAgents ==>
        solution[i].Mixture? &&
        MixtureOf(solution[i].mixture, AgentValues(answer, i), mdpSolutions[i], numDomainResources, numDecisions)
    {
      solution := [];
      var i := 0;
      while i < numAgents
        invariant 0 <= i <= numAgents && |solution| == i
        invariant forall i' :: 0 <= i' < i ==>
          solution[i'].Mixture? &&
          MixtureOf(solution[i'].mixture, AgentValues(answer, i'), mdpSolutions[i'], numDomainResources, numDecisions)
      {
        var values: seq<real> := [];
        var j := 0;
        while j < |vars[i]|
          invariant 0 <= j <= |vars[i]| && |values| == j
          invariant forall j' :: 0 <= j' < j ==> values[j'] == answer.values[vars[i][j']]
        {
          values := values + [answer.values[vars[i][j]]];
          j := j + 1;
        }
        assert values == AgentValues(answer, i);
        var ps := ExtractAgent(values, mdpSolutions[i], numDomainResources, numDecisions);
        solution := solution + [Mixture(ps)];
        i := i + 1;
      }
    }

    /**
     * The end of a round of solve: the multipliers become the dual prices
     * of the capacity rows in answer; lambdaDiff is how far they moved.
     */
    method Reprice(answer: LPSolution) returns (lambdaDiff: real)
      requires Valid() && AgentsSolvable() && Answers(model, answer)
      modifies this
      ensures Valid()
      ensures model == old(model) && vars == old(vars) && mdpSolutions == old(mdpSolutions)
      ensures CurrentTable() == DualTable(answer.duals, numDomainResources, W())
      ensures lambdaDiff == TableDistance(old(CurrentTable()), CurrentTable(), W(), numDomainResources)
    {
      var newLambdaInstantaneous, newLambdaBudget;
      newLambdaInstantaneous, newLambdaBudget, lambdaDiff := DualUpdate(answer);
      DualDistanceIsTableDistance(CurrentTable(), answer.duals, numDomainResources, W(), numDomainResources);
      lambdaInstantaneous := newLambdaInstantaneous;
      lambdaBudget := newLambdaBudget;
    }

    /**
     * One round of solve: a new column per agent, its Response sols[i] to the
     * multipliers; a solve of the master by lp; and the multipliers replaced
     * by the dual prices of the capacity rows in lp's answer; lambdaDiff is
     * how far they moved.
     */
    method Round(lp: LPModel -> LPSolution) returns (answer: LPSolution, lambdaDiff: real, ghost sols: seq<MDPPolicyDeterministic>)
      requires Valid() && AgentsSolvable()
      requires forall m: LPModel :: m.Valid() ==> Answers(m, lp(m))
      modifies this
      ensures Valid()
      ensures |sols| == numAgents && AllRespond(cmdps, numDecisions, old(CurrentLambda()), sols)
      ensures forall i :: 0 <= i < numAgents ==>
        |vars[i]| == old(|vars[i]|) + 1 && mdpSolutions[i] == old(mdpSolutions[i]) + [sols[i]]
      ensures old(model.variables) <= model.variables && |model.variables| == old(|model.variables|) + numAgents
      ensures answer == lp(model) && Answers(model, answer)
      ensures numDomainResources * W() <= |answer.duals| && CurrentTable() == DualTable(answer.duals, numDomainResources, W())
      ensures lambdaDiff == TableDistance(old(CurrentTable()), CurrentTable(), W(), numDomainResources)
    {
      sols := GenerateColumns();
      answer := lp(model);
      lambdaDiff := Reprice(answer);
    }

    /** The rounds so far, up to the current multipliers, columns, solutions and master, are Recorded. */
    ghost predicate History(lp: LPModel -> LPSolution, table0: seq<seq<real>>, vars0: seq<seq<nat>>,
                            sols0: seq<seq<MDPPolicyDeterministic>>, start: seq<LPVariable>,
                            lambdas: seq<Lambda>, tables: seq<seq<seq<real>>>, answers: seq<LPSolution>, diffs: seq<real>,
                            responses: seq<seq<MDPPolicyDeterministic>>, masters: seq<LPModel>)
      reads this, set i | 0 <= i < |cmdps| :: cmdps[i].base
    {
      MultiplierShapes() && |cmdps| == numAgents && (|masters| > 0 ==> masters[|masters| - 1] == model) &&
      Recorded(cmdps, numDecisions, numDomainResources, W(), useBudgetConstraints, lp, table0, vars0, sols0, start,
               CurrentTable(), vars, mdpSolutions, model.variables, lambdas, tables, answers, diffs, responses, masters)
    }

    /** A valid master whose agents value iteration can solve, with the History of its rounds. */
    ghost predicate Running(lp: LPModel -> LPSolution, table0: seq<seq<real>>, vars0: seq<seq<nat>>,
                            sols0: seq<seq<MDPPolicyDeterministic>>, start: seq<LPVariable>,
                            lambdas: seq<Lambda>, tables: seq<seq<seq<real>>>, answers: seq<LPSolution>, diffs: seq<real>,
                            responses: seq<seq<MDPPolicyDeterministic>>, masters: seq<LPModel>)
      reads this, set i | 0 <= i < |cmdps| :: cmdps[i].base
    {
      Valid() && AgentsSolvable() && History(lp, table0, vars0, sols0, start, lambdas, tables, answers, diffs, responses, masters)
    }

    /** A round of solve, recorded in the history. */
    method NextRound(lp: LPModel -> LPSolution, ghost table0: seq<seq<real>>, ghost vars0: seq<seq<nat>>,
                     ghost sols0: seq<seq<MDPPolicyDeterministic>>, ghost lambdas: seq<Lambda>, ghost tables: seq<seq<seq<real>>>,
                     ghost answers: seq<LPSolution>, ghost diffs: seq<real>, ghost responses: seq<seq<MDPPolicyDeterministic>>,
                     ghost start: seq<LPVariable>, ghost masters: seq<LPModel>)
      returns (answer: LPSolution, lambdaDiff: real, ghost lambdas': seq<Lambda>, ghost tables': seq<seq<seq<real>>>,
               ghost answers': seq<LPSolution>, ghost diffs': seq<real>, ghost responses': seq<seq<MDPPolicyDeterministic>>,
               ghost masters': seq<LPModel>)
      requires forall m: LPModel :: m.Valid() ==> Answers(m, lp(m))
      requires Running(lp, table0, vars0, sols0, start, lambdas, tables, answers, diffs, responses, masters)
      modifies this
      ensures Running(lp, table0, vars0, sols0, start, lambdas', tables', answers', diffs', responses', masters')
      ensures answers' == answers + [answer] && diffs' == diffs + [lambdaDiff]
      ensures answer == lp(model) && Answers(model, answer)
    {
      ghost var l, table, vars1, sols1, variables := CurrentLambda(), CurrentTable(), vars, mdpSolutions, model.variables;
      CurrentPriced();
      ghost var news;
      answer, lambdaDiff, news := Round(lp);
      RecordedNext(cmdps, numDecisions, numDomainResources, W(), useBudgetConstraints, lp, table0, vars0, sols0, start,
                   l, table, vars1, sols1, variables, lambdas, tables, answers, diffs, responses, masters,
                   model, lambdaDiff, news, CurrentTable(), vars, mdpSolutions);
      lambdas', tables', answers', diffs', responses', masters' :=
        lambdas + [l], tables + [CurrentTable()], answers + [answer], diffs + [lambdaDiff], responses + [news], masters + [model];
      RunningAfter(lp, table0, vars0, sols0, start, lambdas', tables', answers', diffs', responses', masters');
    }

    /** A valid master whose agents can be solved, with its History recorded, is Running. */
    lemma RunningAfter(lp: LPModel -> LPSolution, table0: seq<seq<real>>, vars0: seq<seq<nat>>,
                       sols0: seq<seq<MDPPolicyDeterministic>>, start: seq<LPVariable>,
                       lambdas: seq<Lambda>, tables: seq<seq<seq<real>>>, answers: seq<LPSolution>, diffs: seq<real>,
                       responses: seq<seq<MDPPolicyDeterministic>>, masters: seq<LPModel>)
      requires Valid() && AgentsSolvable() && |masters| > 0 && masters[|masters| - 1] == model
      requires Recorded(cmdps, numDecisions, numDomainResources, W(), useBudgetConstraints, lp, table0, vars0, sols0, start,
                        CurrentTable(), vars, mdpSolutions, model.variables, lambdas, tables, answers, diffs, responses, masters)
      ensures Running(lp, table0, vars0, sols0, start, lambdas, tables, answers, diffs, responses, masters)
    {
    }

    /**
     * The rounds of solve: column generation until lambdaDiff drops below
     * the tolerance or the elapsed time passes the limit; lp answers each
     * solve of the master and elapsed(n) is the time at the end of round n.
     * The rounds are Rounded from the current multipliers: round n starts
     * from lambdas[n] (table tables[n]), adds every agent's Response
     * responses[n], and its answer answers[n] prices the next round; diffs[n]
     * is that round's lambdaDiff.
     */
    method Rounds(lp: LPModel -> LPSolution, elapsed: nat -> real)
      returns (answer: LPSolution, rounds: nat, ghost lambdas: seq<Lambda>, ghost tables: seq<seq<seq<real>>>,
               ghost answers: seq<LPSolution>, ghost diffs: seq<real>, ghost responses: seq<seq<MDPPolicyDeterministic>>,
               ghost masters: seq<LPModel>)
      requires Valid() && AgentsSolvable()
      requires forall m: LPModel :: m.Valid() ==> Answers(m, lp(m))
      requires exists n: nat :: elapsed(n) > timelimit
      modifies this
      ensures Valid() && AgentsSolvable()
      ensures Rounded(cmdps, numDecisions, numDomainResources, W(), useBudgetConstraints, lambdas, tables, answers, diffs, responses)
      ensures AnsweredBy(lp, masters, answers, old(model.variables), numAgents)
      ensures rounds >= 1 && |answers| == rounds && |diffs| == rounds && answer == answers[rounds - 1] && masters[rounds - 1] == model
      ensures lambdas[0] == old(CurrentLambda()) && tables[0] == old(CurrentTable()) && tables[rounds] == CurrentTable()
      ensures forall i :: 0 <= i < numAgents ==>
        |vars[i]| == old(|vars[i]|) + rounds && mdpSolutions[i] == old(mdpSolutions[i]) + AgentColumns(responses, i)
      ensures forall n :: 0 <= n < rounds - 1 ==> lambdaTolerance <= diffs[n] && elapsed(n) <= timelimit
      ensures diffs[rounds - 1] < lambdaTolerance || elapsed(rounds - 1) > timelimit
      ensures answer == lp(model) && Answers(model, answer)
    {
      ghost var lambda0, table0, vars0, sols0 := CurrentLambda(), CurrentTable(), vars, mdpSolutions;
      CurrentPriced();
      RoundedStart(cmdps, numDecisions, numDomainResources, W(), useBudgetConstraints, table0);
      answer, rounds, lambdas, tables, answers, diffs, responses, masters := RoundsFrom(lp, elapsed, table0, vars0, sols0, model.variables);
      PricedUnique(lambdas[0], lambda0, useBudgetConstraints, numDomainResources, W(), table0);
      forall i | 0 <= i < numAgents
        ensures |vars[i]| == |vars0[i]| + rounds && mdpSolutions[i] == sols0[i] + AgentColumns(responses, i)
      {
        assert mdpSolutions[i] == sols0[i] + AgentColumns(responses, i);
      }
    }

    /** The loop of Rounds, from the multiplier table table0, the columns vars0, the solutions sols0 and the variables start. */
    method RoundsFrom(lp: LPModel -> LPSolution, elapsed: nat -> real, ghost table0: seq<seq<real>>,
                      ghost vars0: seq<seq<nat>>, ghost sols0: seq<seq<MDPPolicyDeterministic>>, ghost start: seq<LPVariable>)
      returns (answer: LPSolution, rounds: nat, ghost lambdas: seq<Lambda>, ghost tables: seq<seq<seq<real>>>,
               ghost answers: seq<LPSolution>, ghost diffs: seq<real>, ghost responses: seq<seq<MDPPolicyDeterministic>>,
               ghost masters: seq<LPModel>)
      requires Running(lp, table0, vars0, sols0, start, [], [table0], [], [], [], [])
      requires forall m: LPModel :: m.Valid() ==> Answers(m, lp(m))
      requires exists n: nat :: elapsed(n) > timelimit
      modifies this
      ensures Running(lp, table0, vars0, sols0, start, lambdas, tables, answers, diffs, responses, masters)
      ensures rounds >= 1 && |answers| == rounds && |diffs| == rounds && answer == answers[rounds - 1]
      ensures forall n :: 0 <= n < rounds - 1 ==> lambdaTolerance <= diffs[n] && elapsed(n) <= timelimit
      ensures diffs[rounds - 1] < lambdaTolerance || elapsed(rounds - 1) > timelimit
      ensures answer == lp(model) && Answers(model, answer)
    {
      ghost var n0: nat :| elapsed(n0) > timelimit;
      rounds := 0;
      lambdas, tables, answers, diffs, responses, masters := [], [table0], [], [], [], [];
      while true
        invariant Running(lp, table0, vars0, sols0, start, lambdas, tables, answers, diffs, responses, masters)
        invariant |answers| == rounds && WentOn(diffs, elapsed, lambdaTolerance, timelimit, rounds, n0)
        decreases n0 - rounds
      {
        ghost var diffs0 := diffs;
        var lambdaDiff;
        answer, lambdaDiff, lambdas, tables, answers, diffs, responses, masters :=
          NextRound(lp, table0, vars0, sols0, lambdas, tables, answers, diffs, responses, start, masters);
        rounds := rounds + 1;
        var elapsedTime := elapsed(rounds - 1);
        if lambdaDiff < lambdaTolerance || elapsedTime > timelimit {
          WentOnStop(diffs0, elapsed, lambdaTolerance, timelimit, rounds - 1, n0, lambdaDiff);
          break;
        }
        WentOnNext(diffs0, elapsed, lambdaTolerance, timelimit, rounds - 1, n0, lambdaDiff);
      }
    }

    /**
     * solve: the rounds, then extractSolution on the last answer of the
     * master. The rounds are Rounded from the multipliers solve starts with,
     * and stop at the first round whose lambdaDiff is below the tolerance or
     * that ends past the time limit.
     */
    method Solve(lp: LPModel -> LPSolution, elapsed: nat -> real)
      returns (solution: CMDPSolutionPolicyBased, rounds: nat, ghost lambdas: seq<Lambda>, ghost tables: seq<seq<seq<real>>>,
               ghost answers: seq<LPSolution>, ghost diffs: seq<real>, ghost responses: seq<seq<MDPPolicyDeterministic>>,
               ghost masters: seq<LPModel>)
      requires Valid() && AgentsSolvable()
      requires forall m: LPModel :: m.Valid() ==> Answers(m, lp(m))
      requires exists n: nat :: elapsed(n) > timelimit
      modifies this
      ensures Valid() && rounds >= 1
      ensures Rounded(cmdps, numDecisions, numDomainResources, W(), useBudgetConstraints, lambdas, tables, answers, diffs, responses)
      ensures AnsweredBy(lp, masters, answers, old(model.variables), numAgents) && |answers| == rounds && masters[rounds - 1] == model
      ensures lambdas[0] == old(CurrentLambda()) && tables[0] == old(CurrentTable()) && tables[rounds] == CurrentTable()
      ensures forall i :: 0 <= i < numAgents ==>
        |vars[i]| == old(|vars[i]|) + rounds && mdpSolutions[i] == old(mdpSolutions[i]) + AgentColumns(responses, i)
      ensures forall n :: 0 <= n < rounds - 1 ==> lambdaTolerance <= diffs[n] && elapsed(n) <= timelimit
      ensures diffs[rounds - 1] < lambdaTolerance || elapsed(rounds - 1) > timelimit
      ensures Answers(model, lp(model))
      ensures fresh(solution) && |solution.solutions| == numAgents
      ensures forall i :: 0 <= i < numAgents ==>
        solution.solutions[i].Mixture? &&
        MixtureOf(solution.solutions[i].mixture, AgentValues(lp(model), i), mdpSolutions[i], numDomainResources, numDecisions)
    {
      var answer;
      answer, rounds, lambdas, tables, answers, diffs, responses, masters := Rounds(lp, elapsed);
      var agentSolutions := ExtractSolution(answer);
      solution := new CMDPSolutionPolicyBased(agentSolutions);
    }

    /** modifyBudgetConstraints: new right-hand sides for the capacity rows; refused without budget constraints. */
    method ModifyBudgetConstraints(newLimits: seq<real>) returns (r: Result<()>)
      requires Valid()
      requires useBudgetConstraints ==> numDomainResources <= |newLimits|
      modifies this
      ensures Valid()
      ensures r.Success? <==> useBudgetConstraints
      ensures !useBudgetConstraints ==> model == old(model) && limits == old(limits)
      ensures useBudgetConstraints ==> forall k :: 0 <= k < numDomainResources ==>
        limits[k][0] == newLimits[k] && model.constraints[costConstraints[k][0]].rhs == newLimits[k]
      ensures model.variables == old(model.variables)
      ensures vars == old(vars) && mdpSolutions == old(mdpSolutions) && costConstraints == old(costConstraints)
      ensures lambdaBudget == old(lambdaBudget) && lambdaInstantaneous == old(lambdaInstantaneous)
    {
      if !useBudgetConstraints {
        return Failure("Can't change limits because instance does not have budget constraints");
      }
      var k := 0;
      while k < numDomainResources
        invariant 0 <= k <= numDomainResources && Valid()
        invariant forall k' :: 0 <= k' < k ==> limits[k'][0] == newLimits[k']
        invariant model.variables == old(model.variables)
        invariant vars == old(vars) && mdpSolutions == old(mdpSolutions) && costConstraints == old(costConstraints)
        invariant lambdaBudget == old(lambdaBudget) && lambdaInstantaneous == old(lambdaInstantaneous)
      {
        ChangeLimit(k, 0, newLimits[k]);
        k := k + 1;
      }
      CapacityRhs();
      r := Success(());
    }

    /** modifyInstantaneousConstraints: new right-hand sides for the capacity rows; refused with budget constraints. */
    method ModifyInstantaneousConstraints(newLimits: seq<seq<real>>) returns (r: Result<()>)
      requires Valid()
      requires !useBudgetConstraints ==> CoversKT(newLimits, numDomainResources, numDecisions)
      modifies this
      ensures Valid()
      ensures r.Success? <==> !useBudgetConstraints
      ensures useBudgetConstraints ==> model == old(model) && limits == old(limits)
      ensures !useBudgetConstraints ==> forall k, t :: 0 <= k < numDomainResources && 0 <= t < numDecisions ==>
        limits[k][t] == newLimits[k][t] && model.constraints[costConstraints[k][t]].rhs == newLimits[k][t]
      ensures model.variables == old(model.variables)
      ensures vars == old(vars) && mdpSolutions == old(mdpSolutions) && costConstraints == old(costConstraints)
      ensures lambdaBudget == old(lambdaBudget) && lambdaInstantaneous == old(lambdaInstantaneous)
    {
      if useBudgetConstraints {
        return Failure("Can't change limits because instance does not have instantaneous constraints");
      }
      var k := 0;
      while k < numDomainResources
        invariant 0 <= k <= numDomainResources && Valid()
        invariant forall k', t :: 0 <= k' < k && 0 <= t < numDecisions ==> limits[k'][t] == newLimits[k'][t]
        invariant model.variables == old(model.variables)
        invariant vars == old(vars) && mdpSolutions == old(mdpSolutions) && costConstraints == old(costConstraints)
        invariant lambdaBudget == old(lambdaBudget) && lambdaInstantaneous == old(lambdaInstantaneous)
      {
        ChangeRow(k, newLimits[k]);
        k := k + 1;
      }
      CapacityRhs();
      r := Success(());
    }

    /** The inner loop of modifyInstantaneousConstraints: row[t] becomes the limit of capacity row (k, t). */
    method ChangeRow(k: nat, row: seq<real>)
      requires Valid() && !useBudgetConstraints && k < numDomainResources && numDecisions <= |row|
      modifies this
      ensures Valid()
      ensures |limits| == old(|limits|) && forall k' :: 0 <= k' < |limits| && k' != k ==> limits[k'] == old(limits[k'])
      ensures forall t :: 0 <= t < numDecisions ==> limits[k][t] == row[t]
      ensures model.variables == old(model.variables)
      ensures vars == old(vars) && mdpSolutions == old(mdpSolutions) && costConstraints == old(costConstraints)
      ensures lambdaBudget == old(lambdaBudget) && lambdaInstantaneous == old(lambdaInstantaneous)
    {
      var t := 0;
      while t < numDecisions
        invariant 0 <= t <= numDecisions && Valid()
        invariant |limits| == old(|limits|) && forall k' :: 0 <= k' < |limits| && k' != k ==> limits[k'] == old(limits[k'])
        invariant forall t' :: 0 <= t' < t ==> limits[k][t'] == row[t']
        invariant model.variables == old(model.variables)
        invariant vars == old(vars) && mdpSolutions == old(mdpSolutions) && costConstraints == old(costConstraints)
        invariant lambdaBudget == old(lambdaBudget) && lambdaInstantaneous == old(lambdaInstantaneous)
      {
        ChangeLimit(k, t, row[t]);
        t := t + 1;
      }
    }

    /** The right-hand side of capacity row (k, t) is limits[k][t]. */
    lemma CapacityRhs()
      requires Valid()
      ensures forall k, t :: 0 <= k < numDomainResources && 0 <= t < W() ==>
        costConstraints[k][t] < |model.constraints| && model.constraints[costConstraints[k][t]].rhs == limits[k][t]
    {
    }

    /** changeConstraintRHS on capacity row (k, t); every other row keeps its right-hand side. */
    method ChangeLimit(k: nat, t: nat, v: real)
      requires Valid() && k < numDomainResources && t < W()
      modifies this
      ensures Valid()
      ensures limits == old(limits)[k := old(limits)[k][t := v]]
      ensures model == ChangeConstraintRHS(old(model), costConstraints[k][t], v)
      ensures model.constraints[costConstraints[k][t]].rhs == v
      ensures forall k', t' :: 0 <= k' < numDomainResources && 0 <= t' < W() && (k', t') != (k, t) ==>
        model.constraints[costConstraints[k'][t']].rhs == old(model).constraints[costConstraints[k'][t']].rhs
      ensures model.variables == old(model.variables)
      ensures vars == old(vars) && mdpSolutions == old(mdpSolutions) && costConstraints == old(costConstraints)
      ensures lambdaBudget == old(lambdaBudget) && lambdaInstantaneous == old(lambdaInstantaneous)
    {
      var K := numDomainResources;
      ChangeLimitKeeps(model, limits, numAgents, K, W(), costConstraints, probabilityConstraints, vars, coefficients, k, t, v);
      forall k', t' | 0 <= k' < K && 0 <= t' < W() && (k', t') != (k, t)
        ensures CostRow(W(), k', t') != CostRow(W(), k, t)
      {
        if CostRow(W(), k', t') == CostRow(W(), k, t) {
          CostRowInjective(W(), k, t, k', t');
        }
      }
      model := ChangeConstraintRHS(model, costConstraints[k][t], v);
      limits := limits[k := limits[k][t := v]];
    }
  }
}
