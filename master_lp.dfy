/**
 * The master program of column generation for n agents: one variable per
 * policy (column) of each agent with the policy's expected reward as its
 * objective coefficient, K x T capacity constraints whose coefficients are the
 * columns' expected costs, and one convexity constraint per agent whose
 * coefficients are 1 on that agent's columns and 0 on all others. After a
 * solve the master holds the mixture weights, the dual prices of the
 * capacity constraints and the expected cost of the mixture.
 */
module MasterProgram {
  import opened Numeric
  import opened Lp

  /** Every entry [k][t] with k < K and t < T exists. */
  predicate CoversKT(c: seq<seq<real>>, K: nat, T: nat) {
    |c| >= K && forall k :: 0 <= k < K ==> |c[k]| >= T
  }

  /** new double[K][T]. */
  function ZeroCost(K: nat, T: nat): (c: seq<seq<real>>)
    ensures |c| == K && forall k :: 0 <= k < K ==> c[k] == Zeros(T)
  {
    seq(K, k requires 0 <= k < K => Zeros(T))
  }

  /** The index of the capacity constraint of resource k at time t: the rows are added k-major. */
  function CostRow(T: nat, k: nat, t: nat): nat {
    k * T + t
  }

  lemma {:induction false} MulMonotone(a: nat, b: nat, T: nat)
    requires a <= b
    ensures a * T <= b * T
  {
    if a < b {
      MulMonotone(a, b - 1, T);
      assert (b - 1) * T + T == b * T;
    }
  }

  /** The index of the convexity constraint of agent i: after all K x T capacity rows. */
  function WeightRow(K: nat, T: nat, i: nat): nat {
    K * T + i
  }

  lemma CostRowRange(K: nat, T: nat, k: nat, t: nat)
    requires k < K && t < T
    ensures CostRow(T, k, t) < K * T
    ensures k * T + T <= K * T
  {
    MulMonotone(k + 1, K, T);
    assert (k + 1) * T == k * T + T;
  }

  lemma CostRowInjective(T: nat, k: nat, t: nat, k': nat, t': nat)
    requires t < T && t' < T && CostRow(T, k, t) == CostRow(T, k', t')
    ensures k == k' && t == t'
  {
    if k < k' {
      CostRowRange(k', T, k, t);
    } else if k' < k {
      CostRowRange(k, T, k', t');
    }
  }

  /** The first column of every agent: a given policy, or none (a dummy column). */
  datatype InitialColumns = InitialColumns(reward: seq<real>, cost: seq<seq<seq<real>>>)

  predicate InitialCovers(initial: Option<InitialColumns>, nAgents: nat, K: nat, T: nat) {
    initial.Some? ==>
      |initial.value.reward| >= nAgents && |initial.value.cost| >= nAgents &&
      forall i :: 0 <= i < nAgents ==> CoversKT(initial.value.cost[i], K, T)
  }

  /** The objective coefficient of agent i's first column: its reward, or -infinite + 1 for the dummy. */
  function InitialReward(initial: Option<InitialColumns>, infinite: real, i: nat): real
    requires initial.Some? ==> i < |initial.value.reward|
  {
    if initial.Some? then initial.value.reward[i] else -1.0 * infinite + 1.0
  }

  /** The cost table of agent i's first column: the given one, or all zeros for the dummy. */
  function InitialCost(initial: Option<InitialColumns>, K: nat, T: nat, i: nat): seq<seq<real>>
    requires initial.Some? ==> i < |initial.value.cost|
  {
    if initial.Some? then initial.value.cost[i] else ZeroCost(K, T)
  }

  /** The indices of the rows: capacity row (k, t) is k * T + t, convexity row i is K * T + i. */
  ghost predicate RowIds(nAgents: nat, K: nat, T: nat, costConstraints: seq<seq<nat>>, weightConstraints: seq<nat>) {
    |costConstraints| == K && (forall k :: 0 <= k < K ==> |costConstraints[k]| == T) &&
    (forall k, t :: 0 <= k < K && 0 <= t < T ==> costConstraints[k][t] == CostRow(T, k, t)) &&
    |weightConstraints| == nAgents &&
    (forall i :: 0 <= i < nAgents ==> weightConstraints[i] == WeightRow(K, T, i))
  }

  /** Capacity rows are LESS_EQUAL the limit; convexity rows are EQUAL to 1. */
  ghost predicate RowKinds(m: LPModel, limits: seq<seq<real>>, nAgents: nat, K: nat, T: nat) {
    CoversKT(limits, K, T) && |m.constraints| == K * T + nAgents &&
    (forall k, t :: 0 <= k < K && 0 <= t < T ==>
      CostRow(T, k, t) < K * T && m.constraints[CostRow(T, k, t)].kind == LessEqual && m.constraints[CostRow(T, k, t)].rhs == limits[k][t]) &&
    (forall i :: 0 <= i < nAgents ==>
      m.constraints[WeightRow(K, T, i)].kind == Equal && m.constraints[WeightRow(K, T, i)].rhs == 1.0)
  }

  /** The constraints of the master: K x T capacity rows, then one convexity row per agent. */
  ghost predicate Layout(m: LPModel, limits: seq<seq<real>>, nAgents: nat, K: nat, T: nat,
                         costConstraints: seq<seq<nat>>, weightConstraints: seq<nat>)
  {
    m.Valid() && RowIds(nAgents, K, T, costConstraints, weightConstraints) && RowKinds(m, limits, nAgents, K, T)
  }

  lemma AddColumnKeepsKinds(m: LPModel, limits: seq<seq<real>>, nAgents: nat, K: nat, T: nat, obj: real, col: seq<real>)
    requires m.Valid() && |col| == |m.constraints| && RowKinds(m, limits, nAgents, K, T)
    ensures RowKinds(AddColumn(m, 0.0, 1.0, obj, col), limits, nAgents, K, T)
  {
    var r := AddColumn(m, 0.0, 1.0, obj, col);
    forall k, t | 0 <= k < K && 0 <= t < T
      ensures r.constraints[CostRow(T, k, t)].kind == LessEqual && r.constraints[CostRow(T, k, t)].rhs == limits[k][t]
    {
      assert r.constraints[CostRow(T, k, t)].kind == m.constraints[CostRow(T, k, t)].kind;
    }
    forall i | 0 <= i < nAgents
      ensures r.constraints[WeightRow(K, T, i)].kind == Equal && r.constraints[WeightRow(K, T, i)].rhs == 1.0
    {
      assert r.constraints[WeightRow(K, T, i)].kind == m.constraints[WeightRow(K, T, i)].kind;
    }
  }

  /** Agent i has at least one column; column j is variable vars[i][j], bounded by [0, 1]. */
  ghost predicate ColumnShapes(m: LPModel, nAgents: nat, K: nat, T: nat, vars: seq<seq<nat>>, coeffs: seq<seq<seq<seq<real>>>>) {
    m.Valid() && |m.constraints| == K * T + nAgents &&
    |vars| == nAgents && |coeffs| == nAgents &&
    (forall i :: 0 <= i < nAgents ==> |vars[i]| == |coeffs[i]|) &&
    (forall i, j :: 0 <= i < nAgents && 0 <= j < |vars[i]| ==>
      vars[i][j] < |m.variables| && CoversKT(coeffs[i][j], K, T) &&
      m.variables[vars[i][j]].lowerbound == 0.0 && m.variables[vars[i][j]].upperbound == 1.0)
  }

  /** The coefficient of column j of agent i in capacity row (k, t) is coeffs[i][j][k][t]. */
  ghost predicate CostEntries(m: LPModel, nAgents: nat, K: nat, T: nat, vars: seq<seq<nat>>, coeffs: seq<seq<seq<seq<real>>>>)
    requires ColumnShapes(m, nAgents, K, T, vars, coeffs)
  {
    forall i, j, k, t :: 0 <= i < nAgents && 0 <= j < |vars[i]| && 0 <= k < K && 0 <= t < T ==>
      CostRow(T, k, t) < K * T && k < |coeffs[i][j]| && t < |coeffs[i][j][k]| &&
      m.constraints[CostRow(T, k, t)].lhs[vars[i][j]] == coeffs[i][j][k][t]
  }

  /** The coefficient of column j of agent i in convexity row i' is 1 when i' = i and 0 otherwise. */
  ghost predicate WeightEntries(m: LPModel, nAgents: nat, K: nat, T: nat, vars: seq<seq<nat>>, coeffs: seq<seq<seq<seq<real>>>>)
    requires ColumnShapes(m, nAgents, K, T, vars, coeffs)
  {
    forall i, j, i' :: 0 <= i < nAgents && 0 <= j < |vars[i]| && 0 <= i' < nAgents ==>
      m.constraints[WeightRow(K, T, i')].lhs[vars[i][j]] == if i == i' then 1.0 else 0.0
  }

  /** The columns of the master and their coefficients. */
  ghost predicate Columns(m: LPModel, nAgents: nat, K: nat, T: nat, vars: seq<seq<nat>>, coeffs: seq<seq<seq<seq<real>>>>)
  {
    ColumnShapes(m, nAgents, K, T, vars, coeffs) &&
    CostEntries(m, nAgents, K, T, vars, coeffs) && WeightEntries(m, nAgents, K, T, vars, coeffs)
  }

  /** The coefficients of capacity row (k, t) over the agents' first variables 0 .. nAgents-1. */
  function CostExpression(initial: Option<InitialColumns>, nAgents: nat, K: nat, T: nat, k: nat, t: nat): (e: seq<real>)
    requires InitialCovers(initial, nAgents, K, T) && k < K && t < T
    ensures |e| == nAgents
  {
    seq(nAgents, i requires 0 <= i < nAgents => if initial.Some? then initial.value.cost[i][k][t] else 0.0)
  }

  /** The expression of one capacity row of initModel, built term by term. */
  method CapacityExpression(initial: Option<InitialColumns>, nAgents: nat, K: nat, T: nat, k: nat, t: nat) returns (e: seq<real>)
    requires InitialCovers(initial, nAgents, K, T) && k < K && t < T
    ensures e == CostExpression(initial, nAgents, K, T, k, t)
  {
    e := EmptyExpression(nAgents);
    var i := 0;
    while i < nAgents
      invariant 0 <= i <= nAgents && |e| == nAgents
      invariant forall i' :: 0 <= i' < i ==> e[i'] == CostExpression(initial, nAgents, K, T, k, t)[i']
      invariant forall i' :: i <= i' < nAgents ==> e[i'] == 0.0
    {
      var cost := if initial.Some? then initial.value.cost[i][k][t] else 0.0;
      e := AddTerm(e, cost, i);
      i := i + 1;
    }
  }

  /** The first loop of initModel: variable i is agent i's first column. */
  method InitialVariables(m0: LPModel, initial: Option<InitialColumns>, nAgents: nat, K: nat, T: nat)
    returns (m: LPModel, vars: seq<seq<nat>>, coeffs: seq<seq<seq<seq<real>>>>)
    requires m0 == CreateModel(m0.infinite) && InitialCovers(initial, nAgents, K, T)
    ensures m.Valid() && m.constraints == [] && m.infinite == m0.infinite && |m.variables| == nAgents
    ensures forall i :: 0 <= i < nAgents ==> m.variables[i] == LPVariable(0.0, 1.0, InitialReward(initial, m0.infinite, i))
    ensures |vars| == nAgents && forall i :: 0 <= i < nAgents ==> vars[i] == [i]
    ensures |coeffs| == nAgents && forall i :: 0 <= i < nAgents ==> coeffs[i] == [InitialCost(initial, K, T, i)]
  {
    m := m0;
    vars := [];
    coeffs := [];
    var i := 0;
    while i < nAgents
      invariant 0 <= i <= nAgents
      invariant m.Valid() && m.constraints == [] && m.infinite == m0.infinite && |m.variables| == i
      invariant forall i' :: 0 <= i' < i ==> m.variables[i'] == LPVariable(0.0, 1.0, InitialReward(initial, m0.infinite, i'))
      invariant |vars| == i && forall i' :: 0 <= i' < i ==> vars[i'] == [i']
      invariant |coeffs| == i && forall i' :: 0 <= i' < i ==> coeffs[i'] == [InitialCost(initial, K, T, i')]
    {
      m := AddVariable(m, 0.0, 1.0, InitialReward(initial, m0.infinite, i));
      vars := vars + [[i]];
      coeffs := coeffs + [[InitialCost(initial, K, T, i)]];
      i := i + 1;
    }
  }

  /** The capacity rows of resource k, for t = 0 .. T-1. */
  method CapacityRowsOf(m0: LPModel, limits: seq<seq<real>>, initial: Option<InitialColumns>, nAgents: nat, K: nat, T: nat, k: nat)
    returns (m: LPModel, rows: seq<nat>)
    requires m0.Valid() && |m0.variables| == nAgents && InitialCovers(initial, nAgents, K, T)
    requires CoversKT(limits, K, T) && k < K
    ensures m.Valid() && m.variables == m0.variables && m.infinite == m0.infinite
    ensures |m.constraints| == |m0.constraints| + T && m.constraints[..|m0.constraints|] == m0.constraints
    ensures forall t :: 0 <= t < T ==>
      m.constraints[|m0.constraints| + t] == LPConstraint(CostExpression(initial, nAgents, K, T, k, t), LessEqual, limits[k][t])
    ensures |rows| == T && forall t :: 0 <= t < T ==> rows[t] == |m0.constraints| + t
  {
    m := m0;
    rows := [];
    var t := 0;
    while t < T
      invariant 0 <= t <= T
      invariant m.Valid() && m.variables == m0.variables && m.infinite == m0.infinite
      invariant |m.constraints| == |m0.constraints| + t && m.constraints[..|m0.constraints|] == m0.constraints
      invariant forall t' :: 0 <= t' < t ==>
        m.constraints[|m0.constraints| + t'] == LPConstraint(CostExpression(initial, nAgents, K, T, k, t'), LessEqual, limits[k][t'])
      invariant |rows| == t && forall t' :: 0 <= t' < t ==> rows[t'] == |m0.constraints| + t'
    {
      var expr := CapacityExpression(initial, nAgents, K, T, k, t);
      rows := rows + [|m.constraints|];
      m := AddConstraint(m, expr, LessEqual, limits[k][t]);
      t := t + 1;
    }
  }

  /** The second loop of initModel: the K x T capacity rows. */
  method CapacityRows(m0: LPModel, limits: seq<seq<real>>, initial: Option<InitialColumns>, nAgents: nat, K: nat, T: nat)
    returns (m: LPModel, costConstraints: seq<seq<nat>>)
    requires m0.Valid() && |m0.variables| == nAgents && m0.constraints == [] && InitialCovers(initial, nAgents, K, T)
    requires CoversKT(limits, K, T)
    ensures m.Valid() && m.variables == m0.variables && m.infinite == m0.infinite && |m.constraints| == K * T
    ensures forall k, t :: 0 <= k < K && 0 <= t < T ==>
      CostRow(T, k, t) < K * T && m.constraints[CostRow(T, k, t)] == LPConstraint(CostExpression(initial, nAgents, K, T, k, t), LessEqual, limits[k][t])
    ensures |costConstraints| == K && forall k :: 0 <= k < K ==> |costConstraints[k]| == T
    ensures forall k, t :: 0 <= k < K && 0 <= t < T ==> costConstraints[k][t] == CostRow(T, k, t)
  {
    m := m0;
    costConstraints := [];
    var k := 0;
    while k < K
      invariant 0 <= k <= K
      invariant m.Valid() && m.variables == m0.variables && m.infinite == m0.infinite && |m.constraints| == k * T
      invariant forall k', t :: 0 <= k' < k && 0 <= t < T ==>
        CostRow(T, k', t) < k * T && m.constraints[CostRow(T, k', t)] == LPConstraint(CostExpression(initial, nAgents, K, T, k', t), LessEqual, limits[k'][t])
      invariant |costConstraints| == k && forall k' :: 0 <= k' < k ==> |costConstraints[k']| == T
      invariant forall k', t :: 0 <= k' < k && 0 <= t < T ==> costConstraints[k'][t] == CostRow(T, k', t)
    {
      var m1, rows := CapacityRowsOf(m, limits, initial, nAgents, K, T, k);
      assert |m1.constraints| == (k + 1) * T;
      forall k', t | 0 <= k' < k + 1 && 0 <= t < T
        ensures CostRow(T, k', t) < (k + 1) * T
        ensures m1.constraints[CostRow(T, k', t)] == LPConstraint(CostExpression(initial, nAgents, K, T, k', t), LessEqual, limits[k'][t])
      {
        CostRowRange(k + 1, T, k', t);
        if k' < k {
          CostRowRange(k, T, k', t);
          assert m1.constraints[CostRow(T, k', t)] == m1.constraints[..|m.constraints|][CostRow(T, k', t)];
        }
      }
      m := m1;
      costConstraints := costConstraints + [rows];
      k := k + 1;
    }
    forall k, t | 0 <= k < K && 0 <= t < T
      ensures CostRow(T, k, t) < K * T
    {
      CostRowRange(K, T, k, t);
    }
  }

  /** The third loop of initModel: convexity row K * T + i has coefficient 1 on variable i. */
  method ConvexityRows(m0: LPModel, nAgents: nat) returns (m: LPModel, weightConstraints: seq<nat>)
    requires m0.Valid() && |m0.variables| == nAgents
    ensures m.Valid() && m.variables == m0.variables && m.infinite == m0.infinite
    ensures |m.constraints| == |m0.constraints| + nAgents && m.constraints[..|m0.constraints|] == m0.constraints
    ensures forall i :: 0 <= i < nAgents ==>
      m.constraints[|m0.constraints| + i] == LPConstraint(AddTerm(EmptyExpression(nAgents), 1.0, i), Equal, 1.0)
    ensures |weightConstraints| == nAgents && forall i :: 0 <= i < nAgents ==> weightConstraints[i] == |m0.constraints| + i
  {
    m := m0;
    weightConstraints := [];
    var i := 0;
    while i < nAgents
      invariant 0 <= i <= nAgents
      invariant m.Valid() && m.variables == m0.variables && m.infinite == m0.infinite
      invariant |m.constraints| == |m0.constraints| + i && m.constraints[..|m0.constraints|] == m0.constraints
      invariant forall i' :: 0 <= i' < i ==>
        m.constraints[|m0.constraints| + i'] == LPConstraint(AddTerm(EmptyExpression(nAgents), 1.0, i'), Equal, 1.0)
      invariant |weightConstraints| == i && forall i' :: 0 <= i' < i ==> weightConstraints[i'] == |m0.constraints| + i'
    {
      var expr := AddTerm(EmptyExpression(nAgents), 1.0, i);
      weightConstraints := weightConstraints + [|m.constraints|];
      m := AddConstraint(m, expr, Equal, 1.0);
      i := i + 1;
    }
  }

  /**
   * initModel: agent i's first column is variable i, with the given reward
   * and cost or, without an initial column, objective -infinite + 1 and zero
   * cost; then the K x T capacity rows and the n convexity rows.
   */
  method InitialModel(infinite: real, limits: seq<seq<real>>, initial: Option<InitialColumns>, nAgents: nat, K: nat, T: nat)
    returns (m: LPModel, vars: seq<seq<nat>>, coeffs: seq<seq<seq<seq<real>>>>, costConstraints: seq<seq<nat>>, weightConstraints: seq<nat>)
    requires CoversKT(limits, K, T) && InitialCovers(initial, nAgents, K, T)
    ensures Layout(m, limits, nAgents, K, T, costConstraints, weightConstraints)
    ensures Columns(m, nAgents, K, T, vars, coeffs)
    ensures m.infinite == infinite && |m.variables| == nAgents
    ensures forall i :: 0 <= i < nAgents ==>
      vars[i] == [i] && coeffs[i] == [InitialCost(initial, K, T, i)] &&
      m.variables[i].obj == InitialReward(initial, infinite, i)
  {
    var m1, m2;
    m1, vars, coeffs := InitialVariables(CreateModel(infinite), initial, nAgents, K, T);
    m2, costConstraints := CapacityRows(m1, limits, initial, nAgents, K, T);
    m, weightConstraints := ConvexityRows(m2, nAgents);
    forall k, t | 0 <= k < K && 0 <= t < T
      ensures m.constraints[CostRow(T, k, t)] == LPConstraint(CostExpression(initial, nAgents, K, T, k, t), LessEqual, limits[k][t])
    {
      assert m.constraints[CostRow(T, k, t)] == m.constraints[..|m2.constraints|][CostRow(T, k, t)];
    }
    forall i | 0 <= i < nAgents
      ensures m.constraints[WeightRow(K, T, i)] == LPConstraint(AddTerm(EmptyExpression(nAgents), 1.0, i), Equal, 1.0)
    {
      assert WeightRow(K, T, i) == |m2.constraints| + i;
    }
    assert RowKinds(m, limits, nAgents, K, T);
    assert ColumnShapes(m, nAgents, K, T, vars, coeffs);
    assert CostEntries(m, nAgents, K, T, vars, coeffs) by {
      forall i, j, k, t | 0 <= i < nAgents && 0 <= j < |vars[i]| && 0 <= k < K && 0 <= t < T
        ensures m.constraints[CostRow(T, k, t)].lhs[vars[i][j]] == coeffs[i][j][k][t]
      {
        assert vars[i][j] == i && coeffs[i][j] == InitialCost(initial, K, T, i);
      }
    }
    assert WeightEntries(m, nAgents, K, T, vars, coeffs) by {
      forall i, j, i' | 0 <= i < nAgents && 0 <= j < |vars[i]| && 0 <= i' < nAgents
        ensures m.constraints[WeightRow(K, T, i')].lhs[vars[i][j]] == if i == i' then 1.0 else 0.0
      {
        assert vars[i][j] == i;
        assert m.constraints[WeightRow(K, T, i')].lhs == AddTerm(EmptyExpression(nAgents), 1.0, i');
      }
    }
  }

  /** The rows of resource k are k * T .. k * T + T - 1, all below the convexity rows. */
  lemma ResourceBlock(K: nat, T: nat, k: nat)
    requires k < K
    ensures k * T + T <= K * T
  {
    MulMonotone(k + 1, K, T);
    assert (k + 1) * T == k * T + T;
  }

  /** The inner loop of addColumns' column: expectedCost[k][t] added in row k * T + t, for every t. */
  method AddResourceTerms(col0: seq<real>, cost: seq<real>, k: nat, T: nat) returns (col: seq<real>)
    requires T <= |cost| && k * T + T <= |col0|
    ensures |col| == |col0|
    ensures forall t :: 0 <= t < T ==> col[k * T + t] == col0[k * T + t] + cost[t]
    ensures forall c :: 0 <= c < |col0| && (c < k * T || k * T + T <= c) ==> col[c] == col0[c]
  {
    col := col0;
    var t := 0;
    while t < T
      invariant 0 <= t <= T && |col| == |col0|
      invariant forall t' :: 0 <= t' < t ==> col[k * T + t'] == col0[k * T + t'] + cost[t']
      invariant forall c :: 0 <= c < |col0| && (c < k * T || k * T + t <= c) ==> col[c] == col0[c]
    {
      col := AddTerm(col, cost[t], CostRow(T, k, t));
      t := t + 1;
    }
  }

  /**
   * The LPColumn of addColumns for one agent: 1 in the agent's convexity row
   * and expectedCost[k][t] in capacity row (k, t).
   */
  method NewColumn(nAgents: nat, K: nat, T: nat, agent: nat, cost: seq<seq<real>>) returns (col: seq<real>)
    requires agent < nAgents && CoversKT(cost, K, T)
    ensures |col| == K * T + nAgents
    ensures forall k, t :: 0 <= k < K && 0 <= t < T ==> CostRow(T, k, t) < K * T && col[CostRow(T, k, t)] == cost[k][t]
    ensures forall i :: 0 <= i < nAgents ==> col[WeightRow(K, T, i)] == if i == agent then 1.0 else 0.0
  {
    col := EmptyExpression(K * T + nAgents);
    col := AddTerm(col, 1.0, WeightRow(K, T, agent));
    var k := 0;
    while k < K
      invariant 0 <= k <= K && |col| == K * T + nAgents
      invariant k * T <= K * T
      invariant forall k', t :: 0 <= k' < k && 0 <= t < T ==> CostRow(T, k', t) < k * T && col[CostRow(T, k', t)] == cost[k'][t]
      invariant forall c :: k * T <= c < K * T ==> col[c] == 0.0
      invariant forall i :: 0 <= i < nAgents ==> col[WeightRow(K, T, i)] == if i == agent then 1.0 else 0.0
    {
      ResourceBlock(K, T, k);
      col := AddResourceTerms(col, cost[k], k, T);
      forall k', t | 0 <= k' < k + 1 && 0 <= t < T
        ensures CostRow(T, k', t) < (k + 1) * T && col[CostRow(T, k', t)] == cost[k'][t]
      {
        CostRowRange(k + 1, T, k', t);
        if k' < k {
          CostRowRange(k, T, k', t);
        }
      }
      assert (k + 1) * T == k * T + T;
      k := k + 1;
    }
    forall k, t | 0 <= k < K && 0 <= t < T
      ensures CostRow(T, k, t) < K * T
    {
      CostRowRange(K, T, k, t);
    }
  }

  /** A new column of agent agent, built as NewColumn builds it, keeps every column's coefficients and adds its own. */
  lemma AddColumnKeepsColumns(model: LPModel, nAgents: nat, K: nat, T: nat, vars: seq<seq<nat>>, coeffs: seq<seq<seq<seq<real>>>>,
                              agent: nat, reward: real, cost: seq<seq<real>>, col: seq<real>)
    requires Columns(model, nAgents, K, T, vars, coeffs)
    requires agent < nAgents && CoversKT(cost, K, T) && |col| == K * T + nAgents
    requires forall k, t :: 0 <= k < K && 0 <= t < T ==> CostRow(T, k, t) < K * T && col[CostRow(T, k, t)] == cost[k][t]
    requires forall i :: 0 <= i < nAgents ==> col[WeightRow(K, T, i)] == if i == agent then 1.0 else 0.0
    ensures Columns(AddColumn(model, 0.0, 1.0, reward, col), nAgents, K, T,
                    vars[agent := vars[agent] + [|model.variables|]], coeffs[agent := coeffs[agent] + [cost]])
  {
    var n := |model.variables|;
    var m := AddColumn(model, 0.0, 1.0, reward, col);
    assert forall c :: 0 <= c < |m.constraints| ==> m.constraints[c].lhs[..n] == model.constraints[c].lhs;
    forall i' | 0 <= i' < nAgents
      ensures m.constraints[WeightRow(K, T, i')].lhs[n] == if agent == i' then 1.0 else 0.0
    {
      var c := WeightRow(K, T, i');
      assert c < |model.constraints|;
      assert m.constraints[c] == model.constraints[c].(lhs := model.constraints[c].lhs + [col[c]]);
      assert |model.constraints[c].lhs| == n;
      assert m.constraints[c].lhs[n] == col[c];
      assert col[c] == if i' == agent then 1.0 else 0.0;
    }
    var vs := vars[agent := vars[agent] + [n]];
    var cs := coeffs[agent := coeffs[agent] + [cost]];
    forall i, j, k, t | 0 <= i < nAgents && 0 <= j < |vs[i]| && 0 <= k < K && 0 <= t < T
      ensures m.constraints[CostRow(T, k, t)].lhs[vs[i][j]] == cs[i][j][k][t]
    {
      if i != agent || j < |vars[i]| {
        assert vs[i][j] == vars[i][j] < n;
        assert m.constraints[CostRow(T, k, t)].lhs[vs[i][j]] == m.constraints[CostRow(T, k, t)].lhs[..n][vars[i][j]];
      }
    }
    forall i, j, i' | 0 <= i < nAgents && 0 <= j < |vs[i]| && 0 <= i' < nAgents
      ensures m.constraints[WeightRow(K, T, i')].lhs[vs[i][j]] == if i == i' then 1.0 else 0.0
    {
      if i != agent || j < |vars[i]| {
        assert vs[i][j] == vars[i][j] < n;
        assert m.constraints[WeightRow(K, T, i')].lhs[vs[i][j]] == m.constraints[WeightRow(K, T, i')].lhs[..n][vars[i][j]];
      } else {
        assert vs[i][j] == n;
      }
    }
    assert ColumnShapes(m, nAgents, K, T, vs, cs);
  }

  /** Sum of dist[j] * coeffs[j][k][t] over the first n columns of one agent. */
  function AgentCost(dist: seq<real>, coeffs: seq<seq<seq<real>>>, k: nat, t: nat, n: nat): real
    requires n <= |dist| && n <= |coeffs|
    requires forall j :: 0 <= j < n ==> k < |coeffs[j]| && t < |coeffs[j][k]|
  {
    if n == 0 then 0.0 else AgentCost(dist, coeffs, k, t, n - 1) + dist[n - 1] * coeffs[n - 1][k][t]
  }

  /** Every agent below n has a weight per column and cost tables covering resource k at time t. */
  predicate MixtureShaped(dists: seq<seq<real>>, coeffs: seq<seq<seq<seq<real>>>>, k: nat, t: nat, n: nat) {
    n <= |dists| && n <= |coeffs| &&
    forall i :: 0 <= i < n ==>
      |dists[i]| == |coeffs[i]| && forall j :: 0 <= j < |coeffs[i]| ==> k < |coeffs[i][j]| && t < |coeffs[i][j][k]|
  }

  /** The expected cost of resource k at time t of the mixture: the agents' weighted column costs, added up. */
  function MixtureCost(dists: seq<seq<real>>, coeffs: seq<seq<seq<seq<real>>>>, k: nat, t: nat, n: nat): real
    requires MixtureShaped(dists, coeffs, k, t, n)
  {
    if n == 0 then 0.0
    else MixtureCost(dists, coeffs, k, t, n - 1) + AgentCost(dists[n - 1], coeffs[n - 1], k, t, |dists[n - 1]|)
  }

  /** The innermost loops of solve: expectedCost[k][t] accumulated over agents and their columns. */
  method MixtureCostLoop(dists: seq<seq<real>>, coeffs: seq<seq<seq<seq<real>>>>, k: nat, t: nat, n: nat) returns (c: real)
    requires MixtureShaped(dists, coeffs, k, t, n)
    ensures c == MixtureCost(dists, coeffs, k, t, n)
  {
    c := 0.0;
    var i := 0;
    while i < n
      invariant 0 <= i <= n
      invariant c == MixtureCost(dists, coeffs, k, t, i)
    {
      ghost var c0 := c;
      var j := 0;
      while j < |dists[i]|
        invariant 0 <= j <= |dists[i]|
        invariant c == c0 + AgentCost(dists[i], coeffs[i], k, t, j)
      {
        c := c + dists[i][j] * coeffs[i][j][k][t];
        j := j + 1;
      }
      i := i + 1;
    }
  }

  /** A probability distribution over columns that each cost at most bound costs at most bound. */
  lemma {:induction false} AgentCostAtMost(dist: seq<real>, coeffs: seq<seq<seq<real>>>, k: nat, t: nat, n: nat, bound: real)
    requires n <= |dist| && n <= |coeffs|
    requires forall j :: 0 <= j < n ==> k < |coeffs[j]| && t < |coeffs[j][k]|
    requires forall j :: 0 <= j < n ==> 0.0 <= dist[j] && coeffs[j][k][t] <= bound
    ensures AgentCost(dist, coeffs, k, t, n) <= Sum(dist[..n]) * bound
  {
    if n > 0 {
      AgentCostAtMost(dist, coeffs, k, t, n - 1, bound);
      SumPrefixStep(dist, n - 1);
      assert dist[n - 1] * coeffs[n - 1][k][t] <= dist[n - 1] * bound;
      assert Sum(dist[..n]) * bound == Sum(dist[..n - 1]) * bound + dist[n - 1] * bound;
    }
  }

  /** A column with all weight has the mixture cost of that column alone. */
  lemma {:induction false} AgentCostOfPureColumn(dist: seq<real>, coeffs: seq<seq<seq<real>>>, k: nat, t: nat, n: nat, j0: nat)
    requires n <= |dist| && n <= |coeffs| && j0 < n
    requires forall j :: 0 <= j < n ==> k < |coeffs[j]| && t < |coeffs[j][k]|
    requires forall j :: 0 <= j < n ==> dist[j] == if j == j0 then 1.0 else 0.0
    ensures AgentCost(dist, coeffs, k, t, n) == coeffs[j0][k][t]
  {
    if n - 1 > j0 {
      AgentCostOfPureColumn(dist, coeffs, k, t, n - 1, j0);
    } else {
      AgentCostZero(dist, coeffs, k, t, n - 1);
    }
  }

  lemma {:induction false} AgentCostZero(dist: seq<real>, coeffs: seq<seq<seq<real>>>, k: nat, t: nat, n: nat)
    requires n <= |dist| && n <= |coeffs|
    requires forall j :: 0 <= j < n ==> k < |coeffs[j]| && t < |coeffs[j][k]| && dist[j] == 0.0
    ensures AgentCost(dist, coeffs, k, t, n) == 0.0
  {
    if n > 0 {
      AgentCostZero(dist, coeffs, k, t, n - 1);
    }
  }

  class MasterLP {
    const nAgents: nat
    const K: nat
    const T: nat
    const initialCostLimits: seq<seq<real>>
    const initial: Option<InitialColumns>

    var model: LPModel
    var costConstraints: seq<seq<nat>>
    var weightConstraints: seq<nat>
    /** Per agent: the LP variables of its columns, and their cost tables. */
    var vars: seq<seq<nat>>
    var costCoefficients: seq<seq<seq<seq<real>>>>

    /** Set by solve. */
    var policyDistributions: Option<seq<seq<real>>>
    var lambda: Option<seq<seq<real>>>
    var expectedReward: real
    var expectedCost: Option<seq<seq<real>>>

    ghost predicate Valid()
      reads this
    {
      Layout(model, initialCostLimits, nAgents, K, T, costConstraints, weightConstraints) &&
      Columns(model, nAgents, K, T, vars, costCoefficients) &&
      forall i :: 0 <= i < nAgents ==> 1 <= |vars[i]|
    }

    /** MasterLP(lpSolver, nAgents, costLimits[, initialExpectedReward, initialExpectedCost]); K and T are the sizes of costLimits. */
    constructor(infinite: real, nAgents: nat, costLimits: seq<seq<real>>, initial: Option<InitialColumns>)
      requires |costLimits| > 0 && CoversKT(costLimits, |costLimits|, |costLimits[0]|)
      requires InitialCovers(initial, nAgents, |costLimits|, |costLimits[0]|)
      ensures Valid()
      ensures this.nAgents == nAgents && K == |costLimits| && T == |costLimits[0]|
      ensures initialCostLimits == costLimits && this.initial == initial
      ensures model.infinite == infinite && |model.variables| == nAgents
      ensures forall i :: 0 <= i < nAgents ==>
        vars[i] == [i] && costCoefficients[i] == [InitialCost(initial, K, T, i)] &&
        model.variables[i].obj == InitialReward(initial, infinite, i)
      ensures policyDistributions.None? && lambda.None? && expectedCost.None?
    {
      this.nAgents := nAgents;
      K := |costLimits|;
      T := |costLimits[0]|;
      initialCostLimits := costLimits;
      this.initial := initial;
      policyDistributions := None;
      lambda := None;
      expectedReward := 0.0;
      expectedCost := None;
      new;
      model, vars, costCoefficients, costConstraints, weightConstraints :=
        InitialModel(infinite, costLimits, initial, nAgents, |costLimits|, |costLimits[0]|);
    }

    /**
     * addColumns: one new column per agent, variable |variables| + agent in
     * order, with objective expectedReward[agent] and cost expectedCost[agent].
     */
    method AddColumns(expectedReward: seq<real>, expectedCost: seq<seq<seq<real>>>)
      requires Valid()
      requires |expectedReward| == nAgents && |expectedCost| == nAgents
      requires forall i :: 0 <= i < nAgents ==> |expectedCost[i]| == K && CoversKT(expectedCost[i], K, T)
      modifies this
      ensures Valid()
      ensures |model.variables| == old(|model.variables|) + nAgents
      ensures model.variables[..old(|model.variables|)] == old(model.variables)
      ensures forall i :: 0 <= i < nAgents ==>
        vars[i] == old(vars[i]) + [old(|model.variables|) + i] &&
        costCoefficients[i] == old(costCoefficients[i]) + [expectedCost[i]] &&
        model.variables[old(|model.variables|) + i] == LPVariable(0.0, 1.0, expectedReward[i])
      ensures costConstraints == old(costConstraints) && weightConstraints == old(weightConstraints)
      ensures policyDistributions == old(policyDistributions) && lambda == old(lambda) && this.expectedCost == old(this.expectedCost)
    {
      ghost var n0 := |model.variables|;
      var agent := 0;
      while agent < nAgents
        invariant 0 <= agent <= nAgents
        invariant Layout(model, initialCostLimits, nAgents, K, T, costConstraints, weightConstraints)
        invariant Columns(model, nAgents, K, T, vars, costCoefficients)
        invariant |model.variables| == n0 + agent && model.variables[..n0] == old(model.variables)
        invariant forall i :: 0 <= i < nAgents ==> i < agent ==>
          vars[i] == old(vars[i]) + [n0 + i] && costCoefficients[i] == old(costCoefficients[i]) + [expectedCost[i]] &&
          model.variables[n0 + i] == LPVariable(0.0, 1.0, expectedReward[i])
        invariant forall i :: agent <= i < nAgents ==> vars[i] == old(vars[i]) && costCoefficients[i] == old(costCoefficients[i])
        invariant forall i :: 0 <= i < nAgents ==> 1 <= |vars[i]|
        invariant costConstraints == old(costConstraints) && weightConstraints == old(weightConstraints)
        invariant policyDistributions == old(policyDistributions) && lambda == old(lambda) && this.expectedCost == old(this.expectedCost)
      {
        var col := NewColumn(nAgents, K, T, agent, expectedCost[agent]);
        AddAgentColumn(agent, expectedReward[agent], expectedCost[agent], col);
        agent := agent + 1;
      }
    }

    /** One round of the addColumns loop. */
    method AddAgentColumn(agent: nat, reward: real, cost: seq<seq<real>>, col: seq<real>)
      requires Layout(model, initialCostLimits, nAgents, K, T, costConstraints, weightConstraints)
      requires Columns(model, nAgents, K, T, vars, costCoefficients)
      requires agent < nAgents && CoversKT(cost, K, T) && |col| == K * T + nAgents
      requires forall k, t :: 0 <= k < K && 0 <= t < T ==> CostRow(T, k, t) < K * T && col[CostRow(T, k, t)] == cost[k][t]
      requires forall i :: 0 <= i < nAgents ==> col[WeightRow(K, T, i)] == if i == agent then 1.0 else 0.0
      modifies this
      ensures Layout(model, initialCostLimits, nAgents, K, T, costConstraints, weightConstraints)
      ensures Columns(model, nAgents, K, T, vars, costCoefficients)
      ensures model.variables == old(model.variables) + [LPVariable(0.0, 1.0, reward)]
      ensures |vars| == nAgents && vars == old(vars)[agent := old(vars[agent]) + [old(|model.variables|)]]
      ensures costCoefficients == old(costCoefficients)[agent := old(costCoefficients[agent]) + [cost]]
      ensures costConstraints == old(costConstraints) && weightConstraints == old(weightConstraints)
      ensures policyDistributions == old(policyDistributions) && lambda == old(lambda) && expectedCost == old(expectedCost)
    {
      var n := |model.variables|;
      AddColumnKeepsColumns(model, nAgents, K, T, vars, costCoefficients, agent, reward, cost, col);
      AddColumnKeepsKinds(model, initialCostLimits, nAgents, K, T, reward, col);
      model := AddColumn(model, 0.0, 1.0, reward, col);
      vars := vars[agent := vars[agent] + [n]];
      costCoefficients := costCoefficients[agent := costCoefficients[agent] + [cost]];
    }

    /**
     * The bookkeeping of solve after the solver answered: each agent's
     * distribution is the value of its variables in order, lambda[k][t] is
     * the dual price of capacity row (k, t), the reward is the objective
     * value, and expectedCost[k][t] is the mixture's cost.
     */
    method Solve(answer: LPSolution)
      requires Valid() && Answers(model, answer)
      modifies this
      ensures Valid()
      ensures model == old(model) && vars == old(vars) && costCoefficients == old(costCoefficients)
      ensures costConstraints == old(costConstraints) && weightConstraints == old(weightConstraints)
      ensures policyDistributions.Some? && |policyDistributions.value| == nAgents
      ensures forall i :: 0 <= i < nAgents ==>
        |policyDistributions.value[i]| == |vars[i]| &&
        forall j :: 0 <= j < |vars[i]| ==> policyDistributions.value[i][j] == answer.values[vars[i][j]]
      ensures lambda.Some? && |lambda.value| == K && forall k :: 0 <= k < K ==> |lambda.value[k]| == T
      ensures forall k, t :: 0 <= k < K && 0 <= t < T ==> lambda.value[k][t] == answer.duals[CostRow(T, k, t)]
      ensures expectedReward == answer.objective
      ensures expectedCost.Some? && |expectedCost.value| == K && forall k :: 0 <= k < K ==> |expectedCost.value[k]| == T
      ensures forall k, t :: 0 <= k < K && 0 <= t < T ==>
        MixtureShaped(policyDistributions.value, costCoefficients, k, t, nAgents) &&
        expectedCost.value[k][t] == MixtureCost(policyDistributions.value, costCoefficients, k, t, nAgents)
    {
      var dists := Distributions(answer);
      var lam := DualPrices(answer);
      var ec := ExpectedCosts(dists);
      policyDistributions := Some(dists);
      lambda := Some(lam);
      expectedReward := answer.objective;
      expectedCost := Some(ec);
    }

    /** The first loop of solve: the value of every agent's variables. */
    method Distributions(answer: LPSolution) returns (dists: seq<seq<real>>)
      requires Valid() && Answers(model, answer)
      ensures |dists| == nAgents
      ensures forall i :: 0 <= i < nAgents ==>
        |dists[i]| == |vars[i]| && forall j :: 0 <= j < |vars[i]| ==> dists[i][j] == answer.values[vars[i][j]]
    {
      dists := [];
      var i := 0;
      while i < nAgents
        invariant 0 <= i <= nAgents && |dists| == i
        invariant forall i' :: 0 <= i' < i ==>
          |dists[i']| == |vars[i']| && forall j :: 0 <= j < |vars[i']| ==> dists[i'][j] == answer.values[vars[i'][j]]
      {
        var d: seq<real> := [];
        var j := 0;
        while j < |vars[i]|
          invariant 0 <= j <= |vars[i]| && |d| == j
          invariant forall j' :: 0 <= j' < j ==> d[j'] == answer.values[vars[i][j']]
        {
          d := d + [answer.values[vars[i][j]]];
          j := j + 1;
        }
        dists := dists + [d];
        i := i + 1;
      }
    }

    /** The second loop of solve: the dual price of every capacity row. */
    method DualPrices(answer: LPSolution) returns (lam: seq<seq<real>>)
      requires Valid() && Answers(model, answer)
      ensures |lam| == K && forall k :: 0 <= k < K ==> |lam[k]| == T
      ensures forall k, t :: 0 <= k < K && 0 <= t < T ==> lam[k][t] == answer.duals[CostRow(T, k, t)]
    {
      lam := [];
      var k := 0;
      while k < K
        invariant 0 <= k <= K && |lam| == k
        invariant forall k' :: 0 <= k' < k ==> |lam[k']| == T
        invariant forall k', t :: 0 <= k' < k && 0 <= t < T ==> lam[k'][t] == answer.duals[CostRow(T, k', t)]
      {
        var row: seq<real> := [];
        var t := 0;
        while t < T
          invariant 0 <= t <= T && |row| == t
          invariant forall t' :: 0 <= t' < t ==> row[t'] == answer.duals[CostRow(T, k, t')]
        {
          row := row + [answer.duals[costConstraints[k][t]]];
          t := t + 1;
        }
        lam := lam + [row];
        k := k + 1;
      }
    }

    /** The third loop of solve: expectedCost[k][t] of the mixture given by dists. */
    method ExpectedCosts(dists: seq<seq<real>>) returns (ec: seq<seq<real>>)
      requires Valid()
      requires |dists| == nAgents && forall i :: 0 <= i < nAgents ==> |dists[i]| == |vars[i]|
      ensures |ec| == K && forall k :: 0 <= k < K ==> |ec[k]| == T
      ensures forall k, t :: 0 <= k < K && 0 <= t < T ==>
        MixtureShaped(dists, costCoefficients, k, t, nAgents) &&
        ec[k][t] == MixtureCost(dists, costCoefficients, k, t, nAgents)
    {
      ec := [];
      var k := 0;
      while k < K
        invariant 0 <= k <= K && |ec| == k
        invariant forall k' :: 0 <= k' < k ==> |ec[k']| == T
        invariant forall k', t :: 0 <= k' < k && 0 <= t < T ==>
          MixtureShaped(dists, costCoefficients, k', t, nAgents) &&
          ec[k'][t] == MixtureCost(dists, costCoefficients, k', t, nAgents)
      {
        var row: seq<real> := [];
        var t := 0;
        while t < T
          invariant 0 <= t <= T && |row| == t
          invariant forall t' :: 0 <= t' < t ==>
            MixtureShaped(dists, costCoefficients, k, t', nAgents) &&
            row[t'] == MixtureCost(dists, costCoefficients, k, t', nAgents)
        {
          assert MixtureShaped(dists, costCoefficients, k, t, nAgents);
          var c := MixtureCostLoop(dists, costCoefficients, k, t, nAgents);
          row := row + [c];
          t := t + 1;
        }
        ec := ec + [row];
        k := k + 1;
      }
    }

    /** getPolicyDistribution(agent). */
    function GetPolicyDistribution(agent: int): (d: seq<real>)
      reads this
      requires 0 <= agent < nAgents
      requires policyDistributions.Some? && |policyDistributions.value| == nAgents
    {
      policyDistributions.value[agent]
    }

    /** getLambda(k, t). */
    function GetLambda(k: int, t: int): real
      reads this
      requires 0 <= t < T && 0 <= k < K
      requires lambda.Some? && |lambda.value| == K && forall k' :: 0 <= k' < K ==> |lambda.value[k']| == T
    {
      lambda.value[k][t]
    }

    function GetExpectedReward(): real
      reads this
    {
      expectedReward
    }

    /** getExpectedCost(k, t). */
    function GetExpectedCost(k: int, t: int): real
      reads this
      requires 0 <= t < T && 0 <= k < K
      requires expectedCost.Some? && |expectedCost.value| == K && forall k' :: 0 <= k' < K ==> |expectedCost.value[k']| == T
    {
      expectedCost.value[k][t]
    }
  }
}
