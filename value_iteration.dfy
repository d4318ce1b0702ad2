/**
 * Finite-horizon value iteration for one agent's CMDP: backward induction on
 * the Lagrangian reward r(s, a) - sum_k lambda_k c_k(s, a), keeping the total
 * unweighted reward of the chosen actions beside the value, and then a forward
 * pass that propagates state probabilities from the initial state to obtain
 * the expected cost of the resulting deterministic policy.
 *
 * The CMDP getters are pure table lookups, so the algorithm is stated over
 * Tables, the values those getters return for the horizon of the call.
 */
module ValueIteration {
  import opened Numeric
  import opened Mdp
  import opened Cmdp
  import opened MdpPolicies

  /** The multipliers of the two solve overloads: one per resource, or one per resource and time step. */
  datatype Lambda = Budget(perResource: seq<real>) | Instantaneous(perResourceTime: seq<seq<real>>)
  {
    /** K, the length of the outer lambda array. */
    function Count(): nat {
      match this
      case Budget(l) => |l|
      case Instantaneous(l) => |l|
    }

    /** Every per-time row has an entry for each of the T decisions. */
    predicate Spans(T: nat) {
      Instantaneous? ==> forall k :: 0 <= k < |perResourceTime| ==> |perResourceTime[k]| >= T
    }

    /** lambda[k] for budget constraints, lambda[k][t] for instantaneous ones. */
    function Weight(k: nat, t: nat): real
      requires k < Count()
      requires Instantaneous? ==> t < |perResourceTime[k]|
    {
      match this
      case Budget(l) => l[k]
      case Instantaneous(l) => l[k][t]
    }
  }

  /** One call of solve: the model, the horizon and the multipliers. */
  datatype Problem = Problem(m: CMDP, T: nat, lambda: Lambda)

  /**
   * What the getters return over the horizon: feasible[t][s],
   * reward[t][s][a], dest[t][s][a] and prob[t][s][a] for t < T, and the cost
   * tables cost[k][s][a].
   */
  datatype Tables = Tables(S: nat, A: nat, T: nat, init: int, lambda: Lambda,
                           feasible: seq<seq<seq<int>>>, reward: seq<seq<seq<real>>>,
                           dest: seq<seq<seq<seq<int>>>>, prob: seq<seq<seq<seq<real>>>>,
                           cost: seq<seq<seq<real>>>)
  {
    /** The number of cost functions of the model, which sizes the cost results. */
    function NC(): nat {
      |cost|
    }
  }

  /** The tables the getters read exist for the horizon. */
  predicate Ready(P: Problem)
    reads P.m.base
  {
    ReadyFor(P.m, P.T)
  }

  /** The tables the getters of m read exist for the horizon T; the multipliers play no part. */
  predicate ReadyFor(m: CMDP, T: nat)
    reads m.base
  {
    var b := m.base;
    b.RewardsReady() && b.TransitionsReady() &&
    ((b.hasTimeDependentReward || b.hasTimeDependentTransitions) ==> T <= b.nDecisions) &&
    |b.feasibleActions| >= T &&
    forall t :: 0 <= t < T ==> |b.feasibleActions[t]| >= b.nStates
  }

  /** getFeasibleActions, getReward, getTransitionDestinations and getTransitionProbabilities over the horizon. */
  function TablesOf(P: Problem): (M: Tables)
    reads P.m.base
    requires Ready(P)
    ensures M.S == P.m.base.nStates && M.A == P.m.base.nActions && M.T == P.T
    ensures M.init == P.m.base.initialState && M.lambda == P.lambda && M.cost == P.m.costFunctions
    ensures |M.feasible| == P.T && |M.reward| == P.T && |M.dest| == P.T && |M.prob| == P.T
    ensures forall t :: 0 <= t < P.T ==>
      |M.feasible[t]| == M.S && |M.reward[t]| == M.S && |M.dest[t]| == M.S && |M.prob[t]| == M.S
    ensures forall t, s :: 0 <= t < P.T && 0 <= s < M.S ==>
      M.feasible[t][s] == P.m.base.GetFeasibleActions(t, s) &&
      |M.reward[t][s]| == M.A && |M.dest[t][s]| == M.A && |M.prob[t][s]| == M.A
    ensures forall t, s, a :: 0 <= t < P.T && 0 <= s < M.S && 0 <= a < M.A ==>
      M.reward[t][s][a] == P.m.base.GetRewardAt(t, s, a) &&
      M.dest[t][s][a] == P.m.base.GetTransitionDestinationsAt(t, s, a) &&
      M.prob[t][s][a] == P.m.base.GetTransitionProbabilitiesAt(t, s, a)
  {
    var b := P.m.base;
    Tables(b.nStates, b.nActions, P.T, b.initialState, P.lambda,
      FeasibleTable(P.m, P.T), RewardTable(P.m, P.T), DestTable(P.m, P.T), ProbTable(P.m, P.T), P.m.costFunctions)
  }

  function FeasibleTable(m: CMDP, T: nat): (f: seq<seq<seq<int>>>)
    reads m.base
    requires ReadyFor(m, T)
    ensures |f| == T && forall t :: 0 <= t < T ==> |f[t]| == m.base.nStates
    ensures forall t, s :: 0 <= t < T && 0 <= s < m.base.nStates ==> f[t][s] == m.base.GetFeasibleActions(t, s)
  {
    var b := m.base;
    seq(T, t requires 0 <= t < T && ReadyFor(m, T) reads b =>
      seq(b.nStates, s requires 0 <= s < b.nStates && ReadyFor(m, T) reads b => b.GetFeasibleActions(t, s)))
  }

  function RewardTable(m: CMDP, T: nat): (r: seq<seq<seq<real>>>)
    reads m.base
    requires ReadyFor(m, T)
    ensures |r| == T && forall t :: 0 <= t < T ==> |r[t]| == m.base.nStates
    ensures forall t, s :: 0 <= t < T && 0 <= s < m.base.nStates ==> |r[t][s]| == m.base.nActions
    ensures forall t, s, a :: 0 <= t < T && 0 <= s < m.base.nStates && 0 <= a < m.base.nActions ==>
      r[t][s][a] == m.base.GetRewardAt(t, s, a)
  {
    var b := m.base;
    seq(T, t requires 0 <= t < T && ReadyFor(m, T) reads b =>
      seq(b.nStates, s requires 0 <= s < b.nStates && ReadyFor(m, T) reads b =>
        seq(b.nActions, a requires 0 <= a < b.nActions && ReadyFor(m, T) reads b => b.GetRewardAt(t, s, a))))
  }

  function DestTable(m: CMDP, T: nat): (d: seq<seq<seq<seq<int>>>>)
    reads m.base
    requires ReadyFor(m, T)
    ensures |d| == T && forall t :: 0 <= t < T ==> |d[t]| == m.base.nStates
    ensures forall t, s :: 0 <= t < T && 0 <= s < m.base.nStates ==> |d[t][s]| == m.base.nActions
    ensures forall t, s, a :: 0 <= t < T && 0 <= s < m.base.nStates && 0 <= a < m.base.nActions ==>
      d[t][s][a] == m.base.GetTransitionDestinationsAt(t, s, a)
  {
    var b := m.base;
    seq(T, t requires 0 <= t < T && ReadyFor(m, T) reads b =>
      seq(b.nStates, s requires 0 <= s < b.nStates && ReadyFor(m, T) reads b =>
        seq(b.nActions, a requires 0 <= a < b.nActions && ReadyFor(m, T) reads b => b.GetTransitionDestinationsAt(t, s, a))))
  }

  function ProbTable(m: CMDP, T: nat): (p: seq<seq<seq<seq<real>>>>)
    reads m.base
    requires ReadyFor(m, T)
    ensures |p| == T && forall t :: 0 <= t < T ==> |p[t]| == m.base.nStates
    ensures forall t, s :: 0 <= t < T && 0 <= s < m.base.nStates ==> |p[t][s]| == m.base.nActions
    ensures forall t, s, a :: 0 <= t < T && 0 <= s < m.base.nStates && 0 <= a < m.base.nActions ==>
      p[t][s][a] == m.base.GetTransitionProbabilitiesAt(t, s, a)
  {
    var b := m.base;
    seq(T, t requires 0 <= t < T && ReadyFor(m, T) reads b =>
      seq(b.nStates, s requires 0 <= s < b.nStates && ReadyFor(m, T) reads b =>
        seq(b.nActions, a requires 0 <= a < b.nActions && ReadyFor(m, T) reads b => b.GetTransitionProbabilitiesAt(t, s, a))))
  }

  /**
   * What solve needs so that no lookup fails: T >= 1, lambda[0].length == T
   * for the per-time multipliers, cost tables covering the model, a non-empty
   * list of in-range feasible actions wherever a decision is made (an empty
   * one makes the forward pass look up action -1), and in-range destinations
   * wherever the next step is read.
   */
  predicate WellFormed(M: Tables) {
    M.T >= 1 && 0 <= M.init < M.S &&
    M.lambda.Count() <= M.NC() && M.lambda.Spans(M.T) &&
    (M.lambda.Instantaneous? ==> M.lambda.Count() > 0 && |M.lambda.perResourceTime[0]| == M.T) &&
    |M.feasible| == M.T && |M.reward| == M.T && |M.dest| == M.T && |M.prob| == M.T &&
    (forall k :: 0 <= k < M.NC() ==> Covers(M.cost[k], M.S, M.A)) &&
    (forall t :: 0 <= t < M.T ==>
      |M.feasible[t]| == M.S && Covers(M.reward[t], M.S, M.A) && SparseCovers(M.dest[t], M.prob[t], M.S, M.A)) &&
    (forall t, s :: 0 <= t < M.T && 0 <= s < M.S ==> |M.feasible[t][s]| > 0) &&
    (forall t, s, a :: 0 <= t < M.T && 0 <= s < M.S && a in M.feasible[t][s] ==> 0 <= a < M.A) &&
    (forall t, s, a, j :: 0 <= t < M.T - 1 && 0 <= s < M.S && a in M.feasible[t][s] && 0 <= j < |M.dest[t][s][a]| ==>
      0 <= M.dest[t][s][a][j] < M.S)
  }

  /** The input of a solve call meets what the algorithm needs. */
  predicate Solvable(P: Problem)
    reads P.m.base
  {
    Ready(P) && WellFormed(TablesOf(P))
  }

  function Feasible(M: Tables, t: nat, s: nat): (fa: seq<int>)
    requires WellFormed(M) && t < M.T && s < M.S
    ensures |fa| > 0 && forall a :: a in fa ==> 0 <= a < M.A
  {
    M.feasible[t][s]
  }

  function Reward(M: Tables, t: nat, s: nat, a: int): real
    requires WellFormed(M) && t < M.T && s < M.S && 0 <= a < M.A
  {
    M.reward[t][s][a]
  }

  function Cost(M: Tables, k: nat, s: nat, a: int): real
    requires WellFormed(M) && k < M.NC() && s < M.S && 0 <= a < M.A
  {
    M.cost[k][s][a]
  }

  function Dest(M: Tables, t: nat, s: nat, a: int): seq<int>
    requires WellFormed(M) && t < M.T && s < M.S && 0 <= a < M.A
  {
    M.dest[t][s][a]
  }

  function Prob(M: Tables, t: nat, s: nat, a: int): (r: seq<real>)
    requires WellFormed(M) && t < M.T && s < M.S && 0 <= a < M.A
    ensures |r| == |Dest(M, t, s, a)|
  {
    M.prob[t][s][a]
  }

  /** r(t, s, a) - lambda_0 c_0(s, a) - ... - lambda_{k-1} c_{k-1}(s, a), accumulated as `val` is. */
  function Lagrangian(M: Tables, t: nat, s: nat, a: int, k: nat): real
    requires WellFormed(M) && t < M.T && s < M.S && 0 <= a < M.A && k <= M.lambda.Count()
  {
    if k == 0 then Reward(M, t, s, a)
    else Lagrangian(M, t, s, a, k - 1) + -1.0 * M.lambda.Weight(k - 1, t) * Cost(M, k - 1, s, a)
  }
  /** The pair (value, total reward) accumulated for one action. */
  datatype Pair = Pair(value: real, reward: real)

  /** The value at (t, s), the total reward that goes with it and the action that attains it. */
  datatype Backup = Backup(value: real, reward: real, action: int)

  /** The next layer covers the states wherever it is read, that is before the last decision. */
  predicate NextCovers(M: Tables, t: nat, next: seq<Backup>) {
    t < M.T - 1 ==> |next| == M.S
  }

  /**
   * The sums over the first n successors of action a at (t, s): prob * val at
   * the last decision; prob * (val + next value) and prob * (reward + next
   * reward) before it, with next the values of time t + 1.
   */
  function QPartial(M: Tables, t: nat, s: nat, a: int, next: seq<Backup>, n: nat): Pair
    requires WellFormed(M) && t < M.T && s < M.S && a in Feasible(M, t, s) && NextCovers(M, t, next)
    requires n <= |Dest(M, t, s, a)|
  {
    if n == 0 then Pair(0.0, 0.0)
    else
      var prev := QPartial(M, t, s, a, next, n - 1);
      var prob := Prob(M, t, s, a)[n - 1];
      var val := Lagrangian(M, t, s, a, M.lambda.Count());
      var r := Reward(M, t, s, a);
      if t == M.T - 1 then
        Pair(prev.value + Times(prob, val), prev.reward + Times(prob, r))
      else
        var sNext := Dest(M, t, s, a)[n - 1];
        Pair(prev.value + Times(prob, val + next[sNext].value), prev.reward + Times(prob, r + next[sNext].reward))
  }

  /** The value and total reward of action a at (t, s) against the next layer. */
  function Q(M: Tables, t: nat, s: nat, a: int, next: seq<Backup>): Pair
    requires WellFormed(M) && t < M.T && s < M.S && a in Feasible(M, t, s) && NextCovers(M, t, next)
  {
    QPartial(M, t, s, a, next, |Dest(M, t, s, a)|)
  }

  /** The values of the first n feasible actions at (t, s), in the order of the feasible list. */
  function ActionValues(M: Tables, t: nat, s: nat, next: seq<Backup>, n: nat): (vals: seq<real>)
    requires WellFormed(M) && t < M.T && s < M.S && NextCovers(M, t, next) && n <= |Feasible(M, t, s)|
    ensures |vals| == n
  {
    if n == 0 then []
    else ActionValues(M, t, s, next, n - 1) + [Q(M, t, s, Feasible(M, t, s)[n - 1], next).value]
  }

  lemma {:induction false} ActionValuesAt(M: Tables, t: nat, s: nat, next: seq<Backup>, n: nat)
    requires WellFormed(M) && t < M.T && s < M.S && NextCovers(M, t, next) && n <= |Feasible(M, t, s)|
    ensures forall i :: 0 <= i < n ==> ActionValues(M, t, s, next, n)[i] == Q(M, t, s, Feasible(M, t, s)[i], next).value
  {
    if n > 0 {
      ActionValuesAt(M, t, s, next, n - 1);
    }
  }

  /** The index the running maximum over vals[0 .. n-1] ends on: it moves only on a strictly greater value. */
  function FirstMax(vals: seq<real>, n: nat): (i: nat)
    requires 1 <= n <= |vals|
    ensures i < n
  {
    if n == 1 then 0
    else
      var j := FirstMax(vals, n - 1);
      if vals[n - 1] > vals[j] then n - 1 else j
  }

  /** The running maximum lands on the first index of maximal value. */
  lemma {:induction false} FirstMaxIsFirst(vals: seq<real>, n: nat)
    requires 1 <= n <= |vals|
    ensures forall j :: 0 <= j < n ==> vals[j] <= vals[FirstMax(vals, n)]
    ensures forall j :: 0 <= j < FirstMax(vals, n) ==> vals[j] < vals[FirstMax(vals, n)]
  {
    if n > 1 {
      FirstMaxIsFirst(vals, n - 1);
    }
  }

  /** The backup at (t, s): the first feasible action of greatest value against the next layer. */
  function BackupAt(M: Tables, t: nat, s: nat, next: seq<Backup>): (r: Backup)
    requires WellFormed(M) && t < M.T && s < M.S && NextCovers(M, t, next)
  {
    var fa := Feasible(M, t, s);
    var i := FirstMax(ActionValues(M, t, s, next, |fa|), |fa|);
    Backup(Q(M, t, s, fa[i], next).value, Q(M, t, s, fa[i], next).reward, fa[i])
  }

  /** The backups of the states 0 .. n-1 at time t. */
  function LayerUpTo(M: Tables, t: nat, next: seq<Backup>, n: nat): (layer: seq<Backup>)
    requires WellFormed(M) && t < M.T && NextCovers(M, t, next) && n <= M.S
    ensures |layer| == n
  {
    if n == 0 then [] else LayerUpTo(M, t, next, n - 1) + [BackupAt(M, t, n - 1, next)]
  }

  lemma {:induction false} LayerUpToAt(M: Tables, t: nat, next: seq<Backup>, n: nat, s: nat)
    requires WellFormed(M) && t < M.T && NextCovers(M, t, next) && s < n <= M.S
    ensures LayerUpTo(M, t, next, n)[s] == BackupAt(M, t, s, next)
  {
    if s < n - 1 {
      LayerUpToAt(M, t, next, n - 1, s);
    }
  }

  /** Vvalue[t], Vreward[t] and pi[t] of backward induction, from time T-1 down to t. */
  function Layer(M: Tables, t: nat): (layer: seq<Backup>)
    requires WellFormed(M) && t < M.T
    ensures |layer| == M.S
    decreases M.T - t
  {
    if t == M.T - 1 then LayerUpTo(M, t, [], M.S)
    else LayerUpTo(M, t, Layer(M, t + 1), M.S)
  }

  /** The layer that time t is backed up against (unused at the last decision). */
  function NextLayer(M: Tables, t: nat): (next: seq<Backup>)
    requires WellFormed(M) && t < M.T
    ensures NextCovers(M, t, next)
  {
    if t == M.T - 1 then [] else Layer(M, t + 1)
  }

  /** The optimal backup at (t, s). */
  function Opt(M: Tables, t: nat, s: nat): (r: Backup)
    requires WellFormed(M) && t < M.T && s < M.S
  {
    Layer(M, t)[s]
  }

  /** Opt is the backup of (t, s) against the next layer, and its action is feasible. */
  lemma OptUnfold(M: Tables, t: nat, s: nat)
    requires WellFormed(M) && t < M.T && s < M.S
    ensures Opt(M, t, s) == BackupAt(M, t, s, NextLayer(M, t))
    ensures Opt(M, t, s).action in Feasible(M, t, s)
  {
    LayerUpToAt(M, t, NextLayer(M, t), M.S, s);
  }

  /**
   * The backup at (t, s) is attained by its own action, is at least the value
   * of every feasible action, and beats every action listed before its own
   * strictly: ties go to the earliest feasible action.
   */
  lemma OptIsFirstMax(M: Tables, t: nat, s: nat)
    requires WellFormed(M) && t < M.T && s < M.S
    ensures Opt(M, t, s).action in Feasible(M, t, s)
    ensures var r := Opt(M, t, s);
      Pair(r.value, r.reward) == Q(M, t, s, r.action, NextLayer(M, t))
    ensures forall a :: a in Feasible(M, t, s) ==> Q(M, t, s, a, NextLayer(M, t)).value <= Opt(M, t, s).value
    ensures var fa := Feasible(M, t, s);
      exists i :: 0 <= i < |fa| && fa[i] == Opt(M, t, s).action &&
        forall j :: 0 <= j < i ==> Q(M, t, s, fa[j], NextLayer(M, t)).value < Opt(M, t, s).value
  {
    var fa := Feasible(M, t, s);
    var next := NextLayer(M, t);
    var vals := ActionValues(M, t, s, next, |fa|);
    OptUnfold(M, t, s);
    ActionValuesAt(M, t, s, next, |fa|);
    FirstMaxIsFirst(vals, |fa|);
    forall a | a in fa
      ensures Q(M, t, s, a, next).value <= Opt(M, t, s).value
    {
      var j :| 0 <= j < |fa| && fa[j] == a;
    }
  }

  /**
   * At the last decision there is no continuation: the value of an action is
   * (sum of its probabilities) times its one-step Lagrangian reward, and its
   * total reward is that sum times the one-step reward.
   */
  lemma {:induction false} LastStepNoContinuation(M: Tables, s: nat, a: int, next: seq<Backup>, n: nat)
    requires WellFormed(M) && s < M.S && a in Feasible(M, M.T - 1, s)
    requires n <= |Dest(M, M.T - 1, s, a)|
    ensures var t := M.T - 1;
      QPartial(M, t, s, a, next, n) ==
        Pair(Times(Sum(Prob(M, t, s, a)[..n]), Lagrangian(M, t, s, a, M.lambda.Count())),
             Times(Sum(Prob(M, t, s, a)[..n]), Reward(M, t, s, a)))
  {
    if n > 0 {
      var t := M.T - 1;
      var p := Prob(M, t, s, a);
      var val := Lagrangian(M, t, s, a, M.lambda.Count());
      var r := Reward(M, t, s, a);
      var before := QPartial(M, t, s, a, next, n - 1);
      var after := QPartial(M, t, s, a, next, n);
      assert after == Pair(before.value + Times(p[n - 1], val), before.reward + Times(p[n - 1], r));
      var s0, s1 := Sum(p[..n - 1]), Sum(p[..n]);
      assert s1 == s0 + p[n - 1] by {
        SumPrefixStep(p, n - 1);
      }
      assert before == Pair(Times(s0, val), Times(s0, r)) by {
        LastStepNoContinuation(M, s, a, next, n - 1);
      }
      assert after.value == Times(s1, val) by {
        ScaledStep(before.value, after.value, s0, s1, p[n - 1], val, 0.0, 0.0, 0.0);
      }
      assert after.reward == Times(s1, r) by {
        ScaledStep(before.reward, after.reward, s0, s1, p[n - 1], r, 0.0, 0.0, 0.0);
      }
    }
  }

  /**
   * One more term of a probability-weighted sum: from s0 * c + g0, adding
   * x * (c + y) gives s1 * c + g1 with s1 = s0 + x and g1 = g0 + x * y.
   */
  lemma ScaledStep(before: real, after: real, s0: real, s1: real, x: real, c: real, y: real, g0: real, g1: real)
    requires before == Times(s0, c) + g0 && after == before + Times(x, c + y)
    requires s1 == s0 + x && g1 == g0 + Times(x, y)
    ensures after == Times(s1, c) + g1
  {
  }

  /** Sum over the first n successors j of prob_j * (total reward of the next layer at dest_j). */
  function RewardToGo(M: Tables, t: nat, s: nat, a: int, next: seq<Backup>, n: nat): real
    requires WellFormed(M) && t < M.T - 1 && s < M.S && a in Feasible(M, t, s) && |next| == M.S
    requires n <= |Dest(M, t, s, a)|
  {
    if n == 0 then 0.0
    else RewardToGo(M, t, s, a, next, n - 1) + Times(Prob(M, t, s, a)[n - 1], next[Dest(M, t, s, a)[n - 1]].reward)
  }

  /**
   * Before the last decision the total reward of an action is its unweighted
   * one-step reward (times the probability mass) plus the expected total
   * reward of the next layer; the multipliers do not enter it.
   */
  lemma {:induction false} RewardIsUnweighted(M: Tables, t: nat, s: nat, a: int, next: seq<Backup>, n: nat)
    requires WellFormed(M) && t < M.T - 1 && s < M.S && a in Feasible(M, t, s) && |next| == M.S
    requires n <= |Dest(M, t, s, a)|
    ensures QPartial(M, t, s, a, next, n).reward ==
      Times(Sum(Prob(M, t, s, a)[..n]), Reward(M, t, s, a)) + RewardToGo(M, t, s, a, next, n)
  {
    if n > 0 {
      var p := Prob(M, t, s, a);
      var r := Reward(M, t, s, a);
      var y := next[Dest(M, t, s, a)[n - 1]].reward;
      var before := QPartial(M, t, s, a, next, n - 1).reward;
      var after := QPartial(M, t, s, a, next, n).reward;
      assert after == before + Times(p[n - 1], r + y);
      var s0, s1 := Sum(p[..n - 1]), Sum(p[..n]);
      var g0, g1 := RewardToGo(M, t, s, a, next, n - 1), RewardToGo(M, t, s, a, next, n);
      assert s1 == s0 + p[n - 1] by {
        SumPrefixStep(p, n - 1);
      }
      assert g1 == g0 + Times(p[n - 1], y);
      assert before == Times(s0, r) + g0 by {
        RewardIsUnweighted(M, t, s, a, next, n - 1);
      }
      assert after == Times(s1, r) + g1 by {
        ScaledStep(before, after, s0, s1, p[n - 1], r, y, g0, g1);
      }
    }
  }

  // ---------------------------------------------------------------------------
  // The forward pass, for a policy table pol[t][s]

  /** pol chooses a feasible action at every (t, s) of the horizon. */
  predicate PolicyFeasible(M: Tables, pol: seq<seq<int>>)
    requires WellFormed(M)
  {
    |pol| == M.T && (forall t :: 0 <= t < M.T ==> |pol[t]| == M.S) &&
    forall t, s :: 0 <= t < M.T && 0 <= s < M.S ==> pol[t][s] in Feasible(M, t, s)
  }

  /** The clamp `if (p < 0) p = 0; if (p > 1) p = 1;` applied to every entry. */
  function ClampAll(row: seq<real>): (r: seq<real>)
    ensures |r| == |row| && InUnit(r)
    ensures forall i :: 0 <= i < |row| ==> r[i] == Clamp01(row[i])
  {
    seq(|row|, i requires 0 <= i < |row| => Clamp01(row[i]))
  }

  /**
   * row after adding x * prob[j] at dest[j] for j = 0 .. n-1. Under
   * WellFormed every destination read is a state, so the range test never
   * skips an entry; it only makes the function total.
   */
  function Scatter(row: seq<real>, dest: seq<int>, prob: seq<real>, x: real, n: nat): (r: seq<real>)
    requires n <= |dest| == |prob|
    ensures |r| == |row|
  {
    if n == 0 then row
    else
      var prev := Scatter(row, dest, prob, x, n - 1);
      if 0 <= dest[n - 1] < |prev| then prev[dest[n - 1] := prev[dest[n - 1]] + x * prob[n - 1]] else prev
  }

  /** One more successor adds its share of x at its destination. */
  lemma ScatterStep(row: seq<real>, dest: seq<int>, prob: seq<real>, x: real, n: nat)
    requires n < |dest| == |prob| && 0 <= dest[n] < |row|
    ensures var prev := Scatter(row, dest, prob, x, n);
      Scatter(row, dest, prob, x, n + 1) == prev[dest[n] := prev[dest[n]] + x * prob[n]]
  {
  }

  /** The probabilities at time 0: 1 on the initial state, 0 elsewhere. */
  function InitialRow(M: Tables): (r: seq<real>)
    requires 0 <= M.init < M.S
    ensures |r| == M.S
  {
    Zeros(M.S)[M.init := 1.0]
  }

  /**
   * The probabilities at time t + 1 once the states 0 .. n-1 of time t have
   * been processed: each adds its mass along the transitions of its policy
   * action, and the whole next row is clamped after each state.
   */
  function Step(M: Tables, pol: seq<seq<int>>, t: nat, row: seq<real>, n: nat): (r: seq<real>)
    requires WellFormed(M) && PolicyFeasible(M, pol) && t < M.T - 1 && |row| == M.S && n <= M.S
    ensures |r| == M.S
  {
    if n == 0 then Zeros(M.S)
    else
      var a := pol[t][n - 1];
      ClampAll(Scatter(Step(M, pol, t, row, n - 1), Dest(M, t, n - 1, a), Prob(M, t, n - 1, a), row[n - 1], |Dest(M, t, n - 1, a)|))
  }

  /** Processing state n with its policy action a and mass x = row[n] scatters and clamps the next row. */
  lemma StepNext(M: Tables, pol: seq<seq<int>>, t: nat, row: seq<real>, n: nat, a: int, x: real, before: seq<real>, after: seq<real>)
    requires WellFormed(M) && PolicyFeasible(M, pol) && t < M.T - 1 && |row| == M.S && n < M.S
    requires a == pol[t][n] && x == row[n] && before == Step(M, pol, t, row, n)
    requires after == ClampAll(Scatter(before, Dest(M, t, n, a), Prob(M, t, n, a), x, |Dest(M, t, n, a)|))
    ensures after == Step(M, pol, t, row, n + 1)
  {
  }

  /** Sum over the first n states of row[s] * c_k(s, pol(t, s)), row holding the probabilities of time t. */
  function InstPartial(M: Tables, pol: seq<seq<int>>, k: nat, t: nat, row: seq<real>, n: nat): real
    requires WellFormed(M) && PolicyFeasible(M, pol) && k < M.NC() && t < M.T && n <= |row| == M.S
  {
    if n == 0 then 0.0
    else InstPartial(M, pol, k, t, row, n - 1) + Times(row[n - 1], Cost(M, k, n - 1, pol[t][n - 1]))
  }

  /** State n adds row[n] times its cost. */
  lemma InstPartialNext(M: Tables, pol: seq<seq<int>>, k: nat, t: nat, row: seq<real>, n: nat)
    requires WellFormed(M) && PolicyFeasible(M, pol) && k < M.NC() && t < M.T && n < |row| == M.S
    ensures InstPartial(M, pol, k, t, row, n + 1) == InstPartial(M, pol, k, t, row, n) + Times(row[n], Cost(M, k, n, pol[t][n]))
  {
  }

  /**
   * The state of the forward pass: the state probabilities of the times
   * reached so far, the expected costs cols[t][k] of each time processed, and
   * the running totals of expectedTotalCost.
   */
  datatype Forward = Forward(rows: seq<seq<real>>, cols: seq<seq<real>>, totals: seq<real>)

  /** The shape of the pass state once the times 0 .. t-1 have been processed. */
  predicate Shaped(M: Tables, t: nat, F: Forward) {
    t <= M.T && |F.rows| == (if t < M.T then t + 1 else M.T) && |F.cols| == t && |F.totals| == M.NC() &&
    (forall i :: 0 <= i < |F.rows| ==> |F.rows[i]| == M.S) &&
    (forall i :: 0 <= i < t ==> |F.cols[i]| == M.NC())
  }

  /** Before the time loop: the point mass on the initial state and zero totals. */
  function InitialForward(M: Tables): (F: Forward)
    requires WellFormed(M)
    ensures Shaped(M, 0, F)
  {
    Forward([InitialRow(M)], [], Zeros(M.NC()))
  }

  /** The expected cost of every resource at time t, row holding the probabilities of time t. */
  function CostsAt(M: Tables, pol: seq<seq<int>>, t: nat, row: seq<real>): (c: seq<real>)
    requires WellFormed(M) && PolicyFeasible(M, pol) && t < M.T && |row| == M.S
    ensures |c| == M.NC() && forall k :: 0 <= k < M.NC() ==> c[k] == InstPartial(M, pol, k, t, row, M.S)
  {
    seq(M.NC(), k requires 0 <= k < M.NC() => InstPartial(M, pol, k, t, row, M.S))
  }

  function AddTo(totals: seq<real>, c: seq<real>): (r: seq<real>)
    requires |totals| == |c|
    ensures |r| == |c| && forall k :: 0 <= k < |c| ==> r[k] == totals[k] + c[k]
  {
    seq(|c|, k requires 0 <= k < |c| => totals[k] + c[k])
  }

  /** One iteration of the time loop: costs of time t, totals, and the row of time t + 1 unless t is the last. */
  function Advance(M: Tables, pol: seq<seq<int>>, t: nat, F: Forward): (G: Forward)
    requires WellFormed(M) && PolicyFeasible(M, pol) && t < M.T && Shaped(M, t, F)
    ensures Shaped(M, t + 1, G)
  {
    var row := F.rows[t];
    var c := CostsAt(M, pol, t, row);
    Forward(if t < M.T - 1 then F.rows + [Step(M, pol, t, row, M.S)] else F.rows, F.cols + [c], AddTo(F.totals, c))
  }

  /** The iterations t .. T-1 of the time loop, from the state F. */
  function ForwardFrom(M: Tables, pol: seq<seq<int>>, t: nat, F: Forward): (R: Forward)
    requires WellFormed(M) && PolicyFeasible(M, pol) && Shaped(M, t, F)
    ensures Shaped(M, M.T, R)
    decreases M.T - t
  {
    if t == M.T then F else ForwardFrom(M, pol, t + 1, Advance(M, pol, t, F))
  }

  /** stateProbabilities, expectedInstantaneousCost (by time) and expectedTotalCost at the end of the pass. */
  function ForwardOf(M: Tables, pol: seq<seq<int>>): (R: Forward)
    requires WellFormed(M) && PolicyFeasible(M, pol)
    ensures Shaped(M, M.T, R)
  {
    ForwardFrom(M, pol, 0, InitialForward(M))
  }

  /** Entry k of every row of cols: the per-time costs of resource k. */
  function Column(cols: seq<seq<real>>, k: nat): (r: seq<real>)
    requires forall i :: 0 <= i < |cols| ==> k < |cols[i]|
    ensures |r| == |cols| && forall i :: 0 <= i < |cols| ==> r[i] == cols[i][k]
  {
    seq(|cols|, i requires 0 <= i < |cols| => cols[i][k])
  }

  /**
   * What the pass state means: time 0 is the point mass on the initial
   * state, each later row is the clamped propagation of the previous one
   * under pol, the expected cost of resource k at time t is
   * sum_s p_t(s) c_k(s, pol(t, s)), and each total is the sum over time of
   * the expected costs of its resource.
   */
  predicate Consistent(M: Tables, pol: seq<seq<int>>, t: nat, F: Forward)
    requires WellFormed(M) && PolicyFeasible(M, pol) && Shaped(M, t, F)
  {
    RowsConsistent(M, pol, t, F) && ColsConsistent(M, pol, t, F) && TotalsConsistent(M, t, F)
  }

  predicate RowsConsistent(M: Tables, pol: seq<seq<int>>, t: nat, F: Forward)
    requires WellFormed(M) && PolicyFeasible(M, pol) && Shaped(M, t, F)
  {
    F.rows[0] == InitialRow(M) &&
    forall i :: 1 <= i < |F.rows| ==> F.rows[i] == Step(M, pol, i - 1, F.rows[i - 1], M.S)
  }

  predicate ColsConsistent(M: Tables, pol: seq<seq<int>>, t: nat, F: Forward)
    requires WellFormed(M) && PolicyFeasible(M, pol) && Shaped(M, t, F)
  {
    forall i, k :: 0 <= i < t && 0 <= k < M.NC() ==> F.cols[i][k] == InstPartial(M, pol, k, i, F.rows[i], M.S)
  }

  predicate TotalsConsistent(M: Tables, t: nat, F: Forward)
    requires Shaped(M, t, F)
  {
    forall k :: 0 <= k < M.NC() ==> F.totals[k] == Sum(Column(F.cols, k))
  }

  /** One iteration of the time loop keeps the state consistent. */
  lemma AdvanceConsistent(M: Tables, pol: seq<seq<int>>, t: nat, F: Forward)
    requires WellFormed(M) && PolicyFeasible(M, pol) && t < M.T && Shaped(M, t, F)
    requires Consistent(M, pol, t, F)
    ensures Consistent(M, pol, t + 1, Advance(M, pol, t, F))
  {
    AdvanceRows(M, pol, t, F);
    AdvanceCols(M, pol, t, F);
    AdvanceTotals(M, pol, t, F);
  }

  lemma AdvanceRows(M: Tables, pol: seq<seq<int>>, t: nat, F: Forward)
    requires WellFormed(M) && PolicyFeasible(M, pol) && t < M.T && Shaped(M, t, F)
    requires RowsConsistent(M, pol, t, F)
    ensures RowsConsistent(M, pol, t + 1, Advance(M, pol, t, F))
  {
    var G := Advance(M, pol, t, F);
    forall i | 1 <= i < |G.rows|
      ensures G.rows[i] == Step(M, pol, i - 1, G.rows[i - 1], M.S)
    {
      if i < |F.rows| {
        assert G.rows[i] == F.rows[i] && G.rows[i - 1] == F.rows[i - 1];
      }
    }
  }

  lemma AdvanceCols(M: Tables, pol: seq<seq<int>>, t: nat, F: Forward)
    requires WellFormed(M) && PolicyFeasible(M, pol) && t < M.T && Shaped(M, t, F)
    requires ColsConsistent(M, pol, t, F)
    ensures ColsConsistent(M, pol, t + 1, Advance(M, pol, t, F))
  {
    var G := Advance(M, pol, t, F);
    forall i, k | 0 <= i < t + 1 && 0 <= k < M.NC()
      ensures G.cols[i][k] == InstPartial(M, pol, k, i, G.rows[i], M.S)
    {
      assert G.rows[i] == F.rows[i];
    }
  }

  lemma AdvanceTotals(M: Tables, pol: seq<seq<int>>, t: nat, F: Forward)
    requires WellFormed(M) && PolicyFeasible(M, pol) && t < M.T && Shaped(M, t, F)
    requires TotalsConsistent(M, t, F)
    ensures TotalsConsistent(M, t + 1, Advance(M, pol, t, F))
  {
    var G := Advance(M, pol, t, F);
    forall k | 0 <= k < M.NC()
      ensures G.totals[k] == Sum(Column(G.cols, k))
    {
      assert Column(G.cols, k) == Column(F.cols, k) + [G.cols[t][k]];
      SumAppend(Column(F.cols, k), G.cols[t][k]);
    }
  }

  /** The remaining iterations keep the state consistent. */
  lemma {:induction false} ForwardFromConsistent(M: Tables, pol: seq<seq<int>>, t: nat, F: Forward)
    requires WellFormed(M) && PolicyFeasible(M, pol) && Shaped(M, t, F)
    requires Consistent(M, pol, t, F)
    ensures Consistent(M, pol, M.T, ForwardFrom(M, pol, t, F))
    decreases M.T - t
  {
    if t < M.T {
      AdvanceConsistent(M, pol, t, F);
      ForwardFromConsistent(M, pol, t + 1, Advance(M, pol, t, F));
    }
  }

  /** The end state of the pass is consistent: the costs are expected costs and the totals their sums. */
  lemma ForwardOfConsistent(M: Tables, pol: seq<seq<int>>)
    requires WellFormed(M) && PolicyFeasible(M, pol)
    ensures Consistent(M, pol, M.T, ForwardOf(M, pol))
  {
    var F := InitialForward(M);
    forall k | 0 <= k < M.NC()
      ensures F.totals[k] == Sum(Column(F.cols, k))
    {
      assert Column(F.cols, k) == [];
    }
    ForwardFromConsistent(M, pol, 0, F);
  }

  /** Every probability the pass propagates lies in [0, 1]. */
  lemma ForwardInUnit(M: Tables, pol: seq<seq<int>>)
    requires WellFormed(M) && PolicyFeasible(M, pol)
    ensures forall t :: 0 <= t < M.T ==> InUnit(ForwardOf(M, pol).rows[t])
  {
    ForwardOfConsistent(M, pol);
    var R := ForwardOf(M, pol);
    forall t | 0 <= t < M.T
      ensures InUnit(R.rows[t])
    {
      if t == 0 {
        assert R.rows[0] == InitialRow(M);
      } else {
        assert R.rows[t] == Step(M, pol, t - 1, R.rows[t - 1], M.S);
      }
    }
  }

  // ---------------------------------------------------------------------------
  // The methods

  /** The loop computing `val` for one successor. */
  method LagrangianLoop(M: Tables, t: nat, s: nat, a: int) returns (val: real)
    requires WellFormed(M) && t < M.T && s < M.S && 0 <= a < M.A
    ensures val == Lagrangian(M, t, s, a, M.lambda.Count())
  {
    val := M.reward[t][s][a];
    var k := 0;
    while k < M.lambda.Count()
      invariant 0 <= k <= M.lambda.Count()
      invariant val == Lagrangian(M, t, s, a, k)
    {
      val := val + -1.0 * M.lambda.Weight(k, t) * M.cost[k][s][a];
      k := k + 1;
    }
  }

  /** Row t + 1 of Vvalue and Vreward holds the next layer. */
  ghost predicate HoldsNext(M: Tables, t: nat, next: seq<Backup>, Vvalue: array2<real>, Vreward: array2<real>)
    reads Vvalue, Vreward
    requires Vvalue.Length0 == M.T && Vvalue.Length1 == M.S
    requires Vreward.Length0 == M.T && Vreward.Length1 == M.S
  {
    t < M.T - 1 ==> (|next| == M.S &&
      forall s' :: 0 <= s' < M.S ==> Vvalue[t + 1, s'] == next[s'].value && Vreward[t + 1, s'] == next[s'].reward)
  }

  /** The successor loop of one action, reading the next layer from row t + 1 of Vvalue and Vreward. */
  method EvaluateAction(M: Tables, t: nat, s: nat, a: int, Vvalue: array2<real>, Vreward: array2<real>, ghost next: seq<Backup>)
    returns (currentVal: real, currentReward: real)
    requires WellFormed(M) && t < M.T && s < M.S && a in Feasible(M, t, s) && NextCovers(M, t, next)
    requires Vvalue.Length0 == M.T && Vvalue.Length1 == M.S
    requires Vreward.Length0 == M.T && Vreward.Length1 == M.S
    requires HoldsNext(M, t, next, Vvalue, Vreward)
    ensures Pair(currentVal, currentReward) == Q(M, t, s, a, next)
  {
    var destinations := M.dest[t][s][a];
    var probabilities := M.prob[t][s][a];
    currentVal := 0.0;
    currentReward := 0.0;
    assert destinations == Dest(M, t, s, a) && probabilities == Prob(M, t, s, a) && |destinations| == |probabilities|;
    var j := 0;
    while j < |destinations|
      invariant 0 <= j <= |destinations|
      invariant Pair(currentVal, currentReward) == QPartial(M, t, s, a, next, j)
    {
      var sNext := destinations[j];
      var prob := probabilities[j];
      var val := LagrangianLoop(M, t, s, a);
      if t == M.T - 1 {
        currentVal := currentVal + Times(prob, val);
        currentReward := currentReward + Times(prob, M.reward[t][s][a]);
      } else {
        currentVal := currentVal + Times(prob, val + Vvalue[t + 1, sNext]);
        currentReward := currentReward + Times(prob, M.reward[t][s][a] + Vreward[t + 1, sNext]);
      }
      j := j + 1;
    }
  }

  /** The action loop at (t, s): maxVal starts at minus infinity and moves only on a strictly greater value. */
  method BestAction(M: Tables, t: nat, s: nat, Vvalue: array2<real>, Vreward: array2<real>, ghost next: seq<Backup>)
    returns (maxVal: real, maxReward: real, maxAction: int)
    requires WellFormed(M) && t < M.T && s < M.S && NextCovers(M, t, next)
    requires Vvalue.Length0 == M.T && Vvalue.Length1 == M.S
    requires Vreward.Length0 == M.T && Vreward.Length1 == M.S
    requires HoldsNext(M, t, next, Vvalue, Vreward)
    ensures Backup(maxVal, maxReward, maxAction) == BackupAt(M, t, s, next)
  {
    var fa := M.feasible[t][s];
    ghost var vals := ActionValues(M, t, s, next, |fa|);
    ActionValuesAt(M, t, s, next, |fa|);
    var best: XReal := NegInf;
    maxReward := 0.0;
    maxAction := -1;
    var i := 0;
    while i < |fa|
      invariant 0 <= i <= |fa|
      invariant i == 0 ==> best == NegInf
      invariant i > 0 ==> (best == Finite(vals[FirstMax(vals, i)]) &&
        maxReward == Q(M, t, s, fa[FirstMax(vals, i)], next).reward && maxAction == fa[FirstMax(vals, i)])
    {
      var a := fa[i];
      var currentVal, currentReward := EvaluateAction(M, t, s, a, Vvalue, Vreward, next);
      if Less(best, Finite(currentVal)) {
        best := Finite(currentVal);
        maxReward := currentReward;
        maxAction := a;
      }
      i := i + 1;
    }
    maxVal := best.value;
  }

  /** Vvalue[t'], Vreward[t'] and pi[t'] hold Layer(t') for every t' >= t. */
  ghost predicate FilledFrom(M: Tables, t: nat, Vvalue: array2<real>, Vreward: array2<real>, pi: array2<int>)
    reads Vvalue, Vreward, pi
    requires WellFormed(M)
    requires Vvalue.Length0 == M.T && Vvalue.Length1 == M.S
    requires Vreward.Length0 == M.T && Vreward.Length1 == M.S
    requires pi.Length0 == M.T && pi.Length1 == M.S
  {
    forall t', s' :: t <= t' < M.T && 0 <= s' < M.S ==>
      Backup(Vvalue[t', s'], Vreward[t', s'], pi[t', s']) == Opt(M, t', s')
  }

  /** One pass of the state loop at time t, against the already filled rows t + 1 .. T-1. */
  method BackupLayer(M: Tables, t: nat, Vvalue: array2<real>, Vreward: array2<real>, pi: array2<int>)
    requires WellFormed(M) && t < M.T
    requires Vvalue.Length0 == M.T && Vvalue.Length1 == M.S
    requires Vreward.Length0 == M.T && Vreward.Length1 == M.S
    requires pi.Length0 == M.T && pi.Length1 == M.S
    requires Vvalue != Vreward
    requires FilledFrom(M, t + 1, Vvalue, Vreward, pi)
    modifies Vvalue, Vreward, pi
    ensures FilledFrom(M, t, Vvalue, Vreward, pi)
  {
    ghost var next := NextLayer(M, t);
    assert HoldsNext(M, t, next, Vvalue, Vreward) by {
      if t < M.T - 1 {
        forall s' | 0 <= s' < M.S
          ensures Vvalue[t + 1, s'] == next[s'].value && Vreward[t + 1, s'] == next[s'].reward
        {
          assert Backup(Vvalue[t + 1, s'], Vreward[t + 1, s'], pi[t + 1, s']) == Opt(M, t + 1, s');
        }
      }
    }
    var s := 0;
    while s < M.S
      invariant 0 <= s <= M.S
      invariant forall t', s' :: 0 <= t' < M.T && t' != t && 0 <= s' < M.S ==>
        Vvalue[t', s'] == old(Vvalue[t', s']) && Vreward[t', s'] == old(Vreward[t', s']) && pi[t', s'] == old(pi[t', s'])
      invariant forall s' :: 0 <= s' < s ==> Backup(Vvalue[t, s'], Vreward[t, s'], pi[t, s']) == Opt(M, t, s')
    {
      var v, r, a := BestAction(M, t, s, Vvalue, Vreward, next);
      OptUnfold(M, t, s);
      Vvalue[t, s] := v;
      Vreward[t, s] := r;
      pi[t, s] := a;
      s := s + 1;
    }
  }

  /** The backward loop from t = T-1 down to 0, filling Vvalue, Vreward and pi. */
  method BackwardInduction(M: Tables) returns (Vvalue: array2<real>, Vreward: array2<real>, pi: array2<int>)
    requires WellFormed(M)
    ensures fresh(Vvalue) && fresh(Vreward) && fresh(pi)
    ensures Vvalue.Length0 == M.T && Vvalue.Length1 == M.S
    ensures Vreward.Length0 == M.T && Vreward.Length1 == M.S
    ensures pi.Length0 == M.T && pi.Length1 == M.S
    ensures FilledFrom(M, 0, Vvalue, Vreward, pi)
  {
    Vvalue := new real[M.T, M.S];
    Vreward := new real[M.T, M.S];
    pi := new int[M.T, M.S];
    var t := M.T;
    while t > 0
      invariant 0 <= t <= M.T
      invariant FilledFrom(M, t, Vvalue, Vreward, pi)
    {
      t := t - 1;
      BackupLayer(M, t, Vvalue, Vreward, pi);
    }
  }

  /** Row t of a two-dimensional array as a sequence. */
  function RowOf(a: array2<real>, t: nat): (r: seq<real>)
    reads a
    requires t < a.Length0
    ensures |r| == a.Length1 && forall i :: 0 <= i < a.Length1 ==> r[i] == a[t, i]
  {
    seq(a.Length1, i reads a requires 0 <= i < a.Length1 => a[t, i])
  }

  /** The scatter loop and the clamp loop of one state, writing row t + 1 of stateProbabilities. */
  method Propagate(M: Tables, t: nat, s: nat, a: int, sp: array2<real>)
    requires WellFormed(M) && t < M.T - 1 && s < M.S && a in Feasible(M, t, s)
    requires sp.Length0 == M.T && sp.Length1 == M.S
    modifies sp
    ensures RowOf(sp, t + 1) ==
      ClampAll(Scatter(old(RowOf(sp, t + 1)), Dest(M, t, s, a), Prob(M, t, s, a), sp[t, s], |Dest(M, t, s, a)|))
    ensures forall t', i :: 0 <= t' < M.T && t' != t + 1 && 0 <= i < M.S ==> sp[t', i] == old(sp[t', i])
  {
    var destinations := M.dest[t][s][a];
    var probabilities := M.prob[t][s][a];
    var x := sp[t, s];
    ghost var start := RowOf(sp, t + 1);
    var j := 0;
    while j < |destinations|
      invariant 0 <= j <= |destinations|
      invariant RowOf(sp, t + 1) == Scatter(start, destinations, probabilities, x, j)
      invariant forall t', i :: 0 <= t' < M.T && t' != t + 1 && 0 <= i < M.S ==> sp[t', i] == old(sp[t', i])
    {
      var sNext := destinations[j];
      assert 0 <= sNext < M.S;
      ghost var before := RowOf(sp, t + 1);
      sp[t + 1, sNext] := sp[t + 1, sNext] + x * probabilities[j];
      assert RowOf(sp, t + 1) == before[sNext := before[sNext] + x * probabilities[j]];
      ScatterStep(start, destinations, probabilities, x, j);
      j := j + 1;
    }
    ghost var scattered := RowOf(sp, t + 1);
    var sNext := 0;
    while sNext < M.S
      invariant 0 <= sNext <= M.S
      invariant forall i :: 0 <= i < sNext ==> sp[t + 1, i] == Clamp01(scattered[i])
      invariant forall i :: sNext <= i < M.S ==> sp[t + 1, i] == scattered[i]
      invariant forall t', i :: 0 <= t' < M.T && t' != t + 1 && 0 <= i < M.S ==> sp[t', i] == old(sp[t', i])
    {
      if sp[t + 1, sNext] < 0.0 {
        sp[t + 1, sNext] := 0.0;
      }
      if sp[t + 1, sNext] > 1.0 {
        sp[t + 1, sNext] := 1.0;
      }
      sNext := sNext + 1;
    }
    assert RowOf(sp, t + 1) == ClampAll(scattered);
  }

  /** The k loop of one state: adds x * c_k(s, a) to expectedInstantaneousCost[k][t] and expectedTotalCost[k]. */
  method AccumulateCosts(M: Tables, t: nat, s: nat, a: int, x: real, inst: array2<real>, total: array<real>)
    requires WellFormed(M) && t < M.T && s < M.S && 0 <= a < M.A
    requires inst.Length0 == M.NC() && inst.Length1 == M.T && total.Length == M.NC()
    modifies inst, total
    ensures forall k :: 0 <= k < M.NC() ==>
      inst[k, t] == old(inst[k, t]) + Times(x, Cost(M, k, s, a)) && total[k] == old(total[k]) + Times(x, Cost(M, k, s, a))
    ensures forall k, t' :: 0 <= k < M.NC() && 0 <= t' < M.T && t' != t ==> inst[k, t'] == old(inst[k, t'])
  {
    var k := 0;
    while k < M.NC()
      invariant 0 <= k <= M.NC()
      invariant forall k' :: 0 <= k' < k ==>
        inst[k', t] == old(inst[k', t]) + Times(x, Cost(M, k', s, a)) && total[k'] == old(total[k']) + Times(x, Cost(M, k', s, a))
      invariant forall k' :: k <= k' < M.NC() ==> inst[k', t] == old(inst[k', t]) && total[k'] == old(total[k'])
      invariant forall k', t' :: 0 <= k' < M.NC() && 0 <= t' < M.T && t' != t ==> inst[k', t'] == old(inst[k', t'])
    {
      inst[k, t] := inst[k, t] + x * M.cost[k][s][a];
      total[k] := total[k] + x * M.cost[k][s][a];
      k := k + 1;
    }
  }

  /** Rows t + 1 .. T-1 of stateProbabilities are still zero and columns t .. T-1 of the costs are still zero. */
  ghost predicate ForwardReady(M: Tables, t: nat, sp: array2<real>, inst: array2<real>)
    reads sp, inst
    requires sp.Length0 == M.T && sp.Length1 == M.S
    requires inst.Length0 == M.NC() && inst.Length1 == M.T
  {
    (forall t', i :: t < t' < M.T && 0 <= i < M.S ==> sp[t', i] == 0.0) &&
    (forall k, t' :: 0 <= k < M.NC() && t <= t' < M.T ==> inst[k, t'] == 0.0)
  }

  /** The state loop of the forward pass at time t. */
  method ForwardLayer(M: Tables, t: nat, pi: array2<int>, ghost pol: seq<seq<int>>, ghost row: seq<real>,
                      sp: array2<real>, inst: array2<real>, total: array<real>)
    requires WellFormed(M) && PolicyFeasible(M, pol) && t < M.T
    requires pi.Length0 == M.T && pi.Length1 == M.S
    requires forall t', s' :: 0 <= t' < M.T && 0 <= s' < M.S ==> pi[t', s'] == pol[t'][s']
    requires sp.Length0 == M.T && sp.Length1 == M.S && sp != inst
    requires inst.Length0 == M.NC() && inst.Length1 == M.T && total.Length == M.NC()
    requires RowOf(sp, t) == row
    requires ForwardReady(M, t, sp, inst)
    modifies sp, inst, total
    ensures t < M.T - 1 ==> RowOf(sp, t + 1) == Step(M, pol, t, row, M.S)
    ensures ForwardReady(M, t + 1, sp, inst)
    ensures forall k :: 0 <= k < M.NC() ==>
      inst[k, t] == InstPartial(M, pol, k, t, row, M.S) && total[k] == old(total[k]) + InstPartial(M, pol, k, t, row, M.S)
    ensures forall k, t' :: 0 <= k < M.NC() && 0 <= t' < M.T && t' != t ==> inst[k, t'] == old(inst[k, t'])
  {
    if t < M.T - 1 {
      assert RowOf(sp, t + 1) == Zeros(M.S);
    }
    var s := 0;
    while s < M.S
      invariant 0 <= s <= M.S
      invariant forall t', i :: 0 <= t' < M.T && t' != t + 1 && 0 <= i < M.S ==> sp[t', i] == old(sp[t', i])
      invariant t < M.T - 1 ==> RowOf(sp, t + 1) == Step(M, pol, t, row, s)
      invariant forall k, t' :: 0 <= k < M.NC() && 0 <= t' < M.T && t' != t ==> inst[k, t'] == old(inst[k, t'])
      invariant forall k :: 0 <= k < M.NC() ==>
        inst[k, t] == InstPartial(M, pol, k, t, row, s) && total[k] == old(total[k]) + InstPartial(M, pol, k, t, row, s)
    {
      assert sp[t, s] == row[s];
      var a := pi[t, s];
      AccumulateCosts(M, t, s, a, sp[t, s], inst, total);
      forall k | 0 <= k < M.NC()
        ensures InstPartial(M, pol, k, t, row, s + 1) == InstPartial(M, pol, k, t, row, s) + Times(row[s], Cost(M, k, s, a))
      {
        InstPartialNext(M, pol, k, t, row, s);
      }
      if t < M.T - 1 {
        ghost var before := RowOf(sp, t + 1);
        Propagate(M, t, s, a, sp);
        StepNext(M, pol, t, row, s, a, sp[t, s], before, RowOf(sp, t + 1));
      }
      s := s + 1;
    }
  }

  /** The arrays of the forward pass hold the state F of time t. */
  ghost predicate Holds(M: Tables, t: nat, F: Forward, sp: array2<real>, inst: array2<real>, total: array<real>)
    reads sp, inst, total
    requires sp.Length0 == M.T && sp.Length1 == M.S
    requires inst.Length0 == M.NC() && inst.Length1 == M.T && total.Length == M.NC()
    requires Shaped(M, t, F)
  {
    (t < M.T ==> RowOf(sp, t) == F.rows[t]) &&
    (forall k :: 0 <= k < M.NC() ==> total[k] == F.totals[k]) &&
    ForwardReady(M, t, sp, inst) &&
    (forall k, t' :: 0 <= k < M.NC() && 0 <= t' < t ==> inst[k, t'] == F.cols[t'][k])
  }

  method ForwardInit(M: Tables) returns (sp: array2<real>, inst: array2<real>, total: array<real>)
    requires WellFormed(M)
    ensures fresh(sp) && fresh(inst) && fresh(total) && sp != inst
    ensures sp.Length0 == M.T && sp.Length1 == M.S
    ensures inst.Length0 == M.NC() && inst.Length1 == M.T && total.Length == M.NC()
    ensures Holds(M, 0, InitialForward(M), sp, inst, total)
  {
    sp := new real[M.T, M.S];
    forall t, i | 0 <= t < M.T && 0 <= i < M.S {
      sp[t, i] := 0.0;
    }
    sp[0, M.init] := 1.0;
    assert RowOf(sp, 0) == InitialRow(M);
    inst := new real[M.NC(), M.T];
    forall k, t | 0 <= k < M.NC() && 0 <= t < M.T {
      inst[k, t] := 0.0;
    }
    total := new real[M.NC()](_ => 0.0);
  }

  /** One iteration of the time loop takes the arrays from the state F to Advance(F). */
  method ForwardStep(M: Tables, t: nat, pi: array2<int>, ghost pol: seq<seq<int>>, ghost F: Forward,
                     sp: array2<real>, inst: array2<real>, total: array<real>)
    requires WellFormed(M) && PolicyFeasible(M, pol) && t < M.T && Shaped(M, t, F)
    requires pi.Length0 == M.T && pi.Length1 == M.S
    requires forall t', s' :: 0 <= t' < M.T && 0 <= s' < M.S ==> pi[t', s'] == pol[t'][s']
    requires sp.Length0 == M.T && sp.Length1 == M.S && sp != inst
    requires inst.Length0 == M.NC() && inst.Length1 == M.T && total.Length == M.NC()
    requires Holds(M, t, F, sp, inst, total)
    modifies sp, inst, total
    ensures Holds(M, t + 1, Advance(M, pol, t, F), sp, inst, total)
  {
    ForwardLayer(M, t, pi, pol, F.rows[t], sp, inst, total);
  }

  /**
   * The forward pass over the policy in pi: stateProbabilities[0] is the
   * point mass on the initial state, and each state's expected costs are
   * accumulated before its mass is pushed to the next time step.
   */
  method ForwardPass(M: Tables, pi: array2<int>, ghost pol: seq<seq<int>>) returns (inst: array2<real>, total: array<real>)
    requires WellFormed(M) && PolicyFeasible(M, pol)
    requires pi.Length0 == M.T && pi.Length1 == M.S
    requires forall t, s :: 0 <= t < M.T && 0 <= s < M.S ==> pi[t, s] == pol[t][s]
    ensures fresh(inst) && fresh(total)
    ensures inst.Length0 == M.NC() && inst.Length1 == M.T && total.Length == M.NC()
    ensures forall k, t :: 0 <= k < M.NC() && 0 <= t < M.T ==> inst[k, t] == ForwardOf(M, pol).cols[t][k]
    ensures forall k :: 0 <= k < M.NC() ==> total[k] == ForwardOf(M, pol).totals[k]
  {
    var sp;
    sp, inst, total := ForwardInit(M);
    ghost var F := InitialForward(M);
    ghost var R := ForwardOf(M, pol);
    var t := 0;
    while t < M.T
      invariant 0 <= t <= M.T
      invariant Shaped(M, t, F) && ForwardFrom(M, pol, t, F) == R
      invariant Holds(M, t, F, sp, inst, total)
    {
      ForwardStep(M, t, pi, pol, F, sp, inst, total);
      F := Advance(M, pol, t, F);
      t := t + 1;
    }
    assert F == R;
  }

  /**
   * What solve promises: pi is the first-max policy of backward induction,
   * the reward is the total reward at the initial state at time 0, and the
   * costs are those of the forward pass of the returned policy.
   */
  ghost predicate SolvedBy(M: Tables, sol: MDPPolicyDeterministic)
    requires WellFormed(M)
  {
    |sol.pi| == M.T && (forall t :: 0 <= t < M.T ==> |sol.pi[t]| == M.S) &&
    (forall t, s :: 0 <= t < M.T && 0 <= s < M.S ==> sol.pi[t][s] == Opt(M, t, s).action) &&
    PolicyFeasible(M, sol.pi) &&
    sol.expectedReward == Opt(M, 0, M.init).reward &&
    |sol.expectedInstantaneousCost| == M.NC() &&
    (forall k :: 0 <= k < M.NC() ==> sol.expectedInstantaneousCost[k] == Column(ForwardOf(M, sol.pi).cols, k)) &&
    sol.expectedTotalCost == ForwardOf(M, sol.pi).totals
  }

  /** pi read out as a table, which chooses the first-max action of backward induction everywhere. */
  method PolicyTable(M: Tables, Vvalue: array2<real>, Vreward: array2<real>, pi: array2<int>) returns (pol: seq<seq<int>>)
    requires WellFormed(M)
    requires Vvalue.Length0 == M.T && Vvalue.Length1 == M.S
    requires Vreward.Length0 == M.T && Vreward.Length1 == M.S
    requires pi.Length0 == M.T && pi.Length1 == M.S
    requires FilledFrom(M, 0, Vvalue, Vreward, pi)
    ensures |pol| == M.T && forall t :: 0 <= t < M.T ==> |pol[t]| == M.S
    ensures forall t, s :: 0 <= t < M.T && 0 <= s < M.S ==> pol[t][s] == pi[t, s] == Opt(M, t, s).action
    ensures PolicyFeasible(M, pol)
  {
    pol := seq(M.T, t requires 0 <= t < M.T reads pi => seq(M.S, s requires 0 <= s < M.S reads pi => pi[t, s]));
    forall t, s | 0 <= t < M.T && 0 <= s < M.S
      ensures pol[t][s] == Opt(M, t, s).action && pol[t][s] in Feasible(M, t, s)
    {
      assert Backup(Vvalue[t, s], Vreward[t, s], pi[t, s]) == Opt(M, t, s);
      OptUnfold(M, t, s);
    }
  }

  /** expectedInstantaneousCost[k] read out of the cost array. */
  method CostRows(M: Tables, inst: array2<real>) returns (rows: seq<seq<real>>)
    requires inst.Length0 == M.NC() && inst.Length1 == M.T
    ensures |rows| == M.NC() && forall k :: 0 <= k < M.NC() ==> rows[k] == RowOf(inst, k)
  {
    rows := seq(M.NC(), k requires 0 <= k < M.NC() reads inst => RowOf(inst, k));
  }

  /**
   * solve, for either kind of multiplier: the policy is the first-max action
   * at every (t, s), the reward is Vreward[0][initialState], the costs are
   * the expected costs of that policy from the initial state, and the total
   * cost of each resource is the sum of its per-time costs.
   */
  method Solve(m: CMDP, T: nat, lambda: Lambda) returns (sol: MDPPolicyDeterministic)
    requires Solvable(Problem(m, T, lambda))
    ensures SolvedBy(TablesOf(Problem(m, T, lambda)), sol)
  {
    var M := TablesOf(Problem(m, T, lambda));
    var pi, pol, reward := OptimalPolicy(M);
    var instRows, totals := ExpectedCosts(M, pi, pol);
    sol := MDPPolicyDeterministic(pol, reward, instRows, totals);
  }

  /** The backward pass of solve: the first-max policy and the reward Vreward[0][initialState]. */
  method OptimalPolicy(M: Tables) returns (pi: array2<int>, pol: seq<seq<int>>, reward: real)
    requires WellFormed(M)
    ensures fresh(pi) && pi.Length0 == M.T && pi.Length1 == M.S
    ensures |pol| == M.T && forall t :: 0 <= t < M.T ==> |pol[t]| == M.S
    ensures forall t, s :: 0 <= t < M.T && 0 <= s < M.S ==> pol[t][s] == pi[t, s] == Opt(M, t, s).action
    ensures PolicyFeasible(M, pol)
    ensures reward == Opt(M, 0, M.init).reward
  {
    var Vvalue, Vreward;
    Vvalue, Vreward, pi := BackwardInduction(M);
    pol := PolicyTable(M, Vvalue, Vreward, pi);
    assert Backup(Vvalue[0, M.init], Vreward[0, M.init], pi[0, M.init]) == Opt(M, 0, M.init);
    reward := Vreward[0, M.init];
  }

  /** The forward pass of solve: the expected cost of each resource per time step, and its total. */
  method ExpectedCosts(M: Tables, pi: array2<int>, ghost pol: seq<seq<int>>) returns (instRows: seq<seq<real>>, totals: seq<real>)
    requires WellFormed(M) && PolicyFeasible(M, pol)
    requires pi.Length0 == M.T && pi.Length1 == M.S
    requires forall t, s :: 0 <= t < M.T && 0 <= s < M.S ==> pi[t, s] == pol[t][s]
    ensures |instRows| == M.NC() && forall k :: 0 <= k < M.NC() ==> instRows[k] == Column(ForwardOf(M, pol).cols, k)
    ensures totals == ForwardOf(M, pol).totals
  {
    var inst, total := ForwardPass(M, pi, pol);
    instRows := CostRows(M, inst);
    ghost var cols := ForwardOf(M, pol).cols;
    forall k | 0 <= k < M.NC()
      ensures instRows[k] == Column(cols, k)
    {
      assert RowOf(inst, k) == Column(cols, k);
    }
    totals := total[..];
    assert totals == ForwardOf(M, pol).totals;
  }

  /** solve(cmdp, T, lambda) with one multiplier per resource. */
  method SolveBudget(m: CMDP, T: nat, lambda: seq<real>) returns (sol: MDPPolicyDeterministic)
    requires Solvable(Problem(m, T, Budget(lambda)))
    ensures SolvedBy(TablesOf(Problem(m, T, Budget(lambda))), sol)
  {
    sol := Solve(m, T, Budget(lambda));
  }

  /** solve(cmdp, T, lambda) with one multiplier per resource and time step; lambda[0].length == T. */
  method SolveInstantaneous(m: CMDP, T: nat, lambda: seq<seq<real>>) returns (sol: MDPPolicyDeterministic)
    requires Solvable(Problem(m, T, Instantaneous(lambda)))
    ensures SolvedBy(TablesOf(Problem(m, T, Instantaneous(lambda))), sol)
  {
    sol := Solve(m, T, Instantaneous(lambda));
  }
}
