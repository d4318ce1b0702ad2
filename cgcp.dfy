/**
 * CGCP: column generation for constrained POMDPs with one budget constraint.
 * A master LP mixes, per agent, the policies found so far; its dual price
 * lambda of the budget row is handed to the finite-horizon solver, whose
 * best policy per agent becomes a new column, until the time limit passes,
 * the gap between the bound and the master's objective is small, or lambda
 * stops moving. The solvers behind the master and the subproblems, and the
 * clock, are oracles given to Solve.
 */
module Cgcp {
  import opened Numeric
  import opened Lp
  import opened MasterProgram
  import opened Pomdp
  import opened PolicyGraph
  import opened FiniteHorizonVI
  import opened Instance

  /** What the subproblem solver returns for an agent: a policy and the values it reports for it. */
  datatype AgentSolution = AgentSolution(policy: POMDPPolicyGraph, expectedReward: real, expectedCost: real,
                                         expectedValueUpperbound: XReal)

  /** POMDPPolicySet: policies drawn with the given probabilities, and the values of the mixture. */
  datatype POMDPPolicySet = POMDPPolicySet(policies: seq<POMDPPolicyGraph>, probabilities: seq<real>,
                                           expectedValue: real, expectedReward: real, expectedCost: real,
                                           expectedValueUpperbound: XReal)

  /** A CPOMDPInstance: the agents' models, the resources and their kind, the budget limits and the horizon. */
  datatype CPOMDPInstance = CPOMDPInstance(cpomdps: seq<POMDP>, numDomainResources: nat, constraintType: ConstraintType,
                                           costLimits: seq<real>, numDecisions: nat)

  /** The knobs of the stopping rule. */
  datatype Settings = Settings(terminateTime: real, lambdaTolerance: real, useRuntimeIncrease: bool,
                               minimumIncreaseRounds: int, runtimeIncrease: real)

  /**
   * What a pass of the loop of solve does after solving the master: stop
   * on the time limit, on a small gap or on converged multipliers, give the
   * subproblem solver more time, or price a new column per agent.
   */
  datatype Decision = TimeUp | GapClosed | Converged | MoreTime | Price

  predicate Stops(d: Decision) {
    d == TimeUp || d == GapClosed || d == Converged
  }

  /**
   * One pass of the loop: the elapsed time, the bound and the master's
   * objective it compares, the rounds priced before it, the previous and
   * the new lambda, the count of objective increases, the subproblem
   * solver's time limit, and what the pass decided.
   */
  datatype Pass = Pass(elapsedTime: real, upperBound: XReal, objective: real, iterations: nat, oldLambda: XReal,
                       lambda: real, increases: nat, solverTime: real, decision: Decision)

  /** |x| of a double that may be infinite. */
  function AbsX(x: XReal): (r: XReal)
    ensures r != NegInf
    ensures x.Finite? ==> r == Finite(Abs(x.value))
  {
    match x
    case Finite(v) => Finite(Abs(v))
    case _ => PosInf
  }

  /**
   * The gap test as the code writes it: ub - obj < 10^(ceil(log10(max(ub, obj))) - 3).
   * With a negative maximum the logarithm is NaN and the test fails.
   */
  predicate GapSmallAsWritten(ub: XReal, obj: real) {
    var allowed := AllowedGap(MaxX(ub, Finite(obj)));
    allowed.Some? && Less(SubFinite(ub, obj), allowed.value)
  }

  /** The gap test of GapMin that the code cites: the maximum of the absolute values sets the allowed gap. */
  predicate GapSmall(ub: XReal, obj: real) {
    var allowed := AllowedGap(MaxX(AbsX(ub), Finite(Abs(obj))));
    allowed.Some? && Less(SubFinite(ub, obj), allowed.value)
  }

  /**
   * With a negative bound and a negative objective the test as written
   * never closes the gap, however small it is; the corrected test closes it
   * when the two are equal.
   */
  lemma NegativeGapNeverCloses(ub: XReal, obj: real)
    requires Less(ub, Finite(0.0)) && obj < 0.0
    ensures !GapSmallAsWritten(ub, obj)
    ensures ub == Finite(obj) ==> GapSmall(ub, obj)
  {
    if ub == Finite(obj) {
      var g := AllowedGap(MaxX(AbsX(ub), Finite(Abs(obj))));
      assert g.Some? && g.value.Finite? && g.value.value > 0.0;
    }
  }

  /**
   * The corrected test is a relative tolerance: with m = max(|ub|, |obj|)
   * positive, a gap below m / 1000 always closes it, and only a gap below
   * m / 100 can. An infinite bound never closes it.
   */
  lemma GapSmallBounds(ub: XReal, obj: real)
    ensures ub.PosInf? ==> !GapSmall(ub, obj)
    ensures ub.Finite? && MaxX(AbsX(ub), Finite(Abs(obj))).value > 0.0 ==>
      (1000.0 * (ub.value - obj) < MaxX(AbsX(ub), Finite(Abs(obj))).value ==> GapSmall(ub, obj)) &&
      (GapSmall(ub, obj) ==> 100.0 * (ub.value - obj) < MaxX(AbsX(ub), Finite(Abs(obj))).value)
  {
    if ub.Finite? {
      var m := MaxX(AbsX(ub), Finite(Abs(obj)));
      if m.value > 0.0 {
        var g := AllowedGap(m);
        assert g.Some? && g.value.Finite? && 100.0 * g.value.value < m.value <= 1000.0 * g.value.value;
      }
    }
  }

  /** Both tests agree whenever the larger of the bound and the objective is positive. */
  lemma GapTestsAgreeOnPositive(ub: XReal, obj: real)
    requires ub.Finite? && ub.value >= obj && ub.value > 0.0 && obj >= -ub.value
    ensures GapSmall(ub, obj) == GapSmallAsWritten(ub, obj)
  {
    assert MaxX(AbsX(ub), Finite(Abs(obj))) == MaxX(ub, Finite(obj));
  }

  /** Math.abs(oldLambda - currentLambda) < lambdaTolerance, false while the old lambda is infinite. */
  predicate LambdaClose(oldLambda: XReal, lambda: real, tolerance: real) {
    oldLambda.Finite? && Abs(oldLambda.value - lambda) < tolerance
  }

  /** The tests of a pass, in the order solve applies them. */
  function Decide(p: Pass, c: Settings): Decision {
    if p.elapsedTime > c.terminateTime then TimeUp
    else if GapSmallAsWritten(p.upperBound, p.objective) then GapClosed
    else if p.iterations > 1 && LambdaClose(p.oldLambda, p.lambda, c.lambdaTolerance) then
      (if c.useRuntimeIncrease && p.increases > c.minimumIncreaseRounds then MoreTime else Converged)
    else Price
  }

  /**
   * The precedence of the tests: the time limit wins; a small gap stops only
   * within the time limit; lambda counts as converged only within the time,
   * with the gap still open and after more than one priced round.
   */
  lemma DecideOrder(p: Pass, c: Settings)
    ensures Decide(p, c) == TimeUp <==> p.elapsedTime > c.terminateTime
    ensures Decide(p, c) == GapClosed <==> p.elapsedTime <= c.terminateTime && GapSmallAsWritten(p.upperBound, p.objective)
    ensures Decide(p, c) in {Converged, MoreTime} <==>
      p.elapsedTime <= c.terminateTime && !GapSmallAsWritten(p.upperBound, p.objective) &&
      p.iterations > 1 && LambdaClose(p.oldLambda, p.lambda, c.lambdaTolerance)
    ensures Decide(p, c) == MoreTime ==> c.useRuntimeIncrease && p.increases > c.minimumIncreaseRounds
  {
  }

  /** Every pricing oracle answer reports a finite upper bound. */
  ghost predicate FiniteBounds(price: (nat, nat, real, real) -> AgentSolution) {
    forall n, i, l, t :: price(n, i, l, t).expectedValueUpperbound.Finite?
  }

  /** The upper bounds of the first m agents in pricing round n, summed in agent order. */
  function BoundSum(price: (nat, nat, real, real) -> AgentSolution, n: nat, lambda: real, time: real, m: nat): real
    requires FiniteBounds(price)
  {
    if m == 0 then 0.0 else BoundSum(price, n, lambda, time, m - 1) + price(n, m - 1, lambda, time).expectedValueUpperbound.value
  }

  /** The bound a pricing round gives: lambda times the budget plus the agents' bounds for lambda. */
  function RoundUpperBound(price: (nat, nat, real, real) -> AgentSolution, n: nat, lambda: real, time: real, nAgents: nat,
                           costLimit: real): real
    requires FiniteBounds(price)
  {
    lambda * costLimit + BoundSum(price, n, lambda, time, nAgents)
  }

  /**
   * The variables solve carries from one pass to the next: the current
   * lambda and objective, the increase count, the rounds priced, the bound
   * and the subproblem solver's time limit.
   */
  datatype LoopState = LoopState(lambda: XReal, objective: XReal, increases: nat, iterations: nat, upperBound: XReal,
                                 solverTime: real)

  /** The state before the first pass. */
  function Start(ub0: XReal, time0: real): LoopState {
    LoopState(PosInf, NegInf, 0, 0, ub0, time0)
  }

  /**
   * The pass made from a state, the master's objective and lambda, and the
   * clock: the old lambda is the state's, the increase count goes up when
   * the objective rose, and the tests decide.
   */
  function PassFrom(st: LoopState, elapsedTime: real, objective: real, lambda: real, c: Settings): (p: Pass)
    ensures p.decision == Decide(p, c)
  {
    var p := Pass(elapsedTime, st.upperBound, objective, st.iterations, st.lambda, lambda,
                  st.increases + (if Less(st.objective, Finite(objective)) then 1 else 0), st.solverTime, TimeUp);
    p.(decision := Decide(p, c))
  }

  /**
   * The state after pass n, p, when it did not stop: after more time lambda
   * and the increase count start again, the solver's limit grows and the
   * bound stays; after pricing the bound is lambda * limit plus the agents'
   * bounds of that round.
   */
  function After(p: Pass, n: nat, c: Settings, price: (nat, nat, real, real) -> AgentSolution, nAgents: nat, costLimit: real): LoopState
    requires FiniteBounds(price)
  {
    if p.decision == MoreTime then
      LoopState(PosInf, Finite(p.objective), 0, p.iterations, p.upperBound, p.solverTime + c.runtimeIncrease)
    else
      LoopState(Finite(p.lambda), Finite(p.objective), p.increases, p.iterations + 1,
                Finite(RoundUpperBound(price, n, p.lambda, p.solverTime, nAgents, costLimit)), p.solverTime)
  }

  /** The state before pass n: the start state, or the state after pass n - 1. */
  function Before(passes: seq<Pass>, n: nat, ub0: XReal, time0: real, c: Settings, price: (nat, nat, real, real) -> AgentSolution,
                  nAgents: nat, costLimit: real): LoopState
    requires FiniteBounds(price) && n <= |passes|
  {
    if n == 0 then Start(ub0, time0) else After(passes[n - 1], n - 1, c, price, nAgents, costLimit)
  }

  /**
   * The passes of a run of solve: each pass but the last went on, each is
   * the pass made from the state before it, and after more time the master,
   * and so its objective, is the one the previous pass saw.
   */
  ghost predicate Trace(passes: seq<Pass>, ub0: XReal, time0: real, c: Settings, price: (nat, nat, real, real) -> AgentSolution,
                        nAgents: nat, costLimit: real)
    requires FiniteBounds(price)
    decreases |passes|
  {
    if |passes| == 0 then true
    else
      var n := |passes| - 1;
      Trace(passes[..n], ub0, time0, c, price, nAgents, costLimit) &&
      (n > 0 ==> !Stops(passes[n - 1].decision)) &&
      passes[n] == PassFrom(Before(passes, n, ub0, time0, c, price, nAgents, costLimit), passes[n].elapsedTime,
                            passes[n].objective, passes[n].lambda, c) &&
      (n > 0 && passes[n - 1].decision == MoreTime ==> passes[n].objective == passes[n - 1].objective)
  }

  /** What a trace says of its pass k. */
  lemma {:induction false} TraceAt(passes: seq<Pass>, ub0: XReal, time0: real, c: Settings,
                                   price: (nat, nat, real, real) -> AgentSolution, nAgents: nat, costLimit: real, k: nat)
    requires FiniteBounds(price) && Trace(passes, ub0, time0, c, price, nAgents, costLimit) && k < |passes|
    ensures k > 0 ==> !Stops(passes[k - 1].decision)
    ensures passes[k] == PassFrom(Before(passes, k, ub0, time0, c, price, nAgents, costLimit), passes[k].elapsedTime,
                                  passes[k].objective, passes[k].lambda, c)
    ensures k > 0 && passes[k - 1].decision == MoreTime ==> passes[k].objective == passes[k - 1].objective
  {
    var n := |passes| - 1;
    if k < n {
      var pre := passes[..n];
      assert Trace(pre, ub0, time0, c, price, nAgents, costLimit);
      TraceAt(pre, ub0, time0, c, price, nAgents, costLimit, k);
      assert pre[k] == passes[k];
      if k > 0 {
        assert pre[k - 1] == passes[k - 1];
      }
      assert Before(pre, k, ub0, time0, c, price, nAgents, costLimit) == Before(passes, k, ub0, time0, c, price, nAgents, costLimit);
    }
  }

  /** Every pass of a trace but the last went on. */
  lemma TraceGoesOn(passes: seq<Pass>, ub0: XReal, time0: real, c: Settings,
                    price: (nat, nat, real, real) -> AgentSolution, nAgents: nat, costLimit: real)
    requires FiniteBounds(price) && Trace(passes, ub0, time0, c, price, nAgents, costLimit)
    ensures forall k :: 0 <= k < |passes| - 1 ==> !Stops(passes[k].decision)
  {
    forall k | 0 <= k < |passes| - 1
      ensures !Stops(passes[k].decision)
    {
      TraceAt(passes, ub0, time0, c, price, nAgents, costLimit, k + 1);
    }
  }

  /** Number of passes that priced new columns. */
  function PriceCount(passes: seq<Pass>): (r: nat)
    ensures r <= |passes|
  {
    if |passes| == 0 then 0 else PriceCount(passes[..|passes| - 1]) + (if passes[|passes| - 1].decision == Price then 1 else 0)
  }

  /** The iterations a pass sees are the passes before it that priced. */
  lemma {:induction false} IterationsCount(passes: seq<Pass>, ub0: XReal, time0: real, c: Settings,
                                           price: (nat, nat, real, real) -> AgentSolution, nAgents: nat, costLimit: real, k: nat)
    requires FiniteBounds(price) && Trace(passes, ub0, time0, c, price, nAgents, costLimit) && k < |passes|
    ensures passes[k].iterations == PriceCount(passes[..k])
  {
    TraceAt(passes, ub0, time0, c, price, nAgents, costLimit, k);
    if k > 0 {
      IterationsCount(passes, ub0, time0, c, price, nAgents, costLimit, k - 1);
      assert passes[..k][..k - 1] == passes[..k - 1];
    }
  }

  /** Lambda can count as converged only after at least two priced rounds. */
  lemma ConvergenceNeedsTwoRounds(passes: seq<Pass>, ub0: XReal, time0: real, c: Settings,
                                  price: (nat, nat, real, real) -> AgentSolution, nAgents: nat, costLimit: real, k: nat)
    requires FiniteBounds(price) && Trace(passes, ub0, time0, c, price, nAgents, costLimit) && k < |passes|
    requires passes[k].decision == Converged || passes[k].decision == MoreTime
    ensures PriceCount(passes[..k]) >= 2
  {
    TraceAt(passes, ub0, time0, c, price, nAgents, costLimit, k);
    IterationsCount(passes, ub0, time0, c, price, nAgents, costLimit, k);
  }

  /**
   * After the subproblem solver got more time, the next pass cannot stop on
   * the gap or on lambda: the master and the bound are unchanged and the old
   * lambda is infinite, so it prices a new round unless the time is up.
   */
  lemma MoreTimeThenPrice(passes: seq<Pass>, ub0: XReal, time0: real, c: Settings,
                          price: (nat, nat, real, real) -> AgentSolution, nAgents: nat, costLimit: real, k: nat)
    requires FiniteBounds(price) && Trace(passes, ub0, time0, c, price, nAgents, costLimit) && k + 1 < |passes|
    requires passes[k].decision == MoreTime
    ensures passes[k + 1].decision == TimeUp || passes[k + 1].decision == Price
  {
    TraceAt(passes, ub0, time0, c, price, nAgents, costLimit, k);
    TraceAt(passes, ub0, time0, c, price, nAgents, costLimit, k + 1);
  }

  /** Appending the pass made from the state after the last one, which went on, keeps a trace. */
  lemma TraceSnoc(passes: seq<Pass>, p: Pass, ub0: XReal, time0: real, c: Settings,
                  price: (nat, nat, real, real) -> AgentSolution, nAgents: nat, costLimit: real)
    requires FiniteBounds(price) && Trace(passes, ub0, time0, c, price, nAgents, costLimit)
    requires |passes| > 0 ==> !Stops(passes[|passes| - 1].decision)
    requires p == PassFrom(Before(passes, |passes|, ub0, time0, c, price, nAgents, costLimit), p.elapsedTime, p.objective, p.lambda, c)
    requires |passes| > 0 && passes[|passes| - 1].decision == MoreTime ==> p.objective == passes[|passes| - 1].objective
    ensures Trace(passes + [p], ub0, time0, c, price, nAgents, costLimit)
    ensures PriceCount(passes + [p]) == PriceCount(passes) + (if p.decision == Price then 1 else 0)
  {
    assert (passes + [p])[..|passes|] == passes;
    assert Before(passes + [p], |passes|, ub0, time0, c, price, nAgents, costLimit) ==
           Before(passes, |passes|, ub0, time0, c, price, nAgents, costLimit);
  }

  /**
   * The loop of solve between passes: its passes form a trace whose last
   * pass went on, the rounds priced are counted in the state, and the state
   * is the one after the passes.
   */
  ghost predicate Running(passes: seq<Pass>, st: LoopState, ub0: XReal, time0: real, c: Settings,
                          price: (nat, nat, real, real) -> AgentSolution, nAgents: nat, costLimit: real)
    requires FiniteBounds(price)
  {
    var running := Trace(passes, ub0, time0, c, price, nAgents, costLimit) &&
      (|passes| > 0 ==> !Stops(passes[|passes| - 1].decision)) &&
      st.iterations == PriceCount(passes) &&
      st == Before(passes, |passes|, ub0, time0, c, price, nAgents, costLimit);
    running
  }

  /** A finished loop: the passes form a trace whose last pass stops, and iterations counts its pricing rounds. */
  ghost predicate Finished(passes: seq<Pass>, iterations: nat, ub0: XReal, time0: real, c: Settings,
                           price: (nat, nat, real, real) -> AgentSolution, nAgents: nat, costLimit: real)
    requires FiniteBounds(price)
  {
    var finished := Trace(passes, ub0, time0, c, price, nAgents, costLimit) &&
      |passes| >= 1 && Stops(passes[|passes| - 1].decision) &&
      iterations == PriceCount(passes);
    finished
  }

  /**
   * Where the passes' inputs come from: pass k reads the clock at elapsed(k)
   * and takes its objective and lambda, the dual price of the budget row,
   * from lp's answer on the master masters[k] it solved.
   */
  ghost predicate Observed(passes: seq<Pass>, masters: seq<LPModel>, lp: LPModel -> LPSolution, elapsed: nat -> real)
    decreases |passes|
  {
    |masters| == |passes| &&
    (|passes| > 0 ==>
      var n := |passes| - 1;
      Observed(passes[..n], masters[..n], lp, elapsed) &&
      passes[n].elapsedTime == elapsed(n) && Answers(masters[n], lp(masters[n])) && CostRow(1, 0, 0) < |masters[n].constraints| &&
      passes[n].objective == lp(masters[n]).objective && passes[n].lambda == lp(masters[n]).duals[CostRow(1, 0, 0)])
  }

  /** What the observations say of pass k. */
  lemma {:induction false} ObservedAt(passes: seq<Pass>, masters: seq<LPModel>, lp: LPModel -> LPSolution, elapsed: nat -> real, k: nat)
    requires Observed(passes, masters, lp, elapsed) && k < |passes|
    ensures passes[k].elapsedTime == elapsed(k) && Answers(masters[k], lp(masters[k])) && CostRow(1, 0, 0) < |masters[k].constraints|
    ensures passes[k].objective == lp(masters[k]).objective && passes[k].lambda == lp(masters[k]).duals[CostRow(1, 0, 0)]
  {
    var n := |passes| - 1;
    if k < n {
      ObservedAt(passes[..n], masters[..n], lp, elapsed, k);
    }
  }

  /** A pass observed at the clock and on its master extends the observations. */
  lemma ObservedSnoc(passes: seq<Pass>, masters: seq<LPModel>, lp: LPModel -> LPSolution, elapsed: nat -> real, p: Pass, m: LPModel)
    requires Observed(passes, masters, lp, elapsed)
    requires p.elapsedTime == elapsed(|passes|) && Answers(m, lp(m)) && CostRow(1, 0, 0) < |m.constraints|
    requires p.objective == lp(m).objective && p.lambda == lp(m).duals[CostRow(1, 0, 0)]
    ensures Observed(passes + [p], masters + [m], lp, elapsed)
  {
    assert (passes + [p])[..|passes|] == passes;
    assert (masters + [m])[..|passes|] == masters;
  }

  /**
   * The next pass, made from the state, extends the trace: as long as more
   * time left the master unchanged, its objective is the last pass's; when
   * it stops the loop is finished, and otherwise the loop goes on from the
   * state after it.
   */
  lemma Advance(passes: seq<Pass>, st: LoopState, p: Pass, elapsedTime: real, objective: real, lambda: real, ub0: XReal, time0: real,
                c: Settings, price: (nat, nat, real, real) -> AgentSolution, nAgents: nat, costLimit: real)
    requires FiniteBounds(price) && Running(passes, st, ub0, time0, c, price, nAgents, costLimit)
    requires p == PassFrom(st, elapsedTime, objective, lambda, c)
    requires |passes| > 0 && passes[|passes| - 1].decision == MoreTime ==> objective == passes[|passes| - 1].objective
    ensures Stops(p.decision) ==> Finished(passes + [p], st.iterations, ub0, time0, c, price, nAgents, costLimit)
    ensures !Stops(p.decision) ==> Running(passes + [p], After(p, |passes|, c, price, nAgents, costLimit), ub0, time0, c, price, nAgents, costLimit)
  {
    TraceSnoc(passes, p, ub0, time0, c, price, nAgents, costLimit);
  }

  /** Columns with positive weight and a stored solution, in column order: their policies. */
  function KeptPolicies(dist: seq<real>, sols: seq<Option<AgentSolution>>, n: nat): seq<POMDPPolicyGraph>
    requires n <= |dist| && n <= |sols|
  {
    if n == 0 then []
    else KeptPolicies(dist, sols, n - 1) + (if dist[n - 1] > 0.0 && sols[n - 1].Some? then [sols[n - 1].value.policy] else [])
  }

  /** ... and their weights. */
  function KeptWeights(dist: seq<real>, sols: seq<Option<AgentSolution>>, n: nat): (r: seq<real>)
    requires n <= |dist| && n <= |sols|
    ensures |r| == |KeptPolicies(dist, sols, n)|
    ensures forall k :: 0 <= k < |r| ==> r[k] > 0.0
  {
    if n == 0 then []
    else KeptWeights(dist, sols, n - 1) + (if dist[n - 1] > 0.0 && sols[n - 1].Some? then [dist[n - 1]] else [])
  }

  /** The weighted reward of the kept columns, accumulated in column order. */
  function MixedReward(dist: seq<real>, sols: seq<Option<AgentSolution>>, n: nat): real
    requires n <= |dist| && n <= |sols|
  {
    if n == 0 then 0.0
    else MixedReward(dist, sols, n - 1) + (if dist[n - 1] > 0.0 && sols[n - 1].Some? then dist[n - 1] * sols[n - 1].value.expectedReward else 0.0)
  }

  /** The weighted cost of the kept columns, accumulated in column order. */
  function MixedCost(dist: seq<real>, sols: seq<Option<AgentSolution>>, n: nat): real
    requires n <= |dist| && n <= |sols|
  {
    if n == 0 then 0.0
    else MixedCost(dist, sols, n - 1) + (if dist[n - 1] > 0.0 && sols[n - 1].Some? then dist[n - 1] * sols[n - 1].value.expectedCost else 0.0)
  }

  /** The policy set getSolution returns; its expected value is its reward and its upper bound is infinite. */
  function Mixture(dist: seq<real>, sols: seq<Option<AgentSolution>>): (ps: POMDPPolicySet)
    requires |dist| == |sols|
  {
    var reward := MixedReward(dist, sols, |dist|);
    POMDPPolicySet(KeptPolicies(dist, sols, |dist|), KeptWeights(dist, sols, |dist|), reward, reward,
                   MixedCost(dist, sols, |dist|), PosInf)
  }

  /**
   * When every column of positive weight has a stored solution and no
   * weight is negative, the kept probabilities add up to the weights of all
   * columns (1 for a distribution of the master).
   */
  lemma {:induction false} KeptWeightsSum(dist: seq<real>, sols: seq<Option<AgentSolution>>, n: nat)
    requires n <= |dist| && n <= |sols|
    requires forall j :: 0 <= j < n ==> dist[j] >= 0.0 && (dist[j] > 0.0 ==> sols[j].Some?)
    ensures Sum(KeptWeights(dist, sols, n)) == Sum(dist[..n])
  {
    if n > 0 {
      KeptWeightsSum(dist, sols, n - 1);
      SumPrefixStep(dist, n - 1);
      var w := KeptWeights(dist, sols, n - 1);
      if dist[n - 1] > 0.0 {
        SumAppend(w, dist[n - 1]);
      } else {
        assert KeptWeights(dist, sols, n) == w;
      }
    }
  }

  /** A distribution on a single column j0 keeps that column alone, with its reward and cost. */
  lemma {:induction false} PureColumn(dist: seq<real>, sols: seq<Option<AgentSolution>>, n: nat, j0: nat)
    requires n <= |dist| && n <= |sols| && j0 < |sols| && sols[j0].Some?
    requires j0 < |dist| && dist[j0] == 1.0 && dist[j0 := 0.0] == seq(|dist|, j => 0.0)
    ensures KeptPolicies(dist, sols, n) == if j0 < n then [sols[j0].value.policy] else []
    ensures KeptWeights(dist, sols, n) == if j0 < n then [1.0] else []
    ensures MixedReward(dist, sols, n) == if j0 < n then sols[j0].value.expectedReward else 0.0
    ensures MixedCost(dist, sols, n) == if j0 < n then sols[j0].value.expectedCost else 0.0
  {
    if n > 0 {
      PureColumn(dist, sols, n - 1, j0);
      if n - 1 != j0 {
        assert dist[n - 1] == dist[j0 := 0.0][n - 1] == 0.0;
      }
    }
  }

  /** With non-negative weights and every kept cost at most c, the mixture's cost is at most c times the total weight. */
  lemma {:induction false} MixedCostAtMost(dist: seq<real>, sols: seq<Option<AgentSolution>>, n: nat, c: real)
    requires n <= |dist| && n <= |sols|
    requires forall j :: 0 <= j < n ==> dist[j] >= 0.0 && (sols[j].Some? ==> sols[j].value.expectedCost <= c)
    requires c >= 0.0
    ensures MixedCost(dist, sols, n) <= c * Sum(dist[..n])
  {
    if n > 0 {
      MixedCostAtMost(dist, sols, n - 1, c);
      SumPrefixStep(dist, n - 1);
      if dist[n - 1] > 0.0 && sols[n - 1].Some? {
        assert dist[n - 1] * sols[n - 1].value.expectedCost <= dist[n - 1] * c;
      }
      assert c * Sum(dist[..n]) == c * Sum(dist[..n - 1]) + c * dist[n - 1];
    }
  }

  /**
   * getSolution as written: without a no-consumption column the assertion
   * wants the dummy's weight below 1e-5; then every column of positive weight
   * is looked up, and the dummy's missing solution is dereferenced.
   */
  function GetSolutionAsWritten(noConsumptionAction: int, dist: seq<real>, sols: seq<Option<AgentSolution>>): (r: Result<POMDPPolicySet>)
    requires |dist| == |sols| >= 1
    ensures r.Success? <==>
      (noConsumptionAction != -1 || dist[0] < 0.00001) && forall j :: 0 <= j < |dist| && dist[j] > 0.0 ==> sols[j].Some?
    ensures r.Success? ==> r.value == Mixture(dist, sols)
  {
    if noConsumptionAction == -1 && !(dist[0] < 0.00001) then Failure("Dummy policy cannot be selected")
    else if exists j :: 0 <= j < |dist| && dist[j] > 0.0 && sols[j].None? then Failure("NullPointerException")
    else Success(Mixture(dist, sols))
  }

  /**
   * On the stored columns, where only the first may be the dummy and it is
   * one exactly without a no-consumption action, getSolution as written
   * succeeds exactly when there is such an action or the dummy has no
   * positive weight.
   */
  lemma GetSolutionFails(noConsumptionAction: int, dist: seq<real>, sols: seq<Option<AgentSolution>>)
    requires |dist| == |sols| >= 1
    requires (sols[0].None? <==> noConsumptionAction == -1) && forall j :: 1 <= j < |sols| ==> sols[j].Some?
    ensures GetSolutionAsWritten(noConsumptionAction, dist, sols).Success? <==> noConsumptionAction != -1 || dist[0] <= 0.0
  {
    if noConsumptionAction == -1 && dist[0] > 0.0 {
      assert dist[0] > 0.0 && sols[0].None?;
    }
  }

  /** A dummy weight of 1e-6 passes the assertion and still reaches the missing solution; the corrected mixture drops it. */
  lemma DummyWeightSlipsThrough(s: AgentSolution)
    ensures 0.000001 < 0.00001
    ensures GetSolutionAsWritten(-1, [0.000001, 0.999999], [None, Some(s)]).Failure?
    ensures Mixture([0.000001, 0.999999], [None, Some(s)]).policies == [s.policy]
    ensures Mixture([0.000001, 0.999999], [None, Some(s)]).probabilities == [0.999999]
  {
    var d, ss := [0.000001, 0.999999], [None, Some(s)];
    assert d[0] > 0.0 && ss[0].None?;
    assert KeptPolicies(d, ss, 1) == [];
    assert KeptWeights(d, ss, 1) == [];
  }

  /**
   * The columns of a master are stored solutions: per agent as many columns
   * as solutions, at least one, each column a variable of the model, the
   * first the dummy exactly when there is one and no other a dummy, and each
   * solution's reward and cost are its column's objective and budget
   * coefficient.
   */
  ghost predicate StoredIn(sols: seq<seq<Option<AgentSolution>>>, vars: seq<seq<nat>>, coeffs: seq<seq<seq<seq<real>>>>,
                           variables: seq<LPVariable>, nAgents: nat, dummy: bool)
  {
    |sols| == nAgents && |vars| == nAgents && |coeffs| == nAgents &&
    forall i :: 0 <= i < nAgents ==>
      |sols[i]| == |vars[i]| && |coeffs[i]| == |vars[i]| && |sols[i]| >= 1 && (sols[i][0].None? <==> dummy) &&
      forall j :: 0 <= j < |sols[i]| ==>
        vars[i][j] < |variables| &&
        (sols[i][j].None? ==> j == 0) &&
        (sols[i][j].Some? ==>
          coeffs[i][j] == [[sols[i][j].value.expectedCost]] && variables[vars[i][j]].obj == sols[i][j].value.expectedReward)
  }

  /** The first columns, one variable per agent, hold the agents' first stored solutions. */
  lemma StoredStart(sols: seq<seq<Option<AgentSolution>>>, vars: seq<seq<nat>>, coeffs: seq<seq<seq<seq<real>>>>,
                    variables: seq<LPVariable>, nAgents: nat, dummy: bool)
    requires |sols| == nAgents && |vars| == nAgents && |coeffs| == nAgents && |variables| == nAgents
    requires forall i :: 0 <= i < nAgents ==>
      vars[i] == [i] && |coeffs[i]| == 1 && |sols[i]| == 1 && (sols[i][0].None? <==> dummy) &&
      (sols[i][0].Some? ==> coeffs[i][0] == [[sols[i][0].value.expectedCost]] && variables[i].obj == sols[i][0].value.expectedReward)
    ensures StoredIn(sols, vars, coeffs, variables, nAgents, dummy)
  {
  }

  /** A round of new columns, one per agent and each a new variable, keeps the columns the stored solutions. */
  lemma StoredAppend(sols: seq<seq<Option<AgentSolution>>>, vars: seq<seq<nat>>, coeffs: seq<seq<seq<seq<real>>>>,
                     variables: seq<LPVariable>, nAgents: nat, dummy: bool,
                     price: (nat, nat, real, real) -> AgentSolution, n: nat, lambda: real, time: real,
                     colReward: seq<real>, colCost: seq<seq<seq<real>>>,
                     sols': seq<seq<Option<AgentSolution>>>, vars': seq<seq<nat>>, coeffs': seq<seq<seq<seq<real>>>>,
                     variables': seq<LPVariable>)
    requires StoredIn(sols, vars, coeffs, variables, nAgents, dummy)
    requires |colReward| == nAgents && |colCost| == nAgents
    requires |sols'| == nAgents && |vars'| == nAgents && |coeffs'| == nAgents
    requires forall i :: 0 <= i < nAgents ==>
      sols'[i] == sols[i] + [Some(price(n, i, lambda, time))] &&
      colReward[i] == price(n, i, lambda, time).expectedReward && colCost[i] == [[price(n, i, lambda, time).expectedCost]]
    requires |variables'| == |variables| + nAgents && variables'[..|variables|] == variables
    requires forall i :: 0 <= i < nAgents ==>
      vars'[i] == vars[i] + [|variables| + i] && coeffs'[i] == coeffs[i] + [colCost[i]] &&
      variables'[|variables| + i] == LPVariable(0.0, 1.0, colReward[i])
    ensures StoredIn(sols', vars', coeffs', variables', nAgents, dummy)
  {
    forall i, j | 0 <= i < nAgents && 0 <= j < |sols[i]|
      ensures variables'[vars[i][j]] == variables[vars[i][j]]
    {
      assert variables'[..|variables|][vars[i][j]] == variables'[vars[i][j]];
    }
  }

  /** The shape facts of a valid master that its callers use. */
  lemma MasterShape(mlp: MasterLP)
    requires mlp.Valid()
    ensures mlp.model.Valid() && |mlp.model.constraints| == mlp.K * mlp.T + mlp.nAgents
    ensures |mlp.vars| == mlp.nAgents && |mlp.costCoefficients| == mlp.nAgents
  {
  }

  class CGCP {
    var cpomdps: seq<POMDP>
    var nAgents: nat
    var costLimit: real
    var numDecisions: nat

    var objectiveUpperbound: XReal
    var numIterations: nat
    /** An action without resource consumption to seed the first columns, or -1. */
    var noConsumptionAction: int

    var lambdaTolerance: real
    var terminateTime: real
    var minimumIncreaseRounds: int
    var useRuntimeIncrease: bool
    var runtimeIncrease: real

    const cpomdpSolver: FiniteVI
    /** Per agent, the solution behind each of its columns; None for the dummy column. */
    var solutions: seq<seq<Option<AgentSolution>>>

    function Config(): Settings
      reads this
    {
      Settings(terminateTime, lambdaTolerance, useRuntimeIncrease, minimumIncreaseRounds, runtimeIncrease)
    }

    /**
     * The constructor with the values of the configuration file: the
     * subproblem solver is a FiniteVI with its own time limit that returns
     * policy graphs.
     */
    constructor(lambdaTolerance: real, minimumIncreaseRounds: int, useRuntimeIncrease: bool, runtimeIncrease: real,
                terminateTime: real, timeLimitSubproblemSolver: real)
      ensures fresh(cpomdpSolver) && cpomdpSolver.terminateTime == timeLimitSubproblemSolver && cpomdpSolver.dumpPolicyGraph
      ensures this.lambdaTolerance == lambdaTolerance && this.minimumIncreaseRounds == minimumIncreaseRounds
      ensures this.useRuntimeIncrease == useRuntimeIncrease && this.runtimeIncrease == runtimeIncrease
      ensures this.terminateTime == terminateTime
      ensures objectiveUpperbound == PosInf && numIterations == 0 && noConsumptionAction == -1
      ensures cpomdps == [] && nAgents == 0 && solutions == []
    {
      this.lambdaTolerance := lambdaTolerance;
      this.minimumIncreaseRounds := minimumIncreaseRounds;
      this.useRuntimeIncrease := useRuntimeIncrease;
      this.runtimeIncrease := runtimeIncrease;
      this.terminateTime := terminateTime;
      objectiveUpperbound := PosInf;
      numIterations := 0;
      noConsumptionAction := -1;
      cpomdps := [];
      nAgents := 0;
      costLimit := 0.0;
      numDecisions := 0;
      solutions := [];
      var fvi := new FiniteVI();
      fvi.SetTerminateTime(timeLimitSubproblemSolver);
      fvi.EnableDumpPolicyGraph();
      cpomdpSolver := fvi;
    }

    /** setInstance: only one resource with a budget constraint is supported. */
    method SetInstance(instance: CPOMDPInstance) returns (r: Result<()>)
      requires instance.numDomainResources == 1 && instance.constraintType == Budget ==> |instance.costLimits| >= 1
      modifies this`cpomdps, this`nAgents, this`costLimit, this`numDecisions
      ensures r.Failure? <==> instance.numDomainResources != 1 || instance.constraintType != Budget
      ensures r.Success? ==>
        cpomdps == instance.cpomdps && nAgents == |instance.cpomdps| &&
        costLimit == instance.costLimits[0] && numDecisions == instance.numDecisions
      ensures r.Failure? ==>
        cpomdps == old(cpomdps) && nAgents == old(nAgents) && costLimit == old(costLimit) && numDecisions == old(numDecisions)
    {
      if instance.numDomainResources != 1 {
        return Failure("UnsupportedInstanceException");
      }
      if instance.constraintType != Budget {
        return Failure("UnsupportedInstanceException");
      }
      cpomdps := instance.cpomdps;
      nAgents := |cpomdps|;
      costLimit := instance.costLimits[0];
      numDecisions := instance.numDecisions;
      r := Success(());
    }

    method EnableRuntimeIncrease(t: real)
      modifies this`useRuntimeIncrease, this`runtimeIncrease
      ensures useRuntimeIncrease && runtimeIncrease == t
    {
      useRuntimeIncrease := true;
      runtimeIncrease := t;
    }

    method SetTerminateTime(t: real)
      modifies this`terminateTime
      ensures terminateTime == t
    {
      terminateTime := t;
    }

    method SetNoConsumptionAction(a: int)
      modifies this`noConsumptionAction
      ensures noConsumptionAction == a
    {
      noConsumptionAction := a;
    }

    /**
     * What solve needs: an instance was set, every agent's model is a
     * constrained POMDP the solver can take, and a no-consumption action, if
     * any, is an action of every agent.
     */
    predicate Ready()
      reads this, set i | 0 <= i < |cpomdps| :: cpomdps[i].base
    {
      |cpomdps| == nAgents &&
      forall i :: 0 <= i < nAgents ==>
        ModelReady(cpomdps[i]) && cpomdps[i].costFunctions.Some? &&
        (noConsumptionAction != -1 ==> 0 <= noConsumptionAction < cpomdps[i].base.nActions)
    }

    /** The master's columns are the stored solutions, with the master's invariant. */
    ghost predicate Stored(mlp: MasterLP)
      reads this`solutions, this`nAgents, this`noConsumptionAction, mlp
    {
      var stored := mlp.Valid() && mlp.nAgents == nAgents && mlp.K == 1 && mlp.T == 1 &&
        StoredIn(solutions, mlp.vars, mlp.costCoefficients, mlp.model.variables, nAgents, noConsumptionAction == -1);
      stored
    }

    /** The master's distributions are lp's values of its columns on its model. */
    ghost predicate Distributed(mlp: MasterLP, lp: LPModel -> LPSolution)
      reads this`nAgents, mlp
    {
      mlp.policyDistributions.Some? && |mlp.policyDistributions.value| == nAgents && |mlp.vars| == nAgents &&
      forall i :: 0 <= i < nAgents ==>
        |mlp.policyDistributions.value[i]| == |mlp.vars[i]| &&
        forall j :: 0 <= j < |mlp.vars[i]| ==>
          mlp.vars[i][j] < |lp(mlp.model).values| && mlp.policyDistributions.value[i][j] == lp(mlp.model).values[mlp.vars[i][j]]
    }

    /**
     * Between two passes of the loop of solve, with the loop variables
     * lambda, objective and increases: the master holds the stored columns,
     * one per priced round and agent plus the first; the passes so far form
     * a trace that went on to the current state and were observed on their
     * masters; and after more time the master is still the last one solved.
     */
    ghost predicate Looping(mlp: MasterLP, lp: LPModel -> LPSolution, price: (nat, nat, real, real) -> AgentSolution,
                            elapsed: nat -> real, passes: seq<Pass>, masters: seq<LPModel>, lambda: XReal, objective: XReal,
                            increases: nat, ub0: XReal, time0: real, c: Settings)
      reads this, mlp, cpomdpSolver
    {
      var looping := Stored(mlp) && FiniteBounds(price) && c == Config() &&
        (forall i :: 0 <= i < nAgents ==> |solutions[i]| == numIterations + 1) &&
        Running(passes, LoopState(lambda, objective, increases, numIterations, objectiveUpperbound, cpomdpSolver.terminateTime),
                ub0, time0, c, price, nAgents, costLimit) &&
        Observed(passes, masters, lp, elapsed) &&
        (|passes| > 0 && passes[|passes| - 1].decision == MoreTime ==> masters[|passes| - 1] == mlp.model);
      looping
    }

    /**
     * After the loop of solve: the passes finished it and were observed on
     * their masters, the last of which is the master's model, whose columns
     * are the stored solutions and whose distributions are lp's values.
     */
    ghost predicate Done(mlp: MasterLP, lp: LPModel -> LPSolution, price: (nat, nat, real, real) -> AgentSolution,
                         elapsed: nat -> real, passes: seq<Pass>, masters: seq<LPModel>, ub0: XReal, time0: real, c: Settings)
      reads this, mlp
    {
      var done := Stored(mlp) && FiniteBounds(price) && Finished(passes, numIterations, ub0, time0, c, price, nAgents, costLimit) &&
        (forall i :: 0 <= i < nAgents ==> |solutions[i]| == numIterations + 1) &&
        Observed(passes, masters, lp, elapsed) && masters[|passes| - 1] == mlp.model && Distributed(mlp, lp);
      done
    }

    /** getNoConsumptionSolution for agent i, with the graph's own values: the graph of the no-consumption action. */
    method NoConsumptionSolution(i: nat) returns (solution: AgentSolution)
      requires Ready() && noConsumptionAction != -1 && i < nAgents
      modifies cpomdpSolver`pomdp, cpomdpSolver`T
      ensures SingleActionGraph(cpomdps[i], numDecisions, noConsumptionAction, solution.policy)
      ensures solution.expectedReward == solution.policy.expectedReward && solution.expectedCost == solution.policy.expectedCost
    {
      var pg := cpomdpSolver.GetNoConsumptionSolution(cpomdps[i], numDecisions, noConsumptionAction);
      solution := AgentSolution(pg, pg.expectedReward, pg.expectedCost, pg.expectedValueUpperbound);
    }

    /** The no-consumption policies of all agents, one per agent, each stored as that agent's first solution. */
    method NoConsumptionColumns() returns (rewards: seq<real>, costs: seq<seq<seq<real>>>)
      requires Ready() && noConsumptionAction != -1
      modifies this`solutions, cpomdpSolver`pomdp, cpomdpSolver`T
      ensures |rewards| == nAgents && |costs| == nAgents && |solutions| == nAgents
      ensures forall i :: 0 <= i < nAgents ==>
        |solutions[i]| == 1 && solutions[i][0].Some? &&
        rewards[i] == solutions[i][0].value.expectedReward && costs[i] == [[solutions[i][0].value.expectedCost]] &&
        SingleActionGraph(cpomdps[i], numDecisions, noConsumptionAction, solutions[i][0].value.policy)
    {
      solutions := seq(nAgents, i => []);
      rewards, costs := [], [];
      var i := 0;
      while i < nAgents
        invariant 0 <= i <= nAgents && |rewards| == i && |costs| == i && |solutions| == nAgents
        invariant forall i' :: 0 <= i' < i ==>
          |solutions[i']| == 1 && solutions[i'][0].Some? &&
          rewards[i'] == solutions[i'][0].value.expectedReward && costs[i'] == [[solutions[i'][0].value.expectedCost]] &&
          SingleActionGraph(cpomdps[i'], numDecisions, noConsumptionAction, solutions[i'][0].value.policy)
        invariant forall i' :: i <= i' < nAgents ==> solutions[i'] == []
      {
        var solution := NoConsumptionSolution(i);
        rewards := rewards + [solution.expectedReward];
        costs := costs + [[[solution.expectedCost]]];
        solutions := solutions[i := solutions[i] + [Some(solution)]];
        i := i + 1;
      }
    }

    /**
     * The start of solve: the master with one column per agent, the
     * agent's no-consumption policy when an action for it is set and the
     * dummy column otherwise, each stored as the agent's first solution.
     */
    method InitialMaster(infinite: real) returns (mlp: MasterLP)
      requires Ready()
      modifies this`solutions, cpomdpSolver`pomdp, cpomdpSolver`T
      ensures fresh(mlp) && Stored(mlp) && mlp.model.infinite == infinite
      ensures forall i :: 0 <= i < nAgents ==> |solutions[i]| == 1 && (solutions[i][0].None? <==> noConsumptionAction == -1)
      ensures noConsumptionAction != -1 ==> forall i :: 0 <= i < nAgents ==>
        SingleActionGraph(cpomdps[i], numDecisions, noConsumptionAction, solutions[i][0].value.policy)
    {
      if noConsumptionAction != -1 {
        mlp := NoConsumptionMaster(infinite);
      } else {
        mlp := DummyMaster(infinite);
      }
    }

    /** The start of solve with a no-consumption action: its policy is every agent's first column and solution. */
    method NoConsumptionMaster(infinite: real) returns (mlp: MasterLP)
      requires Ready() && noConsumptionAction != -1
      modifies this`solutions, cpomdpSolver`pomdp, cpomdpSolver`T
      ensures fresh(mlp) && Stored(mlp) && mlp.model.infinite == infinite
      ensures forall i :: 0 <= i < nAgents ==>
        |solutions[i]| == 1 && solutions[i][0].Some? &&
        SingleActionGraph(cpomdps[i], numDecisions, noConsumptionAction, solutions[i][0].value.policy)
    {
      var rewards, costs := NoConsumptionColumns();
      mlp := new MasterLP(infinite, nAgents, [[costLimit]], Some(InitialColumns(rewards, costs)));
      StoredStart(solutions, mlp.vars, mlp.costCoefficients, mlp.model.variables, nAgents, false);
    }

    /** The start of solve without a no-consumption action: every agent's first column is the dummy column, with no solution. */
    method DummyMaster(infinite: real) returns (mlp: MasterLP)
      requires noConsumptionAction == -1
      modifies this`solutions
      ensures fresh(mlp) && Stored(mlp) && mlp.model.infinite == infinite
      ensures forall i :: 0 <= i < nAgents ==> solutions[i] == [None]
    {
      mlp := new MasterLP(infinite, nAgents, [[costLimit]], None);
      solutions := seq(nAgents, i => [None]);
      StoredStart(solutions, mlp.vars, mlp.costCoefficients, mlp.model.variables, nAgents, true);
    }

    /**
     * The agents' part of a pricing round: every agent's solution for
     * lambda, taken in agent order with the solver's time limit, is stored;
     * its reward and cost form the new columns, and the bound is lambda times
     * the limit plus the agents' bounds.
     */
    method PriceAgents(n: nat, lambda: real, time: real, price: (nat, nat, real, real) -> AgentSolution)
      returns (colReward: seq<real>, colCost: seq<seq<seq<real>>>, ub: XReal, stored: seq<seq<Option<AgentSolution>>>)
      requires |solutions| == nAgents && FiniteBounds(price)
      ensures |stored| == nAgents && |colReward| == nAgents && |colCost| == nAgents
      ensures forall i :: 0 <= i < nAgents ==>
        stored[i] == solutions[i] + [Some(price(n, i, lambda, time))] &&
        colReward[i] == price(n, i, lambda, time).expectedReward && colCost[i] == [[price(n, i, lambda, time).expectedCost]]
      ensures ub == Finite(RoundUpperBound(price, n, lambda, time, nAgents, costLimit))
    {
      colReward, colCost, stored := [], [], solutions;
      ub := Finite(lambda * costLimit);
      var i := 0;
      while i < nAgents
        invariant 0 <= i <= nAgents && |colReward| == i && |colCost| == i && |stored| == nAgents
        invariant ub == Finite(lambda * costLimit + BoundSum(price, n, lambda, time, i))
        invariant forall i' :: 0 <= i' < i ==>
          stored[i'] == solutions[i'] + [Some(price(n, i', lambda, time))] &&
          colReward[i'] == price(n, i', lambda, time).expectedReward && colCost[i'] == [[price(n, i', lambda, time).expectedCost]]
        invariant forall i' :: i <= i' < nAgents ==> stored[i'] == solutions[i']
      {
        var solution := price(n, i, lambda, time);
        colReward := colReward + [solution.expectedReward];
        ub := AddFinite(ub, solution.expectedValueUpperbound.value);
        colCost := colCost + [[[solution.expectedCost]]];
        stored := stored[i := stored[i] + [Some(solution)]];
        i := i + 1;
      }
    }

    /**
     * The master's part of a pricing round: the columns of the agents'
     * solutions for lambda become new columns of the master and the
     * solutions are stored.
     */
    method AddRound(mlp: MasterLP, colReward: seq<real>, colCost: seq<seq<seq<real>>>, stored: seq<seq<Option<AgentSolution>>>,
                    ghost price: (nat, nat, real, real) -> AgentSolution, ghost n: nat, ghost lambda: real, ghost time: real)
      requires Stored(mlp) && |colReward| == nAgents && |colCost| == nAgents && |stored| == nAgents
      requires forall i :: 0 <= i < nAgents ==>
        stored[i] == solutions[i] + [Some(price(n, i, lambda, time))] &&
        colReward[i] == price(n, i, lambda, time).expectedReward && colCost[i] == [[price(n, i, lambda, time).expectedCost]]
      modifies this`solutions, mlp
      ensures Stored(mlp) && solutions == stored
      ensures mlp.policyDistributions == old(mlp.policyDistributions)
    {
      ghost var vars0, coeffs0, variables0 := mlp.vars, mlp.costCoefficients, mlp.model.variables;
      mlp.AddColumns(colReward, colCost);
      MasterShape(mlp);
      StoredAppend(solutions, vars0, coeffs0, variables0, nAgents, noConsumptionAction == -1, price, n, lambda, time, colReward, colCost,
                   stored, mlp.vars, mlp.costCoefficients, mlp.model.variables);
      solutions := stored;
    }

    /**
     * One pricing round of solve: the agents' solutions for lambda are
     * stored and become new columns of the master, and the bound is the one
     * they give.
     */
    method PricingRound(mlp: MasterLP, n: nat, lambda: real, price: (nat, nat, real, real) -> AgentSolution)
      requires Stored(mlp) && FiniteBounds(price)
      modifies this`numIterations, this`objectiveUpperbound, this`solutions, mlp
      ensures Stored(mlp) && numIterations == old(numIterations) + 1
      ensures objectiveUpperbound == Finite(RoundUpperBound(price, n, lambda, cpomdpSolver.terminateTime, nAgents, costLimit))
      ensures forall i :: 0 <= i < nAgents ==>
        solutions[i] == old(solutions[i]) + [Some(price(n, i, lambda, cpomdpSolver.terminateTime))]
      ensures mlp.policyDistributions == old(mlp.policyDistributions)
    {
      var time := cpomdpSolver.terminateTime;
      var colReward, colCost, ub, stored := PriceAgents(n, lambda, time, price);
      numIterations, objectiveUpperbound := numIterations + 1, ub;
      AddRound(mlp, colReward, colCost, stored, price, n, lambda, time);
    }

    /** One solve of the master by lp: the objective and the dual price of the budget row. */
    method SolveMaster(mlp: MasterLP, lp: LPModel -> LPSolution) returns (objective: real, lambda: real)
      requires Stored(mlp) && forall m: LPModel :: m.Valid() ==> Answers(m, lp(m))
      modifies mlp
      ensures Stored(mlp) && mlp.model == old(mlp.model)
      ensures Answers(mlp.model, lp(mlp.model)) && CostRow(1, 0, 0) < |mlp.model.constraints|
      ensures objective == lp(mlp.model).objective && lambda == lp(mlp.model).duals[CostRow(1, 0, 0)]
      ensures Distributed(mlp, lp)
    {
      MasterShape(mlp);
      var answer := lp(mlp.model);
      mlp.Solve(answer);
      objective := mlp.GetExpectedReward();
      lambda := mlp.GetLambda(0, 0);
    }

    /**
     * getSolution: without a no-consumption action the dummy's weight must
     * be below 1e-5, and every column of positive weight must have a stored
     * solution; the kept columns form the mixture.
     */
    method GetSolution(agent: nat, distribution: seq<real>) returns (r: Result<POMDPPolicySet>)
      requires agent < |solutions| && |distribution| == |solutions[agent]| >= 1
      ensures r == GetSolutionAsWritten(noConsumptionAction, distribution, solutions[agent])
    {
      if noConsumptionAction == -1 && !(distribution[0] < 0.00001) {
        return Failure("Dummy policy cannot be selected");
      }
      var sols := solutions[agent];
      var policies: seq<POMDPPolicyGraph> := [];
      var probabilities: seq<real> := [];
      var expectedReward, expectedCost := 0.0, 0.0;
      var p := 0;
      while p < |distribution|
        invariant 0 <= p <= |distribution|
        invariant forall j :: 0 <= j < p && distribution[j] > 0.0 ==> sols[j].Some?
        invariant policies == KeptPolicies(distribution, sols, p) && probabilities == KeptWeights(distribution, sols, p)
        invariant expectedReward == MixedReward(distribution, sols, p) && expectedCost == MixedCost(distribution, sols, p)
      {
        if distribution[p] > 0.0 {
          if sols[p].None? {
            return Failure("NullPointerException");
          }
          var solution := sols[p].value;
          policies := policies + [solution.policy];
          probabilities := probabilities + [distribution[p]];
          expectedReward := expectedReward + distribution[p] * solution.expectedReward;
          expectedCost := expectedCost + distribution[p] * solution.expectedCost;
        }
        p := p + 1;
      }
      r := Success(POMDPPolicySet(policies, probabilities, expectedReward, expectedReward, expectedCost, PosInf));
    }

    /**
     * The last loop of solve: every agent's mixture under the master's last
     * distribution; the first agent whose getSolution fails ends it.
     */
    method Mixtures(mlp: MasterLP) returns (r: Result<seq<POMDPPolicySet>>)
      requires Stored(mlp) && mlp.policyDistributions.Some? && |mlp.policyDistributions.value| == nAgents
      requires forall i :: 0 <= i < nAgents ==> |mlp.policyDistributions.value[i]| == |solutions[i]| >= 1
      ensures r.Success? <==> forall i :: 0 <= i < nAgents ==>
        GetSolutionAsWritten(noConsumptionAction, mlp.policyDistributions.value[i], solutions[i]).Success?
      ensures r.Success? ==>
        |r.value| == nAgents && forall i :: 0 <= i < nAgents ==> r.value[i] == Mixture(mlp.policyDistributions.value[i], solutions[i])
    {
      var solution := [];
      var i := 0;
      while i < nAgents
        invariant 0 <= i <= nAgents && |solution| == i
        invariant forall i' :: 0 <= i' < i ==>
          GetSolutionAsWritten(noConsumptionAction, mlp.policyDistributions.value[i'], solutions[i']).Success? &&
          solution[i'] == Mixture(mlp.policyDistributions.value[i'], solutions[i'])
      {
        var agentDistribution := mlp.GetPolicyDistribution(i);
        var ps := GetSolution(i, agentDistribution);
        if ps.Failure? {
          return Failure(ps.error);
        }
        solution := solution + [ps.value];
        i := i + 1;
      }
      r := Success(solution);
    }

    /**
     * The tests of one pass, in the order of the code, on the pass p made
     * from the master's answer: stop on time, on a small gap, or on a
     * converged lambda unless the objective rose often enough, in which case
     * the subproblem solver gets more time and the loop variables restart;
     * otherwise price a round of columns at lambda. When it does not stop,
     * the loop variables and fields are the state after p.
     */
    method Act(mlp: MasterLP, price: (nat, nat, real, real) -> AgentSolution, k: nat, elapsedTime: real, objective: real,
               lambda: real, oldLambda: XReal, increases: nat, ghost p: Pass, ghost c: Settings)
      returns (stop: bool, currentLambda: XReal, numObjectiveIncrease: nat)
      requires Stored(mlp) && FiniteBounds(price) && c == Config()
      requires forall i :: 0 <= i < nAgents ==> |solutions[i]| == numIterations + 1
      requires p == Pass(elapsedTime, objectiveUpperbound, objective, numIterations, oldLambda, lambda, increases,
                         cpomdpSolver.terminateTime, p.decision)
      requires p.decision == Decide(p, c)
      modifies this`solutions, this`numIterations, this`objectiveUpperbound, cpomdpSolver`terminateTime, mlp
      ensures Stored(mlp) && c == Config() && forall i :: 0 <= i < nAgents ==> |solutions[i]| == numIterations + 1
      ensures stop == Stops(p.decision)
      ensures stop ==> numIterations == old(numIterations) && unchanged(mlp)
      ensures !stop ==>
        LoopState(currentLambda, Finite(objective), numObjectiveIncrease, numIterations, objectiveUpperbound,
                  cpomdpSolver.terminateTime) == After(p, k, c, price, nAgents, costLimit)
      ensures p.decision == MoreTime ==> mlp.model == old(mlp.model)
    {
      currentLambda := Finite(lambda);
      numObjectiveIncrease := increases;
      stop := true;
      if elapsedTime > terminateTime {
      } else if GapSmallAsWritten(objectiveUpperbound, objective) {
      } else if numIterations > 1 && LambdaClose(oldLambda, lambda, lambdaTolerance) {
        if useRuntimeIncrease && numObjectiveIncrease > minimumIncreaseRounds {
          cpomdpSolver.IncreaseRuntime(runtimeIncrease);
          currentLambda := PosInf;
          numObjectiveIncrease := 0;
          stop := false;
        }
      } else {
        PricingRound(mlp, k, lambda, price);
        stop := false;
      }
    }

    /**
     * The work of one pass: the master is solved, the objective increases
     * are counted, and the pass made from the loop state and the master's
     * answer is acted on.
     */
    method Step(mlp: MasterLP, lp: LPModel -> LPSolution, price: (nat, nat, real, real) -> AgentSolution, elapsedTime: real,
                k: nat, lambda0: XReal, objective0: XReal, increases0: nat, ghost c: Settings)
      returns (currentLambda: XReal, currentObjective: XReal, numObjectiveIncrease: nat, stop: bool, ghost p: Pass)
      requires Stored(mlp) && FiniteBounds(price) && c == Config()
      requires forall i :: 0 <= i < nAgents ==> |solutions[i]| == numIterations + 1
      requires forall m: LPModel :: m.Valid() ==> Answers(m, lp(m))
      modifies this`solutions, this`numIterations, this`objectiveUpperbound, cpomdpSolver`terminateTime, mlp
      ensures Stored(mlp) && forall i :: 0 <= i < nAgents ==> |solutions[i]| == numIterations + 1
      ensures Answers(old(mlp.model), lp(old(mlp.model))) && CostRow(1, 0, 0) < |old(mlp.model).constraints|
      ensures p == PassFrom(LoopState(lambda0, objective0, increases0, old(numIterations), old(objectiveUpperbound), old(cpomdpSolver.terminateTime)),
                            elapsedTime, lp(old(mlp.model)).objective, lp(old(mlp.model)).duals[CostRow(1, 0, 0)], c)
      ensures stop == Stops(p.decision)
      ensures stop ==> numIterations == old(numIterations) && mlp.model == old(mlp.model) && Distributed(mlp, lp)
      ensures !stop ==>
        LoopState(currentLambda, currentObjective, numObjectiveIncrease, numIterations, objectiveUpperbound,
                  cpomdpSolver.terminateTime) == After(p, k, c, price, nAgents, costLimit)
      ensures p.decision == MoreTime ==> mlp.model == old(mlp.model)
    {
      ghost var st := LoopState(lambda0, objective0, increases0, numIterations, objectiveUpperbound, cpomdpSolver.terminateTime);
      var objective, lambda := SolveMaster(mlp, lp);
      var increases := increases0;
      if Less(objective0, Finite(objective)) {
        increases := increases + 1;
      }
      currentObjective := Finite(objective);
      p := PassFrom(st, elapsedTime, objective, lambda, c);
      stop, currentLambda, numObjectiveIncrease := Act(mlp, price, k, elapsedTime, objective, lambda, lambda0, increases, p, c);
    }

    /** The loop's state after a pass, assembled from what the pass did: the loop finishes or goes on. */
    lemma Conclude(mlp: MasterLP, lp: LPModel -> LPSolution, price: (nat, nat, real, real) -> AgentSolution, elapsed: nat -> real,
                   passes: seq<Pass>, masters: seq<LPModel>, lambda: XReal, objective: XReal, increases: nat, stop: bool,
                   ub0: XReal, time0: real, c: Settings)
      requires Stored(mlp) && FiniteBounds(price) && c == Config() && |passes| > 0
      requires forall i :: 0 <= i < nAgents ==> |solutions[i]| == numIterations + 1
      requires Observed(passes, masters, lp, elapsed)
      requires stop == Stops(passes[|passes| - 1].decision)
      requires stop ==>
        Finished(passes, numIterations, ub0, time0, c, price, nAgents, costLimit) &&
        masters[|passes| - 1] == mlp.model && Distributed(mlp, lp)
      requires !stop ==>
        Running(passes, LoopState(lambda, objective, increases, numIterations, objectiveUpperbound, cpomdpSolver.terminateTime),
                ub0, time0, c, price, nAgents, costLimit)
      requires passes[|passes| - 1].decision == MoreTime ==> masters[|passes| - 1] == mlp.model
      ensures stop ==> Done(mlp, lp, price, elapsed, passes, masters, ub0, time0, c)
      ensures !stop ==> Looping(mlp, lp, price, elapsed, passes, masters, lambda, objective, increases, ub0, time0, c)
    {
    }

    /**
     * One pass of the loop of solve, from the loop variables lambda0,
     * objective0 and increases0 after the passes so far: the master is
     * solved, the objective increases are counted, and the pass made from
     * the state and the master's answer is acted on. The passes with the new
     * one either finish the loop or go on from the new loop variables and
     * fields.
     */
    method Iterate(mlp: MasterLP, lp: LPModel -> LPSolution, price: (nat, nat, real, real) -> AgentSolution, elapsed: nat -> real,
                   k: nat, lambda0: XReal, objective0: XReal, increases0: nat,
                   ghost passes: seq<Pass>, ghost masters: seq<LPModel>, ghost ub0: XReal, ghost time0: real, ghost c: Settings)
      returns (currentLambda: XReal, currentObjective: XReal, numObjectiveIncrease: nat, stop: bool,
               ghost next: seq<Pass>, ghost nextMasters: seq<LPModel>)
      requires Looping(mlp, lp, price, elapsed, passes, masters, lambda0, objective0, increases0, ub0, time0, c) && k == |passes|
      requires forall m: LPModel :: m.Valid() ==> Answers(m, lp(m))
      modifies this`solutions, this`numIterations, this`objectiveUpperbound, cpomdpSolver`terminateTime, mlp
      ensures |next| == k + 1 && (elapsed(k) > c.terminateTime ==> stop)
      ensures stop ==> Done(mlp, lp, price, elapsed, next, nextMasters, ub0, time0, c)
      ensures !stop ==> Looping(mlp, lp, price, elapsed, next, nextMasters, currentLambda, currentObjective, numObjectiveIncrease, ub0, time0, c)
    {
      ghost var st := LoopState(lambda0, objective0, increases0, numIterations, objectiveUpperbound, cpomdpSolver.terminateTime);
      ghost var model := mlp.model;
      ghost var p: Pass;
      currentLambda, currentObjective, numObjectiveIncrease, stop, p := Step(mlp, lp, price, elapsed(k), k, lambda0, objective0, increases0, c);
      Advance(passes, st, p, elapsed(k), lp(model).objective, lp(model).duals[CostRow(1, 0, 0)], ub0, time0, c, price, nAgents, costLimit);
      ObservedSnoc(passes, masters, lp, elapsed, p, model);
      next, nextMasters := passes + [p], masters + [model];
      Conclude(mlp, lp, price, elapsed, next, nextMasters, currentLambda, currentObjective, numObjectiveIncrease, stop, ub0, time0, c);
    }

    /**
     * The loop of solve on the master mlp: lp answers the master,
     * price(n, i, lambda, time) is the subproblem solver's answer for agent
     * i in pass n, and elapsed(n) the time at pass n. The passes finish the
     * loop and each was observed on the master masters[k] it solved, every
     * pricing round added one column per agent, and the master's last
     * distributions are lp's values of its columns on the last master.
     */
    method Loop(mlp: MasterLP, lp: LPModel -> LPSolution, price: (nat, nat, real, real) -> AgentSolution, elapsed: nat -> real)
      returns (ghost passes: seq<Pass>, ghost masters: seq<LPModel>)
      requires Stored(mlp) && FiniteBounds(price) && numIterations == 0
      requires forall i :: 0 <= i < nAgents ==> |solutions[i]| == 1
      requires forall m: LPModel :: m.Valid() ==> Answers(m, lp(m))
      requires exists n: nat :: elapsed(n) > terminateTime
      modifies this`solutions, this`numIterations, this`objectiveUpperbound, cpomdpSolver`terminateTime, mlp
      ensures Done(mlp, lp, price, elapsed, passes, masters, old(objectiveUpperbound), old(cpomdpSolver.terminateTime), Config())
    {
      ghost var ub0, time0, c := objectiveUpperbound, cpomdpSolver.terminateTime, Config();
      var currentLambda, currentObjective := PosInf, NegInf;
      var numObjectiveIncrease: nat := 0;
      ghost var n0: nat :| elapsed(n0) > terminateTime;
      passes, masters := [], [];
      var k: nat := 0;
      while true
        invariant k == |passes| && k <= n0 && elapsed(n0) > c.terminateTime
        invariant Looping(mlp, lp, price, elapsed, passes, masters, currentLambda, currentObjective, numObjectiveIncrease, ub0, time0, c)
        decreases n0 - k
      {
        var stop;
        currentLambda, currentObjective, numObjectiveIncrease, stop, passes, masters :=
          Iterate(mlp, lp, price, elapsed, k, currentLambda, currentObjective, numObjectiveIncrease, passes, masters, ub0, time0, c);
        assert stop || k < n0;
        k := k + 1;
        if stop {
          break;
        }
      }
    }

    /**
     * The end of solve: the last distributions of the master, which are lp's
     * values of the agents' columns, are turned into one mixture per agent.
     */
    method Extract(mlp: MasterLP, lp: LPModel -> LPSolution)
      returns (solution: Result<seq<POMDPPolicySet>>, ghost columns: seq<seq<nat>>, ghost dists: seq<seq<real>>)
      requires Stored(mlp) && Distributed(mlp, lp)
      ensures columns == mlp.vars && dists == mlp.policyDistributions.value
      ensures |columns| == nAgents && |dists| == nAgents
      ensures forall i :: 0 <= i < nAgents ==>
        |dists[i]| == |solutions[i]| && |columns[i]| == |solutions[i]| &&
        forall j :: 0 <= j < |dists[i]| ==>
          columns[i][j] < |mlp.model.variables| && columns[i][j] < |lp(mlp.model).values| &&
          dists[i][j] == lp(mlp.model).values[columns[i][j]]
      ensures solution.Success? <==> noConsumptionAction != -1 || forall i :: 0 <= i < nAgents ==> dists[i][0] <= 0.0
      ensures solution.Success? ==>
        |solution.value| == nAgents && forall i :: 0 <= i < nAgents ==> solution.value[i] == Mixture(dists[i], solutions[i])
    {
      dists, columns := mlp.policyDistributions.value, mlp.vars;
      forall i | 0 <= i < nAgents
        ensures GetSolutionAsWritten(noConsumptionAction, dists[i], solutions[i]).Success? <==> noConsumptionAction != -1 || dists[i][0] <= 0.0
      {
        GetSolutionFails(noConsumptionAction, dists[i], solutions[i]);
      }
      solution := Mixtures(mlp);
    }

    /** The first columns of solve and its loop, as a trace whose passes were observed on their masters. */
    method Run(infinite: real, lp: LPModel -> LPSolution, price: (nat, nat, real, real) -> AgentSolution, elapsed: nat -> real)
      returns (mlp: MasterLP, ghost passes: seq<Pass>, ghost masters: seq<LPModel>)
      requires Ready() && FiniteBounds(price)
      requires forall m: LPModel :: m.Valid() ==> Answers(m, lp(m))
      requires exists n: nat :: elapsed(n) > terminateTime
      modifies this`solutions, this`numIterations, this`objectiveUpperbound, cpomdpSolver`pomdp, cpomdpSolver`T,
               cpomdpSolver`terminateTime
      ensures fresh(mlp)
      ensures Done(mlp, lp, price, elapsed, passes, masters, old(objectiveUpperbound), old(cpomdpSolver.terminateTime), Config())
    {
      numIterations := 0;
      mlp := InitialMaster(infinite);
      passes, masters := Loop(mlp, lp, price, elapsed);
    }

    /**
     * solve: the first columns, the loop, and each agent's mixture under the
     * master's last distribution dists. The passes of the loop form a trace
     * whose last pass stops, each observed on its master; dists are lp's
     * values of the columns on the last master. The mixtures fail, as
     * getSolution does, exactly when there is no no-consumption action and
     * some agent's dummy column has positive weight.
     */
    method Solve(infinite: real, lp: LPModel -> LPSolution, price: (nat, nat, real, real) -> AgentSolution, elapsed: nat -> real)
      returns (solution: Result<seq<POMDPPolicySet>>, ghost passes: seq<Pass>, ghost masters: seq<LPModel>,
               ghost columns: seq<seq<nat>>, ghost coeffs: seq<seq<seq<seq<real>>>>, ghost dists: seq<seq<real>>)
      requires Ready() && FiniteBounds(price)
      requires forall m: LPModel :: m.Valid() ==> Answers(m, lp(m))
      requires exists n: nat :: elapsed(n) > terminateTime
      modifies this`solutions, this`numIterations, this`objectiveUpperbound, cpomdpSolver`pomdp, cpomdpSolver`T,
               cpomdpSolver`terminateTime
      ensures Trace(passes, old(objectiveUpperbound), old(cpomdpSolver.terminateTime), Config(), price, nAgents, costLimit)
      ensures |passes| >= 1 && Stops(passes[|passes| - 1].decision)
      ensures forall k :: 0 <= k < |passes| - 1 ==> !Stops(passes[k].decision)
      ensures numIterations == PriceCount(passes)
      ensures Observed(passes, masters, lp, elapsed)
      ensures |solutions| == nAgents && forall i :: 0 <= i < nAgents ==> |solutions[i]| == numIterations + 1
      ensures StoredIn(solutions, columns, coeffs, masters[|passes| - 1].variables, nAgents, noConsumptionAction == -1)
      ensures |columns| == nAgents && |dists| == nAgents
      ensures forall i :: 0 <= i < nAgents ==>
        |dists[i]| == |solutions[i]| && |columns[i]| == |solutions[i]| &&
        forall j :: 0 <= j < |dists[i]| ==>
          columns[i][j] < |masters[|passes| - 1].variables| && dists[i][j] == lp(masters[|passes| - 1]).values[columns[i][j]]
      ensures solution.Success? <==> noConsumptionAction != -1 || forall i :: 0 <= i < nAgents ==> dists[i][0] <= 0.0
      ensures solution.Success? ==>
        |solution.value| == nAgents && forall i :: 0 <= i < nAgents ==> solution.value[i] == Mixture(dists[i], solutions[i])
    {
      var mlp;
      mlp, passes, masters := Run(infinite, lp, price, elapsed);
      TraceGoesOn(passes, old(objectiveUpperbound), old(cpomdpSolver.terminateTime), Config(), price, nAgents, costLimit);
      solution, columns, dists := Extract(mlp, lp);
      coeffs := mlp.costCoefficients;
    }
  }
}
