# Constrained planning by column generation — a Dafny model

This project models the column-generation core of ConstrainedPlanningToolbox, a Java library for
multi-agent planning under shared resource constraints.

**Fully observable agents (constrained MDPs).** ColGen solves a master linear program.
- Each column is one agent's deterministic policy. Its coefficients are the policy's expected costs.
- In every round, each agent's best response to the current Lagrange multipliers (the duals of the capacity rows) is computed by finite-horizon value iteration. That response becomes a new column.
- The rounds stop when the multipliers stop moving or time runs out.
- The answer is a mixture of policies per agent, sampled by MDPPolicySet.

**Partially observable agents (constrained POMDPs).** CGCP does the same with FiniteVI, a point-based solver.
- FiniteVI runs Perseus backups over alpha vectors and sawtooth upper bounds over belief points.
- It builds a finite-horizon policy graph, which PolicyGraphEvaluatorFinite evaluates.
- CGCP stops on a time limit, a small optimality gap or converged multipliers, and can give the subproblem solver more time.

**The entities:**
- value types: AlphaVector, policy tables, LP models, traces of CGCP passes, as datatypes;
- objects the source updates in place: BeliefPoint, MDP, POMDP, CMDPInstance, MasterLP, FiniteVI, ColGen, CGCP, the policy classes and ProbabilitySample, as classes.

**Outside input.** These are parameters of the model:
- the LP solver, modelled as an oracle whose answers (variable values, duals, objective) are passed in;
- the clock, passed in as the elapsed time of each pass;
- random draws, passed in as numbers in [0, 1] or as a free choice among the points.

Doubles are modelled as reals. `XReal` adds minus and plus infinity where the code relies on them (empty maxima, the initial upper bounds, the first multipliers of CGCP). `Option` stands for NaN where a logarithm can be undefined.

## Model

| member | source | states |
|---|---|---|
| AlphaVectors.NewVector | src/main/java/model/AlphaVector.java:36-38 | a new vector keeps the entries, has action -1 and no belief point |
| AlphaVectors.GetDotProduct | src/main/java/model/AlphaVector.java:157-168 | the result is the sum of entry times belief over all states |
| AlphaVectors.DotPlus | src/main/java/model/AlphaVector.java:210-226 | the value of a sum of vectors is the sum of their values |
| AlphaVectors.DotUnit | src/main/java/model/AlphaVector.java:157-168 | the value at a corner belief is that state's entry |
| AlphaVectors.SumVectors | src/main/java/model/AlphaVector.java:210-226 | equal sizes and actions are required; the result is the entrywise sum, with the same action and no belief point |
| AlphaVectors.FirstDifference | src/main/java/model/AlphaVector.java:234-252 | the result is the first index where the vectors differ, or their length; the entries before it agree |
| AlphaVectors.LexGreaterThanIff | src/main/java/model/AlphaVector.java:234-252 | the order holds iff some entry is larger and all entries before it are equal |
| AlphaVectors.LexGreaterThanTotal | src/main/java/model/AlphaVector.java:234-252 | the order is irreflexive; two different vectors are ordered one way or the other |
| AlphaVectors.LexGreaterThanTrans | src/main/java/model/AlphaVector.java:234-252 | the order is transitive |
| AlphaVectors.LexGreater | src/main/java/model/AlphaVector.java:234-252 | the scan returns true iff the first vector is lexicographically greater |
| AlphaVectors.BestIsUnique | src/main/java/model/AlphaVector.java:260-281 | at most one index is the best at b: of largest value, not lexicographically below another vector of that value, and the earliest among equal vectors of that value |
| AlphaVectors.GetBestVectorIndex | src/main/java/model/AlphaVector.java:260-281 | -1 for an empty set; otherwise an index of largest value at b whose vector no other vector of that value beats lexicographically, and the earliest such index among equal vectors |
| AlphaVectors.MaxValueIsMax | src/main/java/model/AlphaVector.java:350-363 | the value of a set is at least every member's value and equals one of them |
| AlphaVectors.GetValue | src/main/java/model/AlphaVector.java:350-363 | the largest value at b over the set, minus infinity when the set is empty |
| AlphaVectors.BestAttainsValue | src/main/java/model/AlphaVector.java:260-281 | the best vector's value is the value of the set |
| AlphaVectors.MaxValueGrows | src/main/java/model/AlphaVector.java:350-363 | adding vectors never lowers the value at any belief |
| AlphaVectors.GetMinValue | src/main/java/model/AlphaVector.java:62-72 | the smallest entry (at most every entry and equal to one of them), plus infinity when the vector is empty |
| Beliefs.WrapInt | src/main/java/model/BeliefPoint.java:73-75 | the result lies in the 32-bit range and is congruent to the input modulo 2^32 |
| Beliefs.HistoryHash | src/main/java/model/BeliefPoint.java:73-75 | List.hashCode in 32-bit arithmetic: 1 for the empty list, 31 h + e per element |
| Beliefs.BoxedEqual | src/main/java/model/BeliefPoint.java:88 | boxed Integer == holds for equal values inside the cache [-128, 127], and for shared boxes |
| Beliefs.AsWrittenEquals | src/main/java/model/BeliefPoint.java:77-98 | equals as written: equal lengths and boxed == element by element |
| Beliefs.AsWrittenEqualsMissesEqualHistories | src/main/java/model/BeliefPoint.java:88 | the histories [-200] and [-200], built separately, are equal by value but not equal as written |
| Beliefs.AsWrittenEqualsInCache | src/main/java/model/BeliefPoint.java:88 | inside the Integer cache, equals as written is equality of the histories |
| Beliefs.BeliefPoint.constructor | src/main/java/model/BeliefPoint.java:30-44 | the belief is stored; no cached probabilities, not a state belief, bound +infinity, not tight, empty history |
| Beliefs.BeliefPoint.GetBelief | src/main/java/model/BeliefPoint.java:50-53 | the entry of state s |
| Beliefs.BeliefPoint.AddToHistory | src/main/java/model/BeliefPoint.java:55-57 | the history grows by one element at the end; nothing else changes |
| Beliefs.BeliefPoint.SetHistory | src/main/java/model/BeliefPoint.java:63-65 | the history is replaced; nothing else changes |
| Beliefs.BeliefPoint.GetHistoryCopy | src/main/java/model/BeliefPoint.java:67-71 | the result has the history's elements |
| Beliefs.BeliefPoint.HashCode | src/main/java/model/BeliefPoint.java:73-75 | the hash of the history list |
| Beliefs.BeliefPoint.Equals | src/main/java/model/BeliefPoint.java:77-98 | true iff the histories agree element by element; inside the Integer cache this equals equals as written |
| Beliefs.BeliefPoint.HasActionObservationProbabilities | src/main/java/model/BeliefPoint.java:110-112 | true iff the cache is filled |
| Beliefs.BeliefPoint.SetActionObservationProbabilities | src/main/java/model/BeliefPoint.java:114-118 | an empty cache is filled with the table; nothing else changes |
| Beliefs.BeliefPoint.GetActionObservationProbability | src/main/java/model/BeliefPoint.java:120-123 | the cached entry [a][o]; the cache must be filled |
| Beliefs.BeliefPoint.GetUpperBound | src/main/java/model/BeliefPoint.java:125-127 | the stored bound |
| Beliefs.BeliefPoint.SetUpperBound | src/main/java/model/BeliefPoint.java:129-132 | the bound becomes the new value, which must exceed minus infinity |
| Beliefs.BeliefPoint.SetStateBelief | src/main/java/model/BeliefPoint.java:134-136 | the point becomes a state belief |
| Beliefs.BeliefPoint.SetState | src/main/java/model/BeliefPoint.java:142-144 | the state is stored |
| Beliefs.BeliefPoint.GetState | src/main/java/model/BeliefPoint.java:146-149 | the state, of a state belief only |
| Beliefs.BeliefPoint.SetUpperBoundTight | src/main/java/model/BeliefPoint.java:155-157 | the bound becomes tight |
| Beliefs.BeliefPoint.ResetUpperBound | src/main/java/model/BeliefPoint.java:159-162 | the bound is back at +infinity and not tight |
| Beliefs.BeliefPoint.SetBeliefTransitionMap | src/main/java/model/BeliefPoint.java:164-166 | the transition map is stored |
| Numeric.Clamp01 | src/main/java/solutions/pomdp/POMDPPolicyFSC.java:95-103 | the result lies in [0, 1] and equals p when p already does |
| Numeric.CeilLog10Bounds | src/main/java/algorithms/pomdp/cgcp/CGCP.java:171 | the ceiling of log10 m is the exponent e with 10^(e-1) < m <= 10^e |
| Numeric.AllowedGap | src/main/java/algorithms/pomdp/cgcp/CGCP.java:171 | Math.pow(10, ceil(log10 m) - 3): None for a non-positive or minus-infinite m, +infinity for +infinity, otherwise g with 100 g < m <= 1000 g |
| Numeric.MaxX | src/main/java/algorithms/pomdp/cgcp/CGCP.java:171 | Math.max: at least both arguments and equal to one of them |
| Mdp.ActionRange | src/main/java/model/MDP.java:343-352 | the actions 0 .. nA-1 in increasing order |
| Mdp.InitDefaultFeasibleActions | src/main/java/model/MDP.java:343-352 | every action is feasible in every state at every time |
| Mdp.ExtremesOfTable | src/main/java/model/MDP.java:90-104 | the minimum and maximum of a table bound every entry and are entries of it |
| Mdp.FoldRow | src/main/java/model/MDP.java:90-104 | the running minimum and maximum over one row |
| Mdp.FoldExtremes | src/main/java/model/MDP.java:90-104 | the running minimum and maximum over an nS x nA table |
| Mdp.TimeTableExtremes | src/main/java/model/MDP.java:110-127 | the minimum and maximum over a time-indexed table |
| Mdp.MDP.constructor | src/main/java/model/MDP.java:45-51 | sizes stored, no rewards or transitions yet, every action feasible |
| Mdp.MDP.SetRewardFunction | src/main/java/model/MDP.java:90-104 | the stationary table is stored, with its minimum and maximum |
| Mdp.MDP.SetTimeRewardFunction | src/main/java/model/MDP.java:110-127 | the time table is stored, with its minimum and maximum over the horizon |
| Mdp.MDP.SetTransitionFunction | src/main/java/model/MDP.java:217-224 | stationary transitions are stored; the time-dependent ones are dropped |
| Mdp.MDP.SetTimeTransitionFunction | src/main/java/model/MDP.java:231-238 | time-dependent transitions are stored; the stationary ones are dropped |
| Mdp.MDP.GetTransitionProbabilities | src/main/java/model/MDP.java:258-262 | the stationary probabilities of (s, a) |
| Mdp.MDP.GetTransitionProbabilitiesAt | src/main/java/model/MDP.java:291-302 | the time table's entry if transitions are time-dependent, the stationary one otherwise |
| Mdp.MDP.SetFeasibleActions | src/main/java/model/MDP.java:358-360 | the feasible lists are replaced |
| Cmdp.CMDP.constructor | src/main/java/model/CMDP.java:28-50 | the cost tables are stored with, per resource, their minimum and maximum |
| Instance.CMDPInstance.constructor | src/main/java/instances/CMDPInstance.java:33-45 | an instantaneous instance with one limit per resource and time |
| Instance.CMDPInstance.GetCostLimit | src/main/java/instances/CMDPInstance.java:98-106 | the budget limit of resource k; budget instances only |
| Instance.CMDPInstance.GetCostLimitAt | src/main/java/instances/CMDPInstance.java:114-122 | the limit of (k, t); instantaneous instances only |
| Instance.CreateInstantaneousInstance | src/main/java/instances/CMDPInstance.java:160-172 | an instantaneous instance with the given limits |
| Instance.ReplicateLimits | src/main/java/instances/CMDPInstance.java:147-151 | limit k repeated at every one of the T epochs |
| Instance.CreateInstantaneousInstanceUniform | src/main/java/instances/CMDPInstance.java:147-151 | every limit holds at every epoch |
| Instance.CreateBudgetInstance | src/main/java/instances/CMDPInstance.java:181-185 | a budget instance with the given limits |
| Pomdp.AddAtSum | src/main/java/model/POMDP.java:121-131 | scattering weights adds their total to the vector's total |
| Pomdp.AddAtEntry | src/main/java/model/POMDP.java:121-131 | each entry gains exactly the weights aimed at it |
| Pomdp.AOTable | src/main/java/model/POMDP.java:75-95 | entry [a][o] is P(o \| b, a) |
| Pomdp.ScatteredEntry | src/main/java/model/POMDP.java:121-131 | entry s' of the new belief is P(s', o \| b, a) / nc |
| Pomdp.ScatteredSum | src/main/java/model/POMDP.java:121-131 | the new belief sums to P(o \| b, a) / nc |
| Pomdp.Posterior | src/main/java/model/POMDP.java:107-134 | the updated belief has one entry per state |
| Pomdp.PosteriorIsNormalisedJoint | src/main/java/model/POMDP.java:107-134 | b^{a,o}(s') = P(s', o \| b, a) / P(o \| b, a) |
| Pomdp.PosteriorSumsToOne | src/main/java/model/POMDP.java:107-134 | when P(o \| b, a) > 0 the updated belief sums to 1 |
| Pomdp.POMDP.constructor | src/main/java/model/POMDP.java:26-31 | the model's tables, sizes and initial belief are stored |
| Pomdp.POMDP.GetObservationProbability | src/main/java/model/POMDP.java:48-51 | the observation table's entry [a][s'][o] |
| Pomdp.POMDP.AddSuccessorWeights | src/main/java/model/POMDP.java:85-90 | prob grows by the weights of the successors of s |
| Pomdp.POMDP.ObservationProbability | src/main/java/model/POMDP.java:79-91 | the sum is P(o \| b, a) |
| Pomdp.POMDP.PrepareBelief | src/main/java/model/POMDP.java:72-98 | an unprepared point gets the table AOTable(b); a prepared point is left alone |
| Pomdp.POMDP.ScatterSuccessors | src/main/java/model/POMDP.java:125-130 | the successors of s receive their shares |
| Pomdp.POMDP.ScatterAll | src/main/java/model/POMDP.java:121-131 | every state's successors receive their shares, starting from zeros |
| Pomdp.POMDP.PreparedUpdate | src/main/java/model/POMDP.java:116-133 | a fresh point holding Posterior(b, a, o) |
| Pomdp.POMDP.UpdateBelief | src/main/java/model/POMDP.java:107-134 | b is prepared if needed; a fresh point holds the posterior, which sums to 1 |
| Pomdp.POMDP.GetCost | src/main/java/model/CPOMDP.java:58-62 | the cost table's entry [k][s][a] |
| Pomdp.POMDP.GetReward | src/main/java/model/MDP.java:153-156 | the reward table's entry [s][a] |
| Sampling.FirstCovering | src/main/java/util/ProbabilitySample.java:42-60 | the first index whose cumulative probability reaches r, or the list's length |
| Sampling.ClampedItems | src/main/java/solutions/mdp/MDPPolicySet.java:46-56 | one item per index with its probability clamped into [0, 1], zero items dropped |
| Sampling.ProbabilitySample.AddItem | src/main/java/util/ProbabilitySample.java:34-40 | a zero-probability item is dropped; any other is appended |
| Sampling.ProbabilitySample.SampleItem | src/main/java/util/ProbabilitySample.java:42-60 | the item at FirstCovering(r), or the last item when the mass falls short |
| Sampling.FirstCoveringSkip | src/main/java/util/ProbabilitySample.java:42-60 | once the prefixes below i miss r, scanning from 0 and from i agree |
| Sampling.SampleObjectInline | src/main/java/util/ProbabilitySample.java:89-102 | a single item without looking at r; otherwise the item where the cumulative sum reaches r, or an out-of-range failure |
| Sampling.SampleItemInline | src/main/java/util/ProbabilitySample.java:72-87 | the same scan over parallel arrays |
| Sampling.InlineSucceedsWhenMassReachesR | src/main/java/util/ProbabilitySample.java:89-102 | with total mass at least r the scan stops inside the list |
| Sampling.SmallDrawSelectsFirst | src/main/java/util/ProbabilitySample.java:89-102 | a draw at or below the first probability selects the first item |
| MdpPolicies.MDPPolicySet.Chosen | src/main/java/solutions/mdp/MDPPolicySet.java:46-56 | the policy drawn at r is one of the set's policies |
| MdpPolicies.MDPPolicySet.GetPolicy | src/main/java/solutions/mdp/MDPPolicySet.java:46-56 | the policy at the index the sampler draws at r |
| MdpPolicies.FillSampler | src/main/java/solutions/mdp/MDPPolicySet.java:48-52 | the sampler holds ClampedItems of the probabilities |
| MdpPolicies.AddClamped | src/main/java/solutions/mdp/MDPPolicySet.java:48-52 | one more clamped item is offered |
| MdpPolicies.MDPAgentSolution.GetPolicy | src/main/java/solutions/mdp/MDPPolicyDeterministic.java:41-44 | a deterministic solution returns itself; a mixture draws one policy |
| MdpPolicies.CMDPSolutionPolicyBased.constructor | src/main/java/solutions/mdp/CMDPSolutionPolicyBased.java:31-33 | the agents' solutions are stored; no current policies |
| MdpPolicies.CMDPSolutionPolicyBased.GetActions | src/main/java/solutions/mdp/CMDPSolutionPolicyBased.java:36-51 | at t = 0 one policy is drawn per agent; every agent's action is its current policy's action at (t, s_i) |
| MdpPolicies.CMDPSolutionPolicyBased.GetExpectedReward | src/main/java/solutions/mdp/CMDPSolutionPolicyBased.java:54-62 | the sum of the agents' expected rewards |
| MdpPolicies.CMDPSolutionPolicyBased.GetExpectedTotalCost | src/main/java/solutions/mdp/CMDPSolutionPolicyBased.java:65-73 | the sum of the agents' expected total costs of resource k |
| MdpPolicies.CMDPSolutionPolicyBased.GetExpectedInstantaneousCost | src/main/java/solutions/mdp/CMDPSolutionPolicyBased.java:76-84 | the sum of the agents' costs of (k, t) |
| MdpPolicies.ChosenDefines | src/main/java/solutions/mdp/CMDPSolutionPolicyBased.java:36-51 | a drawn policy defines every action its solution defines |
| PolicyGraph.POMDPPolicyGraph.Next | src/main/java/solutions/pomdp/POMDPPolicyGraph.java:65-75 | below the last layer, one layer further at the node's transition; at the last layer no move |
| PolicyGraph.POMDPPolicyGraph.RunLayer | src/main/java/solutions/pomdp/POMDPPolicyGraph.java:65-75 | after k observations from layer l the walk is at layer min(l + k, last) |
| PolicyGraph.POMDPPolicyGraph.RunAtLastLayer | src/main/java/solutions/pomdp/POMDPPolicyGraph.java:65-75 | at the last layer no observation moves the walk |
| PolicyGraph.POMDPPolicyGraph.constructor | src/main/java/solutions/pomdp/POMDPPolicyGraph.java:47-58 | the tables are stored; the walk starts at layer 0 and the start node |
| PolicyGraph.POMDPPolicyGraph.GetAction | src/main/java/solutions/pomdp/POMDPPolicyGraph.java:60-63 | the action of the current node; t must be the current layer |
| PolicyGraph.POMDPPolicyGraph.Update | src/main/java/solutions/pomdp/POMDPPolicyGraph.java:65-75 | the position becomes Next(o) |
| PolicyGraph.POMDPPolicyGraph.Reset | src/main/java/solutions/pomdp/POMDPPolicyGraph.java:77-80 | back to layer 0 and the start node |
| PolicyFsc.SumNextNodeWeights | src/main/java/solutions/pomdp/POMDPPolicyFSC.java:67-69 | the sum of the next-node weights |
| PolicyFsc.CheckNodeWeights | src/main/java/solutions/pomdp/POMDPPolicyFSC.java:61-74 | true iff every (a, o) row of node q sums to 1 |
| PolicyFsc.CheckWeights | src/main/java/solutions/pomdp/POMDPPolicyFSC.java:61-74 | true iff no assertion of the weight check would fail |
| PolicyFsc.CheckPolicyRow | src/main/java/solutions/pomdp/POMDPPolicyFSC.java:77-86 | true iff the entries lie in [0, 1] and sum to 1 |
| PolicyFsc.CheckPolicy | src/main/java/solutions/pomdp/POMDPPolicyFSC.java:77-86 | true iff no assertion of the policy check would fail |
| PolicyFsc.FillClampedSampler | src/main/java/solutions/pomdp/POMDPPolicyFSC.java:95-103 | the sampler holds the clamped items |
| PolicyFsc.Draw | src/main/java/solutions/pomdp/POMDPPolicyFSC.java:90-106 | the drawn index has positive probability |
| PolicyFsc.SampledIsItem | src/main/java/util/ProbabilitySample.java:42-60 | sampleItem returns one of the items |
| PolicyFsc.POMDPPolicyFSC.constructor | src/main/java/solutions/pomdp/POMDPPolicyFSC.java:45-87 | both checks must pass; start node at time 0 |
| PolicyFsc.POMDPPolicyFSC.GetAction | src/main/java/solutions/pomdp/POMDPPolicyFSC.java:90-106 | t must be the current time; the action is the draw at r from the node's clamped row |
| PolicyFsc.POMDPPolicyFSC.Update | src/main/java/solutions/pomdp/POMDPPolicyFSC.java:109-125 | the next node is drawn from the clamped weights; time advances by one |
| PolicyFsc.POMDPPolicyFSC.Reset | src/main/java/solutions/pomdp/POMDPPolicyFSC.java:148-151 | back to the start node at time 0 |
| ValueIteration.TablesOf | src/main/java/algorithms/mdp/colgen/ValueIterationFiniteHorizon.java:58-63 | the model's feasible actions, rewards and transitions over the horizon |
| ValueIteration.ActionValues | src/main/java/algorithms/mdp/colgen/ValueIterationFiniteHorizon.java:58-94 | one value per feasible action, in list order |
| ValueIteration.FirstMaxIsFirst | src/main/java/algorithms/mdp/colgen/ValueIterationFiniteHorizon.java:89-93 | a strict > scan lands on the first index of maximal value |
| ValueIteration.OptUnfold | src/main/java/algorithms/mdp/colgen/ValueIterationFiniteHorizon.java:52-100 | the optimum at (t, s) is the backup against the next layer, with a feasible action |
| ValueIteration.OptIsFirstMax | src/main/java/algorithms/mdp/colgen/ValueIterationFiniteHorizon.java:58-98 | the chosen action attains the value, beats every feasible action and is the first to do so |
| ValueIteration.LastStepNoContinuation | src/main/java/algorithms/mdp/colgen/ValueIterationFiniteHorizon.java:69-77 | at t = T-1 the value of an action is its probability mass times its Lagrangian reward |
| ValueIteration.RewardIsUnweighted | src/main/java/algorithms/mdp/colgen/ValueIterationFiniteHorizon.java:78-86 | before T-1 the reward total is the unweighted reward plus the next layer's reward |
| ValueIteration.ClampAll | src/main/java/algorithms/mdp/colgen/ValueIterationFiniteHorizon.java:130-134 | every entry lies in [0, 1] and entries already there are kept |
| ValueIteration.Step | src/main/java/algorithms/mdp/colgen/ValueIterationFiniteHorizon.java:120-135 | the probabilities at t + 1 after the states 0 .. n-1 of t have passed on their mass |
| ValueIteration.ForwardOfConsistent | src/main/java/algorithms/mdp/colgen/ValueIterationFiniteHorizon.java:103-137 | the costs at each t are expected costs under the state probabilities; the totals are their sums |
| ValueIteration.ForwardInUnit | src/main/java/algorithms/mdp/colgen/ValueIterationFiniteHorizon.java:130-134 | every propagated probability lies in [0, 1] |
| ValueIteration.LagrangianLoop | src/main/java/algorithms/mdp/colgen/ValueIterationFiniteHorizon.java:70-73 | val = R(t, s, a) - sum over k of lambda_k C_k(s, a) |
| ValueIteration.EvaluateAction | src/main/java/algorithms/mdp/colgen/ValueIterationFiniteHorizon.java:59-87 | the value and reward of action a against the next layer |
| ValueIteration.BestAction | src/main/java/algorithms/mdp/colgen/ValueIterationFiniteHorizon.java:54-98 | maxVal, maxReward and maxAction are those of the first best feasible action |
| ValueIteration.BackupLayer | src/main/java/algorithms/mdp/colgen/ValueIterationFiniteHorizon.java:53-99 | row t of Vvalue, Vreward and pi is backward induction's layer t |
| ValueIteration.BackwardInduction | src/main/java/algorithms/mdp/colgen/ValueIterationFiniteHorizon.java:52-100 | every row equals the recursive optimum |
| ValueIteration.Propagate | src/main/java/algorithms/mdp/colgen/ValueIterationFiniteHorizon.java:120-135 | row t + 1 receives the mass of s and is clamped |
| ValueIteration.AccumulateCosts | src/main/java/algorithms/mdp/colgen/ValueIterationFiniteHorizon.java:114-117 | each resource's cost at t and its total grow by x C_k(s, a) |
| ValueIteration.ForwardLayer | src/main/java/algorithms/mdp/colgen/ValueIterationFiniteHorizon.java:109-136 | the state loop at t takes the arrays to the specification's Step and cost totals |
| ValueIteration.ForwardStep | src/main/java/algorithms/mdp/colgen/ValueIterationFiniteHorizon.java:108-137 | one time step takes the arrays to Advance(F) |
| ValueIteration.ForwardPass | src/main/java/algorithms/mdp/colgen/ValueIterationFiniteHorizon.java:103-137 | the arrays end as ForwardOf of the policy |
| ValueIteration.PolicyTable | src/main/java/algorithms/mdp/colgen/ValueIterationFiniteHorizon.java:139 | pi as a table: the first-max action of backward induction everywhere |
| ValueIteration.OptimalPolicy | src/main/java/algorithms/mdp/colgen/ValueIterationFiniteHorizon.java:52-100 | the policy chooses the optimal first-max action at every (t, s) and the reward is the optimal reward from the initial state |
| ValueIteration.ExpectedCosts | src/main/java/algorithms/mdp/colgen/ValueIterationFiniteHorizon.java:103-137 | each resource's cost per time step and its total are those of the specification's forward pass under the policy |
| ValueIteration.CostRows | src/main/java/algorithms/mdp/colgen/ValueIterationFiniteHorizon.java:139 | row k is expectedInstantaneousCost[k] of the array |
| ValueIteration.Solve | src/main/java/algorithms/mdp/colgen/ValueIterationFiniteHorizon.java:44-140 | the policy is first-max everywhere, the reward is Vreward[0][s0], and the costs are those of the forward pass |
| ValueIteration.SolveBudget | src/main/java/algorithms/mdp/colgen/ValueIterationFiniteHorizon.java:44-140 | Solve with one multiplier per resource |
| ValueIteration.SolveInstantaneous | src/main/java/algorithms/mdp/colgen/ValueIterationFiniteHorizon.java:149-246 | Solve with one multiplier per resource and time |
| MasterProgram.CostRowInjective | src/main/java/algorithms/pomdp/cgcp/MasterLP.java:113-123 | different (k, t) pairs get different capacity rows |
| MasterProgram.CapacityExpression | src/main/java/algorithms/pomdp/cgcp/MasterLP.java:116-120 | the row's coefficient on variable i is agent i's initial cost of (k, t), or 0 |
| MasterProgram.InitialVariables | src/main/java/algorithms/pomdp/cgcp/MasterLP.java:92-109 | variable i is agent i's first column, with reward r_i or -infinite + 1 |
| MasterProgram.CapacityRows | src/main/java/algorithms/pomdp/cgcp/MasterLP.java:113-123 | K x T rows, each LESS_EQUAL its limit |
| MasterProgram.ConvexityRows | src/main/java/algorithms/pomdp/cgcp/MasterLP.java:126-130 | row K T + i has coefficient 1 on variable i and equals 1 |
| MasterProgram.InitialModel | src/main/java/algorithms/pomdp/cgcp/MasterLP.java:87-135 | the model initModel builds: variables, capacity rows, convexity rows |
| MasterProgram.AddResourceTerms | src/main/java/algorithms/pomdp/cgcp/MasterLP.java:210-214 | the column holds expectedCost[k][t] in row k T + t |
| MasterProgram.NewColumn | src/main/java/algorithms/pomdp/cgcp/MasterLP.java:207-214 | 1 in the agent's convexity row and the costs in the capacity rows |
| MasterProgram.AddColumnKeepsColumns | src/main/java/algorithms/pomdp/cgcp/MasterLP.java:216-218 | a new column keeps every old column's coefficients |
| MasterProgram.MixtureCostLoop | src/main/java/algorithms/pomdp/cgcp/MasterLP.java:165-171 | the mixture's cost of (k, t) over agents and columns |
| MasterProgram.AgentCostAtMost | src/main/java/algorithms/pomdp/cgcp/MasterLP.java:162-173 | a distribution over columns that each cost at most c costs at most c |
| MasterProgram.AgentCostOfPureColumn | src/main/java/algorithms/pomdp/cgcp/MasterLP.java:162-173 | a column with all the weight costs its own cost |
| MasterProgram.MasterLP.constructor | src/main/java/algorithms/pomdp/cgcp/MasterLP.java:65-85 | the master is InitialModel of the given columns and limits |
| MasterProgram.MasterLP.AddColumns | src/main/java/algorithms/pomdp/cgcp/MasterLP.java:199-224 | one new variable per agent, in agent order, with its reward and costs |
| MasterProgram.MasterLP.AddAgentColumn | src/main/java/algorithms/pomdp/cgcp/MasterLP.java:207-218 | one agent's new column, as NewColumn builds it; the other columns are kept |
| MasterProgram.MasterLP.Solve | src/main/java/algorithms/pomdp/cgcp/MasterLP.java:137-174 | the distributions are the answer's values, lambda its capacity duals, the reward its objective and the costs the mixture's |
| MasterProgram.MasterLP.Distributions | src/main/java/algorithms/pomdp/cgcp/MasterLP.java:142-150 | each agent's variable values |
| MasterProgram.MasterLP.DualPrices | src/main/java/algorithms/pomdp/cgcp/MasterLP.java:153-158 | the dual price of every capacity row |
| MasterProgram.MasterLP.ExpectedCosts | src/main/java/algorithms/pomdp/cgcp/MasterLP.java:162-173 | expectedCost[k][t] of the mixture |
| GraphEvaluation.Lagrangian | src/main/java/algorithms/pomdp/cgcp/PolicyGraphEvaluatorFinite.java:50-102 | the weight R - lambda C of every (s, a) |
| GraphEvaluation.ValueDifference | src/main/java/algorithms/pomdp/cgcp/PolicyGraphEvaluatorFinite.java:57-93 | evaluation is linear: the value under R - lambda C is the reward value minus lambda times the cost value |
| GraphEvaluation.StartValueDifference | src/main/java/algorithms/pomdp/cgcp/PolicyGraphEvaluatorFinite.java:98-102 | expected value = expected reward - lambda expected cost |
| GraphEvaluation.AddSuccessors | src/main/java/algorithms/pomdp/cgcp/PolicyGraphEvaluatorFinite.java:77-84 | the successor terms of observation o are added |
| GraphEvaluation.NodeStateValue | src/main/java/algorithms/pomdp/cgcp/PolicyGraphEvaluatorFinite.java:64-88 | w0 plus the observation sum of the successors' values of node q in state s |
| GraphEvaluation.BackupLayer | src/main/java/algorithms/pomdp/cgcp/PolicyGraphEvaluatorFinite.java:57-93 | layer t's table holds the recursive node value of every node and state, from layer t + 1's |
| GraphEvaluation.LayerZeroValues | src/main/java/algorithms/pomdp/cgcp/PolicyGraphEvaluatorFinite.java:57-93 | the table of layer 0, from the all-zero last layer, holds the recursive node values |
| GraphEvaluation.Expectation | src/main/java/algorithms/pomdp/cgcp/PolicyGraphEvaluatorFinite.java:98-102 | the start node's row weighted by the initial belief |
| GraphEvaluation.PolicyGraphEvaluatorFinite.constructor | src/main/java/algorithms/pomdp/cgcp/PolicyGraphEvaluatorFinite.java:37-40 | the model and graph are stored |
| GraphEvaluation.PolicyGraphEvaluatorFinite.Evaluate | src/main/java/algorithms/pomdp/cgcp/PolicyGraphEvaluatorFinite.java:42-141 | the three expectations are those of the recursive node values; value = reward - lambda cost |
| PointBackups.FirstMaxUnique | src/main/java/algorithms/pomdp/cgcp/FiniteVI.java:186-194 | only one index is the first of largest value |
| PointBackups.BackProjection | src/main/java/algorithms/pomdp/cgcp/FiniteVI.java:117-133 | entry s is the sum over successors s' of O(a, s', o) P(s' \| s, a) v(s') |
| PointBackups.DotBackProjection | src/main/java/algorithms/pomdp/cgcp/FiniteVI.java:107-143 | the value at b of a projection is the b-weighted sum over all successors |
| PointBackups.ProjectionValue | src/main/java/algorithms/pomdp/cgcp/FiniteVI.java:107-143 | the value at b of v's projection is P(o \| b, a) times v's value at b^{a,o} |
| PointBackups.BackupAt | src/main/java/algorithms/pomdp/cgcp/FiniteVI.java:145-199 | the candidate of the first best action, tagged with that action and bp |
| PointBackups.ChosenProjectionValue | src/main/java/algorithms/pomdp/cgcp/FiniteVI.java:153-168 | the kept projection is worth P(o \| b, a) times the best value of V at b^{a,o} |
| PointBackups.BackupIsLookAhead | src/main/java/algorithms/pomdp/cgcp/FiniteVI.java:173-180 | each candidate is worth that action's one-step look-ahead |
| PointBackups.BackupAtIsBellman | src/main/java/algorithms/pomdp/cgcp/FiniteVI.java:145-199 | the backup is a Bellman backup: at least every action's look-ahead and equal to one |
| PointBackups.StateUppersMeaning | src/main/java/algorithms/pomdp/cgcp/FiniteVI.java:206-217 | a corner's bound is that of the last state belief for it, 0 when there is none |
| PointBackups.RatioFinite | src/main/java/algorithms/pomdp/cgcp/FiniteVI.java:231-240 | the least ratio is finite iff bb has a positive entry |
| PointBackups.RatioLeast | src/main/java/algorithms/pomdp/cgcp/FiniteVI.java:231-240 | the least ratio is at most every ratio |
| PointBackups.RatioAttained | src/main/java/algorithms/pomdp/cgcp/FiniteVI.java:231-240 | a finite least ratio is attained |
| PointBackups.LeastOfferFinite | src/main/java/algorithms/pomdp/cgcp/FiniteVI.java:226-249 | the least offer is finite iff some stored point is not a state belief |
| PointBackups.LeastOfferLeast | src/main/java/algorithms/pomdp/cgcp/FiniteVI.java:226-249 | the least offer is at most every point's offer |
| PointBackups.LeastOfferAttained | src/main/java/algorithms/pomdp/cgcp/FiniteVI.java:226-249 | a finite least offer is some point's offer |
| PointBackups.SawToothAtStoredPoint | src/main/java/algorithms/pomdp/cgcp/FiniteVI.java:201-259 | the sawtooth bound at a stored point is at most its stored bound |
| PointBackups.OfferAtOwnBelief | src/main/java/algorithms/pomdp/cgcp/FiniteVI.java:226-247 | at its own belief a point offers its bound minus the corner interpolation |
| PointBackups.RunningMaxIsMax | src/main/java/algorithms/pomdp/cgcp/FiniteVI.java:551-573 | a strict > scan is the maximum of the values |
| PointBackups.ScanUpperIsRunningMax | src/main/java/algorithms/pomdp/cgcp/FiniteVI.java:551-573 | the action scan is the running maximum of the look-aheads |
| PointBackups.UpperBoundIsBest | src/main/java/algorithms/pomdp/cgcp/FiniteVI.java:551-575 | the new bound is the largest action look-ahead |
| PointBackups.HorizonLookAhead | src/main/java/algorithms/pomdp/cgcp/FiniteVI.java:261-266 | past the horizon an action's look-ahead is its immediate reward |
| PointBackups.HorizonSuccessor | src/main/java/algorithms/pomdp/cgcp/FiniteVI.java:261-266 | past the horizon an observation adds nothing |
| PointBackups.Gap | src/main/java/algorithms/pomdp/cgcp/FiniteVI.java:583-589 | upper - lower, +infinity without a lower bound |
| FiniteHorizonVI.Unit | src/main/java/algorithms/pomdp/cgcp/FiniteVI.java:81-82 | the corner belief of state s: 1 at s, 0 elsewhere |
| FiniteHorizonVI.StepWeights | src/main/java/algorithms/pomdp/cgcp/FiniteVI.java:277-285 | R - lambda C_0 for a constrained model, R otherwise |
| FiniteHorizonVI.TransitionReward | src/main/java/algorithms/pomdp/cgcp/FiniteVI.java:277-285 | the weight of a in s |
| FiniteHorizonVI.RewardEntries | src/main/java/algorithms/pomdp/cgcp/FiniteVI.java:389-393 | entry s is getTransitionReward(s, a) |
| FiniteHorizonVI.ImmediateRewards | src/main/java/algorithms/pomdp/cgcp/FiniteVI.java:387-398 | one vector per action, tagged with it, holding its weights |
| FiniteHorizonVI.ZeroVectorsValue | src/main/java/algorithms/pomdp/cgcp/FiniteVI.java:401-408 | the horizon's vectors are worth 0 at every belief |
| FiniteHorizonVI.ZeroBounds | src/main/java/algorithms/pomdp/cgcp/FiniteVI.java:411-413 | every point of the layer gets bound 0 |
| FiniteHorizonVI.ProjectionEntry | src/main/java/algorithms/pomdp/cgcp/FiniteVI.java:119-133 | entry s of the projection |
| FiniteHorizonVI.ProjectVector | src/main/java/algorithms/pomdp/cgcp/FiniteVI.java:117-137 | gkao[k][a][o] is BackProjection(v, a, o), with action a |
| FiniteHorizonVI.ProjectAll | src/main/java/algorithms/pomdp/cgcp/FiniteVI.java:115-139 | the projections of one vector for every a and o |
| FiniteHorizonVI.GetBackProjections | src/main/java/algorithms/pomdp/cgcp/FiniteVI.java:107-143 | the table equals Projections(V) |
| FiniteHorizonVI.BestProjectionIndex | src/main/java/algorithms/pomdp/cgcp/FiniteVI.java:154-166 | the first projection of largest value at b |
| FiniteHorizonVI.KeptProjections | src/main/java/algorithms/pomdp/cgcp/FiniteVI.java:152-168 | one kept projection per observation |
| FiniteHorizonVI.SumKept | src/main/java/algorithms/pomdp/cgcp/FiniteVI.java:173-176 | the kept projections summed from the left |
| FiniteHorizonVI.CandidateVector | src/main/java/algorithms/pomdp/cgcp/FiniteVI.java:173-180 | the immediate rewards plus the kept projections, tagged with a |
| FiniteHorizonVI.CandidateVectors | src/main/java/algorithms/pomdp/cgcp/FiniteVI.java:151-181 | every action's candidate |
| FiniteHorizonVI.FirstBestVector | src/main/java/algorithms/pomdp/cgcp/FiniteVI.java:186-196 | the first candidate of largest value at b, tagged with b |
| FiniteHorizonVI.Backup | src/main/java/algorithms/pomdp/cgcp/FiniteVI.java:145-199 | equals BackupAt |
| FiniteHorizonVI.StateUpperBounds | src/main/java/algorithms/pomdp/cgcp/FiniteVI.java:206-218 | the corner bounds StateUppers |
| FiniteHorizonVI.OfferStep | src/main/java/algorithms/pomdp/cgcp/FiniteVI.java:232-238 | one positive entry lowers f and may lower the least ratio |
| FiniteHorizonVI.PointOffer | src/main/java/algorithms/pomdp/cgcp/FiniteVI.java:229-242 | one point's excess f and least ratio c |
| FiniteHorizonVI.OfferScanStep | src/main/java/algorithms/pomdp/cgcp/FiniteVI.java:227-247 | one more point joins the least-offer scan, which keeps the first point of least offer |
| FiniteHorizonVI.LeastOfferScan | src/main/java/algorithms/pomdp/cgcp/FiniteVI.java:221-249 | the first point of least offer |
| FiniteHorizonVI.AddCorners | src/main/java/algorithms/pomdp/cgcp/FiniteVI.java:252-255 | the corner interpolation is added |
| FiniteHorizonVI.SawToothBound | src/main/java/algorithms/pomdp/cgcp/FiniteVI.java:201-259 | the least offer plus the corner interpolation |
| FiniteHorizonVI.FullTable | src/main/java/algorithms/pomdp/cgcp/FiniteVI.java:548-563 | the map after the update holds b^{a,o} where o can follow a |
| FiniteHorizonVI.FullTableOk | src/main/java/algorithms/pomdp/cgcp/FiniteVI.java:548-563 | the map holds the right posterior exactly where o can follow a |
| FiniteHorizonVI.NextUpperBound | src/main/java/algorithms/pomdp/cgcp/FiniteVI.java:261-270 | 0 at the horizon, the sawtooth bound of the next layer otherwise |
| FiniteHorizonVI.ObservationUpper | src/main/java/algorithms/pomdp/cgcp/FiniteVI.java:555-567 | P(o \| b, a) times the next bound at b^{a,o}, stored in the map |
| FiniteHorizonVI.ActionUpperStep | src/main/java/algorithms/pomdp/cgcp/FiniteVI.java:555-567 | the look-ahead of a advances by one observation, whose map entry is filled |
| FiniteHorizonVI.ActionUpper | src/main/java/algorithms/pomdp/cgcp/FiniteVI.java:553-568 | action a's look-ahead with its full row |
| FiniteHorizonVI.AllActionsStep | src/main/java/algorithms/pomdp/cgcp/FiniteVI.java:552-573 | the look-ahead of a joins the running maximum and its row joins the map |
| FiniteHorizonVI.AllActionsUpper | src/main/java/algorithms/pomdp/cgcp/FiniteVI.java:551-573 | the largest look-ahead, with the full map |
| FiniteHorizonVI.RowsMakeTable | src/main/java/algorithms/pomdp/cgcp/FiniteVI.java:548-563 | full rows make the full table |
| FiniteHorizonVI.PointAfterOk | src/main/java/algorithms/pomdp/cgcp/FiniteVI.java:575-589 | the point stays in good order with a finite bound |
| FiniteHorizonVI.UpdatePointBound | src/main/java/algorithms/pomdp/cgcp/FiniteVI.java:540-592 | prepared; a tight point is skipped; otherwise the best look-ahead, the map, and tight iff the gap is below the tolerance |
| FiniteHorizonVI.UpdateLayerBounds | src/main/java/algorithms/pomdp/cgcp/FiniteVI.java:538-593 | every point of the list takes the fields PointAfter gives its old ones, stays in good order and holds a finite bound |
| FiniteHorizonVI.BackupAll | src/main/java/algorithms/pomdp/cgcp/FiniteVI.java:477-490 | the backup of every point, in order |
| FiniteHorizonVI.UnimprovedMembers | src/main/java/algorithms/pomdp/cgcp/FiniteVI.java:515-524 | Btilde keeps exactly the points still below |
| FiniteHorizonVI.UnimprovedShrinks | src/main/java/algorithms/pomdp/cgcp/FiniteVI.java:515-524 | a point that caught up is dropped, so Btilde shrinks |
| FiniteHorizonVI.StillBelow | src/main/java/algorithms/pomdp/cgcp/FiniteVI.java:515-524 | the new Btilde |
| FiniteHorizonVI.CaughtGrows | src/main/java/algorithms/pomdp/cgcp/FiniteVI.java:507-512 | adding a vector keeps caught-up points caught up |
| FiniteHorizonVI.BetterVector | src/main/java/algorithms/pomdp/cgcp/FiniteVI.java:500-512 | the backup when it is at least as good, the best old vector otherwise |
| FiniteHorizonVI.AddedCatchesUp | src/main/java/algorithms/pomdp/cgcp/FiniteVI.java:503-512 | the added vector lifts the new set to the old value at b |
| FiniteHorizonVI.PerseusStep | src/main/java/algorithms/pomdp/cgcp/FiniteVI.java:497-525 | one round: Btilde strictly shrinks, one vector from the stage is appended, and every point left out of Btilde is caught up |
| FiniteHorizonVI.Perseus | src/main/java/algorithms/pomdp/cgcp/FiniteVI.java:491-528 | no point's value decreases; every vector comes from the stage |
| FiniteHorizonVI.StageVectors | src/main/java/algorithms/pomdp/cgcp/FiniteVI.java:473-529 | all backups at iter 0, a Perseus stage afterwards |
| FiniteHorizonVI.NodeRow | src/main/java/algorithms/pomdp/cgcp/FiniteVI.java:614-638 | the node's transitions: the best next vector at b^{a,o}, 0 where o cannot follow |
| FiniteHorizonVI.GraphLayer | src/main/java/algorithms/pomdp/cgcp/FiniteVI.java:606-644 | one layer's actions, points and transitions |
| FiniteHorizonVI.GraphTables | src/main/java/algorithms/pomdp/cgcp/FiniteVI.java:599-649 | all T + 1 layers, with the start node the best vector at b0 |
| FiniteHorizonVI.GraphFits | src/main/java/algorithms/pomdp/cgcp/FiniteVI.java:599-649 | every node has a model action and transitions into the next layer |
| FiniteHorizonVI.EvaluateGraph | src/main/java/algorithms/pomdp/cgcp/FiniteVI.java:652-657 | the graph's expectations; value = reward - lambda cost |
| FiniteHorizonVI.OneNodeWalk | src/main/java/algorithms/pomdp/cgcp/FiniteVI.java:666-701 | the one-node graph walks node 0 of layer min(k, T) |
| FiniteHorizonVI.SingleActionTakesA | src/main/java/algorithms/pomdp/cgcp/FiniteVI.java:666-701 | the single-action graph takes a at every epoch before T |
| FiniteHorizonVI.FiniteVI.UpperBoundUpdateSkip | src/main/java/algorithms/pomdp/cgcp/FiniteVI.java:538-593 | every point of layer t gets its new bound; the other layers keep theirs |
| FiniteHorizonVI.FiniteVI.BackupStagePerseus | src/main/java/algorithms/pomdp/cgcp/FiniteVI.java:473-529 | epoch t's vectors meet StageDone against the projections of epoch t + 1; every other epoch keeps its vectors |
| FiniteHorizonVI.FiniteVI.NewStage | src/main/java/algorithms/pomdp/cgcp/FiniteVI.java:475-528 | the vectors the stage puts at t: all backups at iter 0, a Perseus stage afterwards |
| FiniteHorizonVI.FiniteVI.SetVectors | src/main/java/algorithms/pomdp/cgcp/FiniteVI.java:527 | vectorSets[t] is replaced |
| FiniteHorizonVI.FiniteVI.constructor | src/main/java/algorithms/pomdp/cgcp/FiniteVI.java:53-55 | a time limit of 3600 seconds and no policy graph |
| FiniteHorizonVI.FiniteVI.SetTerminateTime | src/main/java/algorithms/pomdp/cgcp/FiniteVI.java:703-705 | the limit is replaced |
| FiniteHorizonVI.FiniteVI.IncreaseRuntime | src/main/java/algorithms/pomdp/cgcp/FiniteVI.java:707-709 | the limit grows by t |
| FiniteHorizonVI.FiniteVI.EnableDumpPolicyGraph | src/main/java/algorithms/pomdp/cgcp/FiniteVI.java:715-717 | a policy graph will be built |
| FiniteHorizonVI.FiniteVI.NewLayer | src/main/java/algorithms/pomdp/cgcp/FiniteVI.java:76-103 | b0 first in layer 0, then the corners and the copies of b0, with their tags |
| FiniteHorizonVI.FiniteVI.AddLayer | src/main/java/algorithms/pomdp/cgcp/FiniteVI.java:76-103 | one more layer, keeping the others |
| FiniteHorizonVI.FiniteVI.BuildLayers | src/main/java/algorithms/pomdp/cgcp/FiniteVI.java:69-103 | all layers, b0 opening layer 0 |
| FiniteHorizonVI.FiniteVI.InitBeliefSets | src/main/java/algorithms/pomdp/cgcp/FiniteVI.java:57-105 | T + 1 layers; b0 reset to +infinity; 2 nS new distinct points per layer |
| FiniteHorizonVI.FiniteVI.GraphReady | src/main/java/algorithms/pomdp/cgcp/FiniteVI.java:613-639 | vectors with points and actions are ready for computePolicyGraph |
| FiniteHorizonVI.FiniteVI.ComputePolicyGraph | src/main/java/algorithms/pomdp/cgcp/FiniteVI.java:599-660 | the graph of GraphTables with its evaluated expectations |
| FiniteHorizonVI.FiniteVI.BuildGraph | src/main/java/algorithms/pomdp/cgcp/FiniteVI.java:599-649 | the graph before evaluation |
| FiniteHorizonVI.FiniteVI.ComputePolicyGraphSingleAction | src/main/java/algorithms/pomdp/cgcp/FiniteVI.java:666-701 | one node per layer taking a, evaluated |
| FiniteHorizonVI.FiniteVI.GetNoConsumptionSolution | src/main/java/algorithms/pomdp/cgcp/FiniteVI.java:719-723 | the model and horizon are set and the single-action graph returned |
| FiniteHorizonVI.FiniteVI.SetUp | src/main/java/algorithms/pomdp/cgcp/FiniteVI.java:372-413 | the set-up of solveModel: layers, reward vectors, zero vectors and bounds at T |
| FiniteHorizonVI.FiniteVI.SetUpTables | src/main/java/algorithms/pomdp/cgcp/FiniteVI.java:381-413 | the vector tables and the last layer's zero bounds |
| FiniteHorizonVI.FiniteVI.Initialize | src/main/java/algorithms/pomdp/cgcp/FiniteVI.java:373-378 | model, horizon, multiplier, then initBeliefSets |
| FiniteHorizonVI.FiniteVI.SetUpVectors | src/main/java/algorithms/pomdp/cgcp/FiniteVI.java:381-408 | no vectors before T, zero vectors at T |
| FiniteHorizonVI.FiniteVI.ZeroLastBounds | src/main/java/algorithms/pomdp/cgcp/FiniteVI.java:411-413 | bound 0 on every point of layer T |
| FiniteHorizonVI.FiniteVI.SweepStep | src/main/java/algorithms/pomdp/cgcp/FiniteVI.java:423-424 | epoch t holds what the backup stage (StageDone) leaves from its old vectors, the vectors of epoch t + 1 and the points of layer t; every other epoch and every other layer's points are unchanged |
| FiniteHorizonVI.FiniteVI.SweepBackup | src/main/java/algorithms/pomdp/cgcp/FiniteVI.java:423 | epoch t gets a non-empty set of vectors, the backup stage (StageDone) of its old ones against epoch t + 1; every other epoch is unchanged |
| FiniteHorizonVI.FiniteVI.SweepBounds | src/main/java/algorithms/pomdp/cgcp/FiniteVI.java:424 | every point of layer t gets the fields PointAfter gives from its old fields, the bounds of layer t + 1 and epoch t's vectors; vectors and other layers unchanged |
| FiniteHorizonVI.FiniteVI.Sweep | src/main/java/algorithms/pomdp/cgcp/FiniteVI.java:421-425 | every epoch t < T ends with what the backup stage leaves from its vectors before the sweep and the final vectors of epoch t + 1 (StagesDone); epoch T is kept; every epoch is non-empty and every layer bounded |
| FiniteHorizonVI.StagesDoneNext | src/main/java/algorithms/pomdp/cgcp/FiniteVI.java:421-425 | adding the stage of epoch t to the stages of the later epochs gives the stages from t on |
| FiniteHorizonVI.FiniteVI.SweepOn | src/main/java/algorithms/pomdp/cgcp/FiniteVI.java:421-425 | one step of the sweep: from the stages of epochs t + 1 .. T - 1 to those of t .. T - 1, the epochs before t and epoch T kept |
| ColumnGeneration.SolvableUnderLambda | src/main/java/algorithms/mdp/colgen/ColGen.java:142-147 | solvability depends on the multipliers only through their shape |
| ColumnGeneration.MultiplierTable | src/main/java/algorithms/mdp/colgen/ColGen.java:171-189 | lambdaBudget[k] alone in row k with budget constraints, lambdaInstantaneous[k][t] otherwise |
| ColumnGeneration.DualTable | src/main/java/algorithms/mdp/colgen/ColGen.java:175-186 | the duals of the capacity rows as a table |
| ColumnGeneration.TableFromEntries | src/main/java/algorithms/mdp/colgen/ColGen.java:175-186 | a table of the rows' duals is the dual table |
| ColumnGeneration.BudgetDuals | src/main/java/algorithms/mdp/colgen/ColGen.java:176-179 | newLambdaBudget[k] is the dual of row k; lambdaDiff is the distance |
| ColumnGeneration.InstantaneousRow | src/main/java/algorithms/mdp/colgen/ColGen.java:181-184 | the duals of resource k's rows |
| ColumnGeneration.InstantaneousDuals | src/main/java/algorithms/mdp/colgen/ColGen.java:175-186 | entry (k, t) is the dual of row (k, t) |
| ColumnGeneration.TableDistanceZero | src/main/java/algorithms/mdp/colgen/ColGen.java:193 | distance 0 iff the tables agree; never negative |
| ColumnGeneration.DualDistanceIsTableDistance | src/main/java/algorithms/mdp/colgen/ColGen.java:173-186 | lambdaDiff is the distance from the multipliers to the dual table |
| ColumnGeneration.SolvedCostsCover | src/main/java/algorithms/mdp/colgen/ColGen.java:150-160 | a solution has every cost a column needs |
| ColumnGeneration.ColumnCost | src/main/java/algorithms/mdp/colgen/ColGen.java:150-161 | the column's coefficient in each capacity row |
| ColumnGeneration.KeptTotalIsSum | src/main/java/algorithms/mdp/colgen/ColGen.java:218-236 | the kept total is the sum of the kept probabilities |
| ColumnGeneration.MixedInstantaneousCostUniform | src/main/java/algorithms/mdp/colgen/ColGen.java:229-233 | columns all costing c give the mixture c times the kept weight |
| ColumnGeneration.AsWrittenUnderreports | src/main/java/algorithms/mdp/colgen/ColGen.java:232 | two columns of weight 1/2 costing 1: the mixture costs 1, the code reports 1/2 |
| ColumnGeneration.OneKeptAgrees | src/main/java/algorithms/mdp/colgen/ColGen.java:232 | with at most one kept column both agree |
| ColumnGeneration.NoneKept | src/main/java/algorithms/mdp/colgen/ColGen.java:232 | with none kept both are zero |
| ColumnGeneration.SetScaled | src/main/java/algorithms/mdp/colgen/ColGen.java:231-233 | entry i is overwritten by p c[i] |
| ColumnGeneration.AddKeptCosts | src/main/java/algorithms/mdp/colgen/ColGen.java:229-234 | the totals grow by p times the column's; the instantaneous costs are overwritten |
| ColumnGeneration.ExtractAgent | src/main/java/algorithms/mdp/colgen/ColGen.java:211-238 | columns above 1e-6 form the mixture; reward and totals accumulate; instantaneous costs as written |
| ColumnGeneration.LimitTable | src/main/java/algorithms/mdp/colgen/ColGen.java:104-116 | each capacity row's limit |
| ColumnGeneration.AppendRows | src/main/java/algorithms/mdp/colgen/ColGen.java:104-123 | the rows are appended in order |
| ColumnGeneration.ResourceRows | src/main/java/algorithms/mdp/colgen/ColGen.java:111-114 | resource k's W rows, LESS_EQUAL its limits |
| ColumnGeneration.CapacityRows | src/main/java/algorithms/mdp/colgen/ColGen.java:104-116 | every resource's capacity rows |
| ColumnGeneration.InitialRows | src/main/java/algorithms/mdp/colgen/ColGen.java:94-128 | the capacity rows, then one EQUAL 1 row per agent |
| ColumnGeneration.ChangeLimitKeeps | src/main/java/algorithms/mdp/colgen/ColGen.java:257-282 | changing one limit keeps the layout and the other rows |
| ColumnGeneration.OptFeasible | src/main/java/algorithms/mdp/colgen/ValueIterationFiniteHorizon.java:58-98 | backward induction picks feasible actions |
| ColumnGeneration.OptimalPolicy | src/main/java/algorithms/mdp/colgen/ValueIterationFiniteHorizon.java:52-100 | the optimal action at every (t, s) |
| ColumnGeneration.Response | src/main/java/algorithms/mdp/colgen/ValueIterationFiniteHorizon.java:44-140 | what value iteration returns |
| ColumnGeneration.SolvedByIsResponse | src/main/java/algorithms/mdp/colgen/ValueIterationFiniteHorizon.java:44-140 | whatever meets solve's contract is Response |
| ColumnGeneration.ResponseSolves | src/main/java/algorithms/mdp/colgen/ValueIterationFiniteHorizon.java:44-140 | Response meets solve's contract |
| ColumnGeneration.BestResponse | src/main/java/algorithms/mdp/colgen/ColGen.java:142-147 | vi.solve with the multipliers of the constraint kind |
| ColumnGeneration.NoColumns | src/main/java/algorithms/mdp/colgen/ColGen.java:118-123 | no agent has columns yet |
| ColumnGeneration.AddSolutionKeepsLinks | src/main/java/algorithms/mdp/colgen/ColGen.java:150-164 | a new column keeps the other columns' links |
| ColumnGeneration.ColGen.ZeroLambda | src/main/java/algorithms/mdp/colgen/ColGen.java:97-98 | multipliers of the instance's shape, every entry 0 |
| ColumnGeneration.ColGen.constructor | src/main/java/algorithms/mdp/colgen/ColGen.java:63-128 | no columns, multipliers at Double.MAX_VALUE, the initial rows |
| ColumnGeneration.ColGen.Respond | src/main/java/algorithms/mdp/colgen/ColGen.java:140-147 | agent i's solution is Response under the current multipliers |
| ColumnGeneration.ColGen.Responses | src/main/java/algorithms/mdp/colgen/ColGen.java:139-147 | one solution per agent, each that agent's Response under the current multipliers (AllRespond), in agent order |
| ColumnGeneration.RespondsNext | src/main/java/algorithms/mdp/colgen/ColGen.java:139-147 | one more agent's Response extends the responses so far, and completes them after the last agent |
| ColumnGeneration.ColGen.AppendResponse | src/main/java/algorithms/mdp/colgen/ColGen.java:140-147 | the next agent's Response joins the responses so far |
| ColumnGeneration.ColGen.AddSolutionColumn | src/main/java/algorithms/mdp/colgen/ColGen.java:150-164 | the column of the solution, with reward and bounds [0, 1] |
| ColumnGeneration.ColGen.AddColumnsFor | src/main/java/algorithms/mdp/colgen/ColGen.java:139-165 | one column per agent in order; the master's old variables stay a prefix and it gains exactly one per agent |
| ColumnGeneration.ColGen.GenerateColumns | src/main/java/algorithms/mdp/colgen/ColGen.java:139-165 | every agent gains one new variable and its solution, that agent's Response under the old multipliers; the master's old variables stay a prefix and it gains one per agent; the multipliers and rows are unchanged |
| ColumnGeneration.ColGen.DualUpdate | src/main/java/algorithms/mdp/colgen/ColGen.java:171-189 | the multipliers become the duals; lambdaDiff is their distance |
| ColumnGeneration.ColGen.ExtractSolution | src/main/java/algorithms/mdp/colgen/ColGen.java:208-242 | one mixture per agent with the as-written instantaneous costs |
| ColumnGeneration.ColGen.Reprice | src/main/java/algorithms/mdp/colgen/ColGen.java:171-189 | the multipliers become the duals of the capacity rows in lp's answer, and lambdaDiff is their distance to the old ones |
| ColumnGeneration.ColGen.Round | src/main/java/algorithms/mdp/colgen/ColGen.java:139-189 | every agent gains a column whose solution is its Response under the old multipliers; the master's old variables stay a prefix and it gains one per agent; the answer is lp of the new master; the new multiplier table is the duals of the capacity rows; lambdaDiff is the distance between old and new tables |
| ColumnGeneration.ColGen.Rounds | src/main/java/algorithms/mdp/colgen/ColGen.java:137-196 | the rounds are Rounded from the starting multipliers to the final table: each round's columns are the agents' Responses to that round's multipliers, and each next table the duals of that round's answer; every agent's solutions gain its column of each round in order; answers[n] is lp's answer on masters[n], the master after round n's columns (AnsweredBy: its variables are the starting ones plus n + 1 per agent, and each master's variables are a prefix of the next one's), and the last master is the current one; every round but the last has lambdaDiff >= tolerance and time within the limit, and the last does not |
| ColumnGeneration.ColGen.Solve | src/main/java/algorithms/mdp/colgen/ColGen.java:131-206 | the Rounded history of Rounds with its stop rule, each round's answer lp's answer on that round's master (AnsweredBy), the last master the current one, then one mixture per agent over its solutions weighted by lp's values on the last master |
| ColumnGeneration.LambdaTable | src/main/java/algorithms/mdp/colgen/ColGen.java:171-189 | the budget multipliers as one single-entry row per resource, the instantaneous ones as they are |
| ColumnGeneration.PricedUnique | src/main/java/algorithms/mdp/colgen/ColGen.java:171-189 | two multiplier vectors of the same kind with the same table are equal |
| ColumnGeneration.AgentColumnsNext | src/main/java/algorithms/mdp/colgen/ColGen.java:163-164 | a round appends each agent's new column to its columns of the earlier rounds |
| ColumnGeneration.RoundedStart | src/main/java/algorithms/mdp/colgen/ColGen.java:131-137 | before the first round the history is empty |
| ColumnGeneration.RoundedNext | src/main/java/algorithms/mdp/colgen/ColGen.java:137-189 | a round priced from the last table, with every agent's Response and the duals of its answer, extends the history |
| ColumnGeneration.RecordedNext | src/main/java/algorithms/mdp/colgen/ColGen.java:137-189 | a round extends the history, appends each agent's Response to its solutions, and records lp's answer on the round's master, whose variables extend the previous master's by one per agent |
| ColumnGeneration.StillRoundRepeats | src/main/java/algorithms/mdp/colgen/ColGen.java:171-196 | a round with lambdaDiff 0 is followed by a round from the same multipliers with the same new columns |
| ColumnGeneration.ColGen.CurrentPriced | src/main/java/algorithms/mdp/colgen/ColGen.java:142-147 | the current multipliers are of the constraint kind and their table is the current one |
| ColumnGeneration.ColGen.NextRound | src/main/java/algorithms/mdp/colgen/ColGen.java:139-191 | a round keeps the history: it appends its answer, lp's answer on the new master, its lambdaDiff, and the master itself |
| ColumnGeneration.AnsweredNext | src/main/java/algorithms/mdp/colgen/ColGen.java:137-169 | a master that extends the last one by one variable per agent, and lp's answer on it, extend the AnsweredBy history; its variables become the last |
| ColumnGeneration.WentOnNext | src/main/java/algorithms/mdp/colgen/ColGen.java:191-196 | a round whose lambdaDiff is at least the tolerance, ending within the time limit, extends the rounds that went on |
| ColumnGeneration.WentOnStop | src/main/java/algorithms/mdp/colgen/ColGen.java:191-196 | a round that stops ends the run: every earlier round went on and this one has lambdaDiff below the tolerance or time past the limit |
| ColumnGeneration.ColGen.RoundsFrom | src/main/java/algorithms/mdp/colgen/ColGen.java:137-196 | the loop of solve keeps the history, in which each round's answer is lp's answer on that round's master; every round but the last has lambdaDiff >= tolerance and time within the limit, and the last does not |
| ColumnGeneration.ColGen.ModifyBudgetConstraints | src/main/java/algorithms/mdp/colgen/ColGen.java:250-264 | a failure without budget constraints; otherwise the limits change |
| ColumnGeneration.ColGen.ModifyInstantaneousConstraints | src/main/java/algorithms/mdp/colgen/ColGen.java:267-283 | a failure with budget constraints; otherwise the limits change |
| ColumnGeneration.ColGen.ChangeRow | src/main/java/algorithms/mdp/colgen/ColGen.java:275-281 | the limits of resource k's rows change |
| ColumnGeneration.ColGen.CapacityRhs | src/main/java/algorithms/mdp/colgen/ColGen.java:104-116 | row (k, t)'s right-hand side is limits[k][t] |
| ColumnGeneration.ColGen.ChangeLimit | src/main/java/algorithms/mdp/colgen/ColGen.java:259 | only row (k, t)'s right-hand side changes |
| Cgcp.NegativeGapNeverCloses | src/main/java/algorithms/pomdp/cgcp/CGCP.java:170-171 | with negative bound and objective the test as written never closes the gap |
| Cgcp.GapSmallBounds | src/main/java/algorithms/pomdp/cgcp/CGCP.java:187-190 | the corrected test is a relative tolerance of 1/1000 to 1/100 |
| Cgcp.GapTestsAgreeOnPositive | src/main/java/algorithms/pomdp/cgcp/CGCP.java:170-171 | both tests agree when max(ub, obj) is positive |
| Cgcp.DecideOrder | src/main/java/algorithms/pomdp/cgcp/CGCP.java:178-237 | time wins; the gap stops only within time; lambda counts only after two priced rounds |
| Cgcp.PassFrom | src/main/java/algorithms/pomdp/cgcp/CGCP.java:156-171 | the pass's decision is Decide on its own numbers |
| Cgcp.TraceAt | src/main/java/algorithms/pomdp/cgcp/CGCP.java:155-238 | pass k is PassFrom the state before it; the pass before it went on; after MoreTime the objective is unchanged |
| Cgcp.TraceGoesOn | src/main/java/algorithms/pomdp/cgcp/CGCP.java:155-238 | every pass but the last went on |
| Cgcp.IterationsCount | src/main/java/algorithms/pomdp/cgcp/CGCP.java:214-215 | numIterations counts the priced passes before |
| Cgcp.ConvergenceNeedsTwoRounds | src/main/java/algorithms/pomdp/cgcp/CGCP.java:194 | lambda converges only after two priced rounds |
| Cgcp.MoreTimeThenPrice | src/main/java/algorithms/pomdp/cgcp/CGCP.java:198-207 | after more time, the next pass cannot stop on gap or lambda |
| Cgcp.TraceSnoc | src/main/java/algorithms/pomdp/cgcp/CGCP.java:155-238 | one more pass extends the trace |
| Cgcp.ObservedAt | src/main/java/algorithms/pomdp/cgcp/CGCP.java:156-169 | pass k was made at elapsed(k) on its master's answer |
| Cgcp.ObservedSnoc | src/main/java/algorithms/pomdp/cgcp/CGCP.java:156-169 | one more observed pass |
| Cgcp.Advance | src/main/java/algorithms/pomdp/cgcp/CGCP.java:155-238 | a stopping pass finishes the trace; otherwise the trace keeps running from the state After the pass |
| Cgcp.KeptWeights | src/main/java/algorithms/pomdp/cgcp/CGCP.java:262-273 | the positive weights, in order |
| Cgcp.KeptWeightsSum | src/main/java/algorithms/pomdp/cgcp/CGCP.java:262-273 | the kept weights sum to the distribution's total |
| Cgcp.PureColumn | src/main/java/algorithms/pomdp/cgcp/CGCP.java:262-273 | a pure distribution keeps its column |
| Cgcp.MixedCostAtMost | src/main/java/algorithms/pomdp/cgcp/CGCP.java:270-271 | costs at most c keep the mixture at most c times the weight |
| Cgcp.GetSolutionAsWritten | src/main/java/algorithms/pomdp/cgcp/CGCP.java:252-281 | fails on a dummy weight of at least 1e-5 or a positive weight without a solution |
| Cgcp.GetSolutionFails | src/main/java/algorithms/pomdp/cgcp/CGCP.java:253-266 | when exactly getSolution fails on the stored columns |
| Cgcp.DummyWeightSlipsThrough | src/main/java/algorithms/pomdp/cgcp/CGCP.java:253-266 | a dummy weight of 1e-6 passes the assert and reaches the missing solution |
| Cgcp.StoredStart | src/main/java/algorithms/pomdp/cgcp/CGCP.java:117-141 | the first columns hold the first solutions |
| Cgcp.StoredAppend | src/main/java/algorithms/pomdp/cgcp/CGCP.java:222-236 | a round keeps columns and solutions linked |
| Cgcp.MasterShape | src/main/java/algorithms/pomdp/cgcp/CGCP.java:133-136 | a valid master has K T + nAgents rows and one variable list per agent |
| Cgcp.CGCP.constructor | src/main/java/algorithms/pomdp/cgcp/CGCP.java:68-83 | the configuration values, and a FiniteVI with its limit and policy graphs |
| Cgcp.CGCP.SetInstance | src/main/java/algorithms/pomdp/cgcp/CGCP.java:85-98 | one resource with a budget, or a failure |
| Cgcp.CGCP.EnableRuntimeIncrease | src/main/java/algorithms/pomdp/cgcp/CGCP.java:296-299 | runtime increase on with step t |
| Cgcp.CGCP.SetTerminateTime | src/main/java/algorithms/pomdp/cgcp/CGCP.java:301-303 | the limit is replaced |
| Cgcp.CGCP.SetNoConsumptionAction | src/main/java/algorithms/pomdp/cgcp/CGCP.java:305-307 | the action is stored |
| Cgcp.CGCP.NoConsumptionSolution | src/main/java/algorithms/pomdp/cgcp/CGCP.java:122-126 | the single-action graph of the no-consumption action, with its values |
| Cgcp.CGCP.NoConsumptionColumns | src/main/java/algorithms/pomdp/cgcp/CGCP.java:121-131 | every agent's first stored solution is the single-action graph of the no-consumption action, with its reward and cost |
| Cgcp.CGCP.InitialMaster | src/main/java/algorithms/pomdp/cgcp/CGCP.java:117-141 | the no-consumption master, or the dummy master |
| Cgcp.CGCP.NoConsumptionMaster | src/main/java/algorithms/pomdp/cgcp/CGCP.java:117-134 | every agent's first column is its no-consumption policy |
| Cgcp.CGCP.DummyMaster | src/main/java/algorithms/pomdp/cgcp/CGCP.java:135-141 | every agent's first column is the dummy, with no solution |
| Cgcp.CGCP.PriceAgents | src/main/java/algorithms/pomdp/cgcp/CGCP.java:220-234 | each agent's solution for lambda; the bound is lambda times the limit plus the upper bounds |
| Cgcp.CGCP.AddRound | src/main/java/algorithms/pomdp/cgcp/CGCP.java:236 | the stored solutions gain the priced solutions and the master gains their columns; the distributions are unchanged |
| Cgcp.CGCP.PricingRound | src/main/java/algorithms/pomdp/cgcp/CGCP.java:213-237 | numIterations grows by one; the bound becomes lambda times the limit plus the agents' upper bounds; every agent's solution for lambda is appended |
| Cgcp.CGCP.SolveMaster | src/main/java/algorithms/pomdp/cgcp/CGCP.java:156-162 | the objective and the budget row's dual of lp's answer on the master |
| Cgcp.CGCP.GetSolution | src/main/java/algorithms/pomdp/cgcp/CGCP.java:252-281 | equals GetSolutionAsWritten on the stored solutions |
| Cgcp.CGCP.Mixtures | src/main/java/algorithms/pomdp/cgcp/CGCP.java:242-247 | every agent's mixture, or the first failure |
| Cgcp.CGCP.Act | src/main/java/algorithms/pomdp/cgcp/CGCP.java:176-237 | stop iff the pass's decision stops (time first, then the gap test as written, then lambda with the runtime increase); a priced pass moves to the loop state After(p); a stop leaves the master unchanged |
| Cgcp.CGCP.Step | src/main/java/algorithms/pomdp/cgcp/CGCP.java:156-237 | lp answers the master; the pass is PassFrom the loop state, the answer's objective and budget-row dual, and the elapsed time; Act decides on it |
| Cgcp.CGCP.Conclude | src/main/java/algorithms/pomdp/cgcp/CGCP.java:155-238 | after a pass the loop is Done when the pass stops, and otherwise still Looping from the pass's lambda, objective and increases |
| Cgcp.CGCP.Iterate | src/main/java/algorithms/pomdp/cgcp/CGCP.java:155-238 | one more pass observed at elapsed(k); a pass past the time limit stops; a stop gives Done, otherwise Looping |
| Cgcp.CGCP.Loop | src/main/java/algorithms/pomdp/cgcp/CGCP.java:146-238 | Done: the passes form a trace observed at elapsed(k) on their masters, only the last stops, and the master holds lp's answer |
| Cgcp.CGCP.Extract | src/main/java/algorithms/pomdp/cgcp/CGCP.java:242-249 | columns are the master's variables and dists its policy distributions, dists[i][j] being lp's value of agent i's column j; Success iff there is a no-consumption action or no dummy weight is positive, holding the mixtures |
| Cgcp.CGCP.Run | src/main/java/algorithms/pomdp/cgcp/CGCP.java:100-238 | a fresh master with the first columns, then the loop, ending Done from the old bound and time limit |
| Cgcp.CGCP.Solve | src/main/java/algorithms/pomdp/cgcp/CGCP.java:100-250 | the passes form a trace in which only the last stops; numIterations counts the priced passes; every agent has numIterations + 1 solutions stored in the last master's columns (StoredIn: rewards as objective, costs as budget coefficients, the dummy first); dists are lp's values of those columns; Success iff getSolution as written succeeds for every agent, holding each agent's mixture |

## Left out

- ValueIteration.Solve: reals replace doubles, so the model cannot show the effects of λ = Double.MAX_VALUE in ColGen's first round. In the source, `-1.0 * lambda * cost` absorbs the reward and equal positive costs tie on the first action. Sums can also overflow to -infinity, after which `pi` is -1.
- ValueIteration.Solve: T ≥ 1 and a non-empty feasible-action list in every state are requires clauses. The source fails with an exception in those cases.
- MdpPolicies.CMDPSolutionPolicyBased.GetActions: for t ≠ 0 it requires current policies to have been drawn. The source throws a NullPointerException otherwise.
- Cgcp.CGCP.Solve: the subproblem solver is a price oracle passed as a parameter. It is not tied to the FiniteVI model.
- Cgcp.CGCP.Solve: the assertion `gap >= -0.001` at CGCP.java:176 is not modelled.
- FiniteHorizonVI.FiniteVI.SweepStep: the fields of layer t's points after the bound update are stated by SweepBounds and UpperBoundUpdateSkip, not restated here; SweepStep states only that the other layers' points are unchanged.
- FiniteHorizonVI.FiniteVI.Sweep: the per-point fields of each layer after the sweep are stated per step by SweepBounds, not gathered over the whole sweep; Sweep states that every layer is bounded.
- FiniteHorizonVI.FiniteVI.Sweep: the solveModel loop around the sweeps is not modelled. That includes its stop test (iterations, time, gap) and findNewBeliefs. So is the POMDPPolicyVector returned without a policy graph.
- FiniteHorizonVI.UpdatePointBound: the assertion `lowerBound <= upperBound + 0.001` at FiniteVI.java:584 is not modelled.
- Pomdp.POMDP.UpdateBelief: the assertion `nc > 0` is a requires clause.
- MasterProgram.InitialModel: initial costs without rewards cannot be expressed. The source makes the first variable a dummy there but still reads the costs.
- ColumnGeneration.ColGen.Solve: the clock is a function of the round number, and it must pass the time limit at some round. With a wall clock this always happens; the requires clause makes the loop's termination provable.
- ColumnGeneration.ColGen.Solve: the LP oracle must answer every valid master. The source asserts `solved` after `model.solve()`.
- ColumnGeneration.ColGen.Solve: every agent's model must satisfy value iteration's requires clauses (AgentsSolvable).
- Cgcp.CGCP.Solve: as with ColGen, the clock must pass the time limit at some pass, and the LP oracle must answer every valid master.
- Cgcp.CGCP.Solve: FiniteBounds(price) requires every priced solution to have a finite value upper bound. The source would carry an infinite or NaN bound into the next gap test.
- Logging, configuration files and file output are left out. Wall-clock time and random numbers are parameters.
- The LP solver's internals (simplex) are not part of this model.
- Getters without behaviour beyond returning a field have no contracts.

## Findings

| source | as written | input that shows it | evidently intended | confidence | as-written member | corrected member |
|---|---|---|---|---|---|---|
| src/main/java/algorithms/mdp/colgen/ColGen.java:232 | `=` overwrites the instantaneous cost per kept column | two kept columns of weight 0.5, each costing 1.0 at (0, 0): reported 0.5 | `+=`, the mixture's cost 1.0 | not executed | ColumnGeneration.AsWrittenUnderreports | ColumnGeneration.MixedInstantaneousCostUniform |
| src/main/java/algorithms/pomdp/cgcp/CGCP.java:253-266 | the dummy weight need only be below 1e-5, then every positive weight is dereferenced | noConsumptionAction = -1, distribution [0.000001, 0.999999]: null dereference | skip columns without a solution | not executed | Cgcp.DummyWeightSlipsThrough | Cgcp.KeptWeightsSum |
| src/main/java/algorithms/pomdp/cgcp/CGCP.java:170-171 | log10 of max(ub, obj), without absolute values | ub = obj = -100: NaN, the gap never closes | max of absolute values, as the comment at 187-190 says | not executed | Cgcp.NegativeGapNeverCloses | Cgcp.GapSmallBounds |
| src/main/java/model/BeliefPoint.java:88 | boxed Integer `==` | histories [-200] and [-200], built separately: not equal | value equality | not executed | Beliefs.AsWrittenEqualsMissesEqualHistories | Beliefs.BeliefPoint.Equals |
