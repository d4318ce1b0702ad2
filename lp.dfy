/**
 * A linear program as the LPModel interface builds it: bounded variables
 * with objective coefficients, and constraints whose left-hand sides give a
 * coefficient to every variable (a variable that was never given one has
 * coefficient 0). The solver itself is not modelled: an LPSolution is the
 * answer it returns, supplied from outside.
 */
module Lp {
  import opened Numeric

  datatype LPConstraintType = LessEqual | Equal | GreaterEqual

  datatype LPVariable = LPVariable(lowerbound: real, upperbound: real, obj: real)

  datatype LPConstraint = LPConstraint(lhs: seq<real>, kind: LPConstraintType, rhs: real)

  datatype LPModel = LPModel(variables: seq<LPVariable>, constraints: seq<LPConstraint>, infinite: real)
  {
    /** Every left-hand side has one coefficient per variable. */
    predicate Valid() {
      forall c :: 0 <= c < |constraints| ==> |constraints[c].lhs| == |variables|
    }

    /** The coefficient of variable v in constraint c. */
    function Coefficient(c: nat, v: nat): real
      requires Valid() && c < |constraints| && v < |variables|
    {
      constraints[c].lhs[v]
    }
  }

  /** createModel: no variables and no constraints; infinite is the backend's getInfinite. */
  function CreateModel(infinite: real): (m: LPModel)
    ensures m.Valid() && |m.variables| == 0 && |m.constraints| == 0 && m.infinite == infinite
  {
    LPModel([], [], infinite)
  }

  /** An expression over n variables with no terms yet. */
  function EmptyExpression(n: nat): (e: seq<real>)
    ensures |e| == n && forall v :: 0 <= v < n ==> e[v] == 0.0
  {
    Zeros(n)
  }

  /** addTerm(coef, v): the coefficient of v grows by coef. */
  function AddTerm(e: seq<real>, coef: real, v: nat): (r: seq<real>)
    requires v < |e|
    ensures |r| == |e| && r[v] == e[v] + coef
    ensures forall w :: 0 <= w < |e| && w != v ==> r[w] == e[w]
  {
    e[v := e[v] + coef]
  }

  /** addVariable: the new variable gets the next index and coefficient 0 in every constraint. */
  function AddVariable(m: LPModel, lowerbound: real, upperbound: real, obj: real): (r: LPModel)
    requires m.Valid()
    ensures r.Valid() && r.infinite == m.infinite
    ensures r.variables == m.variables + [LPVariable(lowerbound, upperbound, obj)]
    ensures |r.constraints| == |m.constraints|
    ensures forall c :: 0 <= c < |m.constraints| ==>
      r.constraints[c] == m.constraints[c].(lhs := m.constraints[c].lhs + [0.0])
  {
    AddColumn(m, lowerbound, upperbound, obj, EmptyExpression(|m.constraints|))
  }

  /** addConstraint: the new constraint gets the next index. */
  function AddConstraint(m: LPModel, expr: seq<real>, kind: LPConstraintType, rhs: real): (r: LPModel)
    requires m.Valid() && |expr| == |m.variables|
    ensures r.Valid() && r.infinite == m.infinite && r.variables == m.variables
    ensures r.constraints == m.constraints + [LPConstraint(expr, kind, rhs)]
  {
    m.(constraints := m.constraints + [LPConstraint(expr, kind, rhs)])
  }

  /** addColumn: a new variable whose coefficient in constraint c is column[c]. */
  function AddColumn(m: LPModel, lowerbound: real, upperbound: real, obj: real, column: seq<real>): (r: LPModel)
    requires m.Valid() && |column| == |m.constraints|
    ensures r.Valid() && r.infinite == m.infinite
    ensures r.variables == m.variables + [LPVariable(lowerbound, upperbound, obj)]
    ensures |r.constraints| == |m.constraints|
    ensures forall c :: 0 <= c < |m.constraints| ==>
      r.constraints[c] == m.constraints[c].(lhs := m.constraints[c].lhs + [column[c]])
  {
    var cs := seq(|m.constraints|, c requires 0 <= c < |m.constraints| =>
      m.constraints[c].(lhs := m.constraints[c].lhs + [column[c]]));
    LPModel(m.variables + [LPVariable(lowerbound, upperbound, obj)], cs, m.infinite)
  }

  /** changeConstraintRHS: only the right-hand side of constraint c changes. */
  function ChangeConstraintRHS(m: LPModel, c: nat, rhs: real): (r: LPModel)
    requires m.Valid() && c < |m.constraints|
    ensures r.Valid() && r.variables == m.variables && r.infinite == m.infinite
    ensures |r.constraints| == |m.constraints| && r.constraints[c] == m.constraints[c].(rhs := rhs)
    ensures forall d :: 0 <= d < |m.constraints| && d != c ==> r.constraints[d] == m.constraints[d]
  {
    m.(constraints := m.constraints[c := m.constraints[c].(rhs := rhs)])
  }

  /**
   * What solve, getVariableValue, getDualPrice and getObjectiveValue report:
   * whether a solution was found, a value per variable, a dual price per
   * constraint and the objective value.
   */
  datatype LPSolution = LPSolution(solved: bool, values: seq<real>, duals: seq<real>, objective: real)

  /** A solver answer for the model m has a value for each variable and a price for each constraint. */
  predicate Answers(m: LPModel, sol: LPSolution) {
    sol.solved && |sol.values| == |m.variables| && |sol.duals| == |m.constraints|
  }
}
