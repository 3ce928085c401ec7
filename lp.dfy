/** The abstract record of what the model builder hands to the linear
    solver (variables with bounds, objective coefficients, constraint rows),
    the status the solver reports, and what it means for solution values
    to satisfy the record. The solver itself is not modelled. */
module Lp {

  /** A decision variable is identified by its delivery and block number. */
  datatype VarKey = VarKey(deliveryId: string, block: nat)

  datatype UpperBound = Infinite | AtMost(bound: real)

  datatype Variable = Variable(key: VarKey, lower: real, upper: UpperBound)

  /** A row `lower <= sum of terms <= upper`, every coefficient being 1;
      the terms are listed in the order their coefficients were set. */
  datatype Constraint = Constraint(lower: real, upper: real, terms: seq<VarKey>)

  datatype LpModel = LpModel(variables: seq<Variable>, objective: map<VarKey, real>,
                             minimize: bool, constraints: seq<Constraint>)

  /** The result statuses of the solver. */
  datatype SolverStatus = Optimal | Feasible | Infeasible | Unbounded | Abnormal | ModelInvalid | NotSolved

  /** The sum of the values of `terms`. */
  function Sum(terms: seq<VarKey>, value: VarKey -> real): real
  {
    if terms == [] then 0.0 else Sum(terms[..|terms| - 1], value) + value(terms[|terms| - 1])
  }

  predicate WithinBounds(v: Variable, value: VarKey -> real)
  {
    v.lower <= value(v.key) && (v.upper.AtMost? ==> value(v.key) <= v.upper.bound)
  }

  predicate RowHolds(c: Constraint, value: VarKey -> real)
  {
    c.lower <= Sum(c.terms, value) <= c.upper
  }

  /** The values respect every variable's bounds and every row. */
  predicate Satisfies(m: LpModel, value: VarKey -> real)
  {
    && (forall v :: v in m.variables ==> WithinBounds(v, value))
    && (forall c :: c in m.constraints ==> RowHolds(c, value))
  }

  /** What `units` units cost at `price` each. */
  function Cost(units: real, price: real): real
  {
    units * price
  }

  /** The objective's value: each variable's coefficient (0 when none was
      set) times its value. */
  function ObjectiveValue(vars: seq<Variable>, objective: map<VarKey, real>, value: VarKey -> real): real
  {
    if vars == [] then 0.0
    else
      var last := vars[|vars| - 1];
      ObjectiveValue(vars[..|vars| - 1], objective, value)
      + (if last.key in objective then Cost(value(last.key), objective[last.key]) else 0.0)
  }
}
