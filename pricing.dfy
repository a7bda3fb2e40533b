/** The pricing step: from the master's dual prices, build the sub-problem's objective,
    take the sub-problem solver's answer, compute the reduced cost and decide whether
    the candidate column enters the master. */
module Pricing {
  import opened Vectors
  import opened Problem
  import opened Master

  /** What the external integer-programming solver reports for the sub-problem. */
  datatype PricingSolution =
    | PricingOptimal(value: real, x: Vec2)
    | PricingFailed

  /** The one property assumed of the sub-problem solver: an optimal answer is a point
      of the sub-problem's feasible region. */
  ghost predicate PricingSound(price: Vec2 -> PricingSolution)
  {
    forall obj :: price(obj).PricingOptimal? ==> EasyFeasible(price(obj).x)
  }

  /** The outcome of one pricing round. */
  datatype Decision =
    | AddColumn(column: Vec2)
    | Stop
    | SubproblemFailed

  /** The sub-problem's objective: `c - A * pi`, componentwise. */
  function PricingObjective(pi: real): Vec2
  {
    [C[0] - A[0] * pi, C[1] - A[1] * pi]
  }

  /** The reduced cost of the candidate: sub-problem value minus the convexity dual. */
  function ReducedCost(subValue: real, alpha: real): real
  {
    subValue - alpha
  }

  predicate Accepts(barcs: real)
  {
    barcs < TOL
  }

  /** The decision rule of one round, given the duals and the sub-problem solver. */
  function Decide(pi: real, alpha: real, price: Vec2 -> PricingSolution): Decision
  {
    match price(PricingObjective(pi))
    case PricingFailed => SubproblemFailed
    case PricingOptimal(value, x) =>
      if Accepts(ReducedCost(value, alpha)) then AddColumn(x) else Stop
  }

  /** The pricing objective at a column, less `alpha`, is the reduced cost in the master
      LP of the weight that column would get: its objective coefficient, less `pi` times
      its complicating coefficient, less `alpha` times its convexity coefficient. */
  lemma PricedValueIsReducedCost(pi: real, alpha: real, x: Vec2)
    ensures var w := Coefficients(x);
      ReducedCost(Dot(PricingObjective(pi), x), alpha)
        == w.objective - pi * w.complicating - alpha * w.convexity
  {
    var p := PricingObjective(pi);
    calc {
      Dot(p, x);
      (C[0] - A[0] * pi) * x[0] + (C[1] - A[1] * pi) * x[1];
      (C[0] * x[0] + C[1] * x[1]) - pi * (A[0] * x[0] + A[1] * x[1]);
      Dot(C, x) - pi * Dot(A, x);
    }
  }

  /** The accept/stop rule: a column enters exactly when the sub-problem is solved and
      its reduced cost is strictly below TOL; it is the column the solver returned, and
      every reduced cost in [TOL, +inf) stops, including the noise band [TOL, 0). */
  lemma AcceptRule(pi: real, alpha: real, price: Vec2 -> PricingSolution)
    ensures var sub := price(PricingObjective(pi));
      && (Decide(pi, alpha, price).AddColumn?
          <==> sub.PricingOptimal? && sub.value - alpha < TOL)
      && (Decide(pi, alpha, price).AddColumn? ==> Decide(pi, alpha, price).column == sub.x)
      && (Decide(pi, alpha, price).Stop?
          <==> sub.PricingOptimal? && TOL <= sub.value - alpha)
      && (Decide(pi, alpha, price).SubproblemFailed? <==> sub.PricingFailed?)
  {
  }

  /** If the sub-problem's reported value is its objective at the reported point, a
      column is accepted exactly when the weight it would get has master reduced cost
      below TOL. */
  lemma AcceptsImprovingWeight(pi: real, alpha: real, price: Vec2 -> PricingSolution)
    requires price(PricingObjective(pi)).PricingOptimal?
    requires price(PricingObjective(pi)).value
               == Dot(PricingObjective(pi), price(PricingObjective(pi)).x)
    ensures var x := price(PricingObjective(pi)).x;
      var w := Coefficients(x);
      (Decide(pi, alpha, price) == AddColumn(x))
        <==> (w.objective - pi * w.complicating - alpha * w.convexity < TOL)
  {
    PricedValueIsReducedCost(pi, alpha, price(PricingObjective(pi)).x);
  }

  /** A decision to add a column, under a sound sub-problem solver, adds an easy-feasible one. */
  lemma AddedColumnEasyFeasible(pi: real, alpha: real, price: Vec2 -> PricingSolution)
    requires PricingSound(price)
    ensures Decide(pi, alpha, price).AddColumn? ==> EasyFeasible(Decide(pi, alpha, price).column)
  {
    if Decide(pi, alpha, price).AddColumn? {
      assert price(PricingObjective(pi)).PricingOptimal?;
    }
  }
}
