/** The fixed problem instance of the decomposition:

      minimize     x1 - 3 x2
      subject to  -x1 + 2 x2 <= 6     (complicating row, kept in the master)
                   x1 +   x2 <= 5     (easy row, kept in the pricing sub-problem)
                   x1, x2 >= 0
*/
module Problem {
  import opened Vectors

  /** Objective coefficients. */
  const C: Vec2 := [1.0, -3.0]
  /** Coefficients of the complicating row. */
  const A: Vec2 := [-1.0, 2.0]
  /** Coefficients and right-hand side of the easy row. */
  const D: Vec2 := [1.0, 1.0]
  const EasyRhs: real := 5.0

  /** Right-hand sides of the two master rows. */
  const ComplicatingRhs: real := 6.0
  const ConvexityRhs: real := 1.0

  /** A column is accepted only when its reduced cost is below this (negative) tolerance. */
  const TOL: real := -0.000001

  /** The two seed columns the first restricted master problem is built from. */
  const Seed0: Vec2 := [0.0, 0.0]
  const Seed1: Vec2 := [0.0, 5.0]
  const Seeds: seq<Vec2> := [Seed0, Seed1]
  const SeedCount: nat := 2

  predicate IsIntegral(r: real)
  {
    r == r.Floor as real
  }

  /** The feasible region of the pricing sub-problem: non-negative integers with
      component sum at most 5. */
  predicate EasyFeasible(x: Vec2)
  {
    x[0] >= 0.0 && x[1] >= 0.0 && IsIntegral(x[0]) && IsIntegral(x[1])
    && x[0] + x[1] <= EasyRhs
  }

  predicate AllEasyFeasible(cols: seq<Vec2>)
  {
    forall i :: 0 <= i < |cols| ==> EasyFeasible(cols[i])
  }

  predicate NonNegative(x: Vec2)
  {
    x[0] >= 0.0 && x[1] >= 0.0
  }

  predicate AllNonNegative(cols: seq<Vec2>)
  {
    forall i :: 0 <= i < |cols| ==> NonNegative(cols[i])
  }

  /** The continuous relaxation of the sub-problem's region: non-negative, component sum
      at most 5. */
  predicate InEasyRegion(x: Vec2)
  {
    NonNegative(x) && x[0] + x[1] <= EasyRhs
  }

  predicate AllInEasyRegion(cols: seq<Vec2>)
  {
    forall i :: 0 <= i < |cols| ==> InEasyRegion(cols[i])
  }

  /** Every point of the sub-problem's region lies in its relaxation. */
  lemma EasyFeasibleInRegion(cols: seq<Vec2>)
    requires AllEasyFeasible(cols)
    ensures AllInEasyRegion(cols)
  {
  }

  /** Feasibility in the original (continuous) problem. */
  predicate OriginalFeasible(x: Vec2)
  {
    x[0] >= 0.0 && x[1] >= 0.0 && Dot(A, x) <= ComplicatingRhs && Dot(D, x) <= EasyRhs
  }

  /** Both seeds lie in the sub-problem's feasible region and the store's first two
      indices are taken by them. */
  lemma SeedsEasyFeasible()
    ensures |Seeds| == SeedCount
    ensures AllEasyFeasible(Seeds)
  {
    assert EasyFeasible(Seed0);
    assert EasyFeasible(Seed1);
  }
}
