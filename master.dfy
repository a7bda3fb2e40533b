/** The restricted master problem's weight variables, its two rows, and the
    reconstruction of an easy-variable solution from the weights. */
module Master {
  import opened Vectors
  import opened Problem

  /** One continuous master weight variable: its objective coefficient and its
      coefficients in the complicating row and in the convexity row. */
  datatype WeightVar = WeightVar(objective: real, complicating: real, convexity: real)

  /** The coefficients a column's weight gets when it enters the master. */
  function Coefficients(col: Vec2): WeightVar
  {
    WeightVar(Dot(C, col), Dot(A, col), 1.0)
  }

  /** The weight variables of a column store, one per column, in store order. */
  function Table(cols: seq<Vec2>): seq<WeightVar>
  {
    seq(|cols|, i requires 0 <= i < |cols| => Coefficients(cols[i]))
  }

  /** The weight table keyed as in the run's `lambdas` map: the weight of column i is
      stored under key i. */
  function Keyed(cols: seq<Vec2>): map<nat, WeightVar>
  {
    map i: nat | i < |cols| :: Table(cols)[i]
  }

  /** Appending a column adds exactly one weight, under the key equal to the new
      column's index, and leaves every earlier weight as it was. */
  lemma KeyedAppend(cols: seq<Vec2>, x: Vec2)
    ensures |cols| !in Keyed(cols)
    ensures Keyed(cols + [x]) == Keyed(cols)[|cols| := Coefficients(x)]
  {
    var l, r := Keyed(cols + [x]), Keyed(cols)[|cols| := Coefficients(x)];
    assert l.Keys == r.Keys;
    forall k | k in l ensures l[k] == r[k] {
      if k < |cols| { assert (cols + [x])[k] == cols[k]; }
    }
  }

  /** There are exactly as many weight variables as columns, and they carry the
      coefficients of the table in store order. */
  lemma {:induction false} KeyedSize(cols: seq<Vec2>)
    ensures |Keyed(cols)| == |cols|
    ensures forall i: nat :: i < |cols| ==> i in Keyed(cols) && Keyed(cols)[i] == Table(cols)[i]
    decreases |cols|
  {
    if |cols| > 0 {
      var n := |cols| - 1;
      assert cols == cols[..n] + [cols[n]];
      KeyedSize(cols[..n]);
      KeyedAppend(cols[..n], cols[n]);
    } else {
      assert Keyed(cols) == map[];
    }
  }

  function ObjectiveRow(vars: seq<WeightVar>): seq<real>
  {
    seq(|vars|, i requires 0 <= i < |vars| => vars[i].objective)
  }

  function ComplicatingRow(vars: seq<WeightVar>): seq<real>
  {
    seq(|vars|, i requires 0 <= i < |vars| => vars[i].complicating)
  }

  function ConvexityRow(vars: seq<WeightVar>): seq<real>
  {
    seq(|vars|, i requires 0 <= i < |vars| => vars[i].convexity)
  }

  /** Weight values satisfy the master's bounds and both of its rows. */
  predicate MasterFeasible(vars: seq<WeightVar>, lams: seq<real>)
    requires |vars| == |lams|
  {
    (forall i :: 0 <= i < |lams| ==> lams[i] >= 0.0)
    && Weighted(ComplicatingRow(vars), lams) <= ComplicatingRhs
    && Weighted(ConvexityRow(vars), lams) <= ConvexityRhs
  }

  /** Coordinate k of every column, in store order. */
  function Coordinate(cols: seq<Vec2>, k: nat): seq<real>
    requires k < 2
  {
    seq(|cols|, i requires 0 <= i < |cols| => cols[i][k])
  }

  /** The row `a` evaluated at every column, in store order. */
  function RowAt(a: Vec2, cols: seq<Vec2>): seq<real>
  {
    seq(|cols|, i requires 0 <= i < |cols| => Dot(a, cols[i]))
  }

  /** The final solution: coordinate k is `sum_i cols[i][k] * lams[i]`. */
  function FinalX(cols: seq<Vec2>, lams: seq<real>): Vec2
    requires |cols| == |lams|
  {
    [Weighted(Coordinate(cols, 0), lams), Weighted(Coordinate(cols, 1), lams)]
  }

  /** An empty store reconstructs the origin. */
  lemma FinalXEmpty()
    ensures FinalX([], []) == [0.0, 0.0]
  {
  }

  /** The reconstruction adds the columns' contributions in store order: a column
      appended last contributes its coordinates scaled by its weight, on top of the
      reconstruction from the earlier columns. */
  lemma FinalXStoreOrder(cols: seq<Vec2>, lams: seq<real>, x: Vec2, l: real)
    requires |cols| == |lams|
    ensures FinalX(cols + [x], lams + [l])
              == [FinalX(cols, lams)[0] + x[0] * l, FinalX(cols, lams)[1] + x[1] * l]
  {
    var cols', lams' := cols + [x], lams + [l];
    assert cols'[..|cols|] == cols && lams'[..|lams|] == lams;
    forall k | 0 <= k < 2
      ensures Weighted(Coordinate(cols', k), lams') == Weighted(Coordinate(cols, k), lams) + x[k] * l
    {
      var longer, shorter := Coordinate(cols', k), Coordinate(cols, k);
      assert |longer| == |cols| + 1 && |shorter| == |cols|;
      assert longer[|cols|] == x[k];
      assert longer[..|cols|] == shorter;
    }
    var next, prev := FinalX(cols', lams'), FinalX(cols, lams);
    assert next[0] == prev[0] + x[0] * l && next[1] == prev[1] + x[1] * l;
  }

  /** The two seed weights of the first master: objective coefficients 0 and -15,
      complicating-row coefficients 0 and 10, convexity-row coefficients 1. */
  lemma SeedCoefficients()
    ensures Table(Seeds) == [WeightVar(0.0, 0.0, 1.0), WeightVar(-15.0, 10.0, 1.0)]
  {
  }

  /** Any row of the original problem, evaluated at the reconstruction, equals the
      same linear combination of that row evaluated at each column. */
  lemma RowOfFinalX(a: Vec2, cols: seq<Vec2>, lams: seq<real>)
    requires |cols| == |lams|
    ensures Dot(a, FinalX(cols, lams)) == Weighted(RowAt(a, cols), lams)
  {
    var row, c0, c1 := RowAt(a, cols), Coordinate(cols, 0), Coordinate(cols, 1);
    forall i | 0 <= i < |row| ensures row[i] == Dot(a, [c0[i], c1[i]]) {
      assert cols[i] == [c0[i], c1[i]];
    }
    WeightedDot(a, row, c0, c1, lams);
  }

  /** The master objective at the weights equals the original objective at the
      reconstruction. */
  lemma FinalXObjective(cols: seq<Vec2>, lams: seq<real>)
    requires |cols| == |lams|
    ensures Dot(C, FinalX(cols, lams)) == Weighted(ObjectiveRow(Table(cols)), lams)
  {
    RowOfFinalX(C, cols, lams);
    assert RowAt(C, cols) == ObjectiveRow(Table(cols));
  }

  /** The complicating row of the master, at the weights, equals the complicating
      row of the original problem at the reconstruction. */
  lemma FinalXComplicating(cols: seq<Vec2>, lams: seq<real>)
    requires |cols| == |lams|
    ensures Dot(A, FinalX(cols, lams)) == Weighted(ComplicatingRow(Table(cols)), lams)
  {
    RowOfFinalX(A, cols, lams);
    assert RowAt(A, cols) == ComplicatingRow(Table(cols));
  }

  /** Non-negative weights over non-negative columns reconstruct a non-negative point. */
  lemma FinalXNonNegative(cols: seq<Vec2>, lams: seq<real>)
    requires |cols| == |lams|
    requires AllNonNegative(cols)
    requires forall i :: 0 <= i < |lams| ==> lams[i] >= 0.0
    ensures FinalX(cols, lams)[0] >= 0.0 && FinalX(cols, lams)[1] >= 0.0
  {
    WeightedNonNegative(Coordinate(cols, 0), lams);
    WeightedNonNegative(Coordinate(cols, 1), lams);
  }

  /** Over non-negative weights, the easy row summed over columns of the easy region is at
      most the easy right-hand side summed over them. */
  lemma EasyRowBound(cols: seq<Vec2>, lams: seq<real>)
    requires |cols| == |lams|
    requires AllInEasyRegion(cols)
    requires forall i :: 0 <= i < |lams| ==> lams[i] >= 0.0
    ensures Weighted(RowAt(D, cols), lams) <= Weighted(Repeat(|cols|, 5.0), lams)
  {
    var easy, five := RowAt(D, cols), Repeat(|cols|, 5.0);
    forall i | 0 <= i < |cols| ensures easy[i] <= five[i] {
      assert InEasyRegion(cols[i]);
    }
    WeightedMonotone(easy, five, lams);
  }

  /** Every weight has convexity coefficient 1. */
  lemma ConvexityOnes(cols: seq<Vec2>)
    ensures ConvexityRow(Table(cols)) == Repeat(|cols|, 1.0)
  {
  }

  /** Over non-negative weights, the easy row at the reconstruction is at most its
      right-hand side times the convexity row: `x1 + x2 <= 5 * sum_i lams[i]`. */
  lemma FinalXEasy(cols: seq<Vec2>, lams: seq<real>)
    requires |cols| == |lams|
    requires AllInEasyRegion(cols)
    requires forall i :: 0 <= i < |lams| ==> lams[i] >= 0.0
    ensures Dot(D, FinalX(cols, lams)) <= 5.0 * Weighted(ConvexityRow(Table(cols)), lams)
  {
    RowOfFinalX(D, cols, lams);
    EasyRowBound(cols, lams);
    WeightedFive(lams);
    ConvexityOnes(cols);
  }

  /** Master-feasible weights over columns of the easy region (non-negative, component
      sum at most 5; integrality is not needed) reconstruct a point that is feasible for
      the original problem. */
  lemma FinalXFeasible(cols: seq<Vec2>, lams: seq<real>)
    requires |cols| == |lams|
    requires AllInEasyRegion(cols)
    requires MasterFeasible(Table(cols), lams)
    ensures OriginalFeasible(FinalX(cols, lams))
  {
    FinalXNonNegative(cols, lams);
    FinalXComplicating(cols, lams);
    FinalXEasy(cols, lams);
  }
}
