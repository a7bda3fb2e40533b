/** One Dantzig-Wolfe decomposition run: the column store, the master's weight
    variables, the column-generation loop and the reconstruction of the final solution.
    The two solvers are parameters: `master` solves the restricted master problem built
    from a column store, `price` solves the pricing sub-problem for an objective vector. */
module Decomposition {
  import opened Vectors
  import opened Problem
  import opened Master
  import opened Pricing

  /** What the external LP solver reports for the restricted master problem: its
      objective value, the value `weight(k)` of the weight variable stored under key k,
      and the duals of the complicating row (`pi`) and of the convexity row (`alpha`). */
  datatype MasterSolution =
    | MasterOptimal(objective: real, weight: nat -> real, pi: real, alpha: real)
    | MasterFailed

  /** The values of the weight variables under keys 0, 1, ..., n - 1, in key order. */
  function KeyOrderValues(weight: nat -> real, n: nat): seq<real>
  {
    seq(n, i requires 0 <= i => weight(i))
  }

  /** How a run ends: converged (with the last master objective, the final store, the
      last master weights and the reconstruction), a solver failure, or the iteration
      bound reached without convergence. */
  datatype RunOutcome =
    | Converged(objective: real, columns: seq<Vec2>, values: seq<real>, finalX: Vec2)
    | Failed(columns: seq<Vec2>)
    | OutOfFuel(columns: seq<Vec2>)

  /** The state of one run: the column store, the master's weight variables
      keyed by column index (`lambdas`), and the loop counter. */
  class DecompositionRun {
    var columns: seq<Vec2>
    var lambdas: map<nat, WeightVar>
    var iterCount: nat

    /** Every accepted round appended one column; the seeds come first; every column is
        easy-feasible; the weight keys are exactly the column indices and each weight
        carries the coefficients of its column. */
    ghost predicate Valid()
      reads this
    {
      && |columns| == SeedCount + iterCount
      && columns[..SeedCount] == Seeds
      && AllEasyFeasible(columns)
      && lambdas == Keyed(columns)
    }

    /** The seed store and the initial master: one weight per seed. */
    constructor ()
      ensures Valid()
      ensures columns == Seeds && iterCount == 0
      ensures lambdas == map[0 := Coefficients(Seed0), 1 := Coefficients(Seed1)]
    {
      columns := Seeds;
      lambdas := map[0 := Coefficients(Seed0), 1 := Coefficients(Seed1)];
      iterCount := 0;
      new;
      SeedsEasyFeasible();
      KeyedAppend([], Seed0);
      KeyedAppend([Seed0], Seed1);
      assert [Seed0] + [Seed1] == Seeds;
    }

    /** One pricing round on the current duals. An accepted column is appended to the
        store and gets a new weight under the key `SeedCount + iterCount`, which is the
        index of that column; otherwise nothing changes. */
    method Step(pi: real, alpha: real, price: Vec2 -> PricingSolution) returns (d: Decision)
      requires Valid()
      requires PricingSound(price)
      modifies this
      ensures Valid() && |lambdas| == |columns|
      ensures d == Decide(pi, alpha, price)
      ensures d.AddColumn? ==>
        && columns == old(columns) + [d.column]
        && lambdas == old(lambdas)[|old(columns)| := Coefficients(d.column)]
        && iterCount == old(iterCount) + 1
      ensures !d.AddColumn? ==>
        columns == old(columns) && lambdas == old(lambdas) && iterCount == old(iterCount)
    {
      var objCoeff := PricingObjective(pi);
      var sub := price(objCoeff);
      match sub {
      case PricingFailed =>
        d := SubproblemFailed;
      case PricingOptimal(value, x) =>
        var barcs := ReducedCost(value, alpha);
        if barcs < TOL {
          KeyedAppend(columns, x);
          columns := columns + [x];
          var newObjCoeff := Dot(C, x);
          var newConstrCoeff := Dot(A, x);
          lambdas := lambdas[SeedCount + iterCount := WeightVar(newObjCoeff, newConstrCoeff, 1.0)];
          iterCount := iterCount + 1;
          d := AddColumn(x);
          assert columns[..SeedCount] == old(columns)[..SeedCount];
        } else {
          d := Stop;
        }
      }
      KeyedSize(columns);
    }

    /** The final weights: the master's value of every weight variable, walking the
        keys of `lambdas` in order. Value i belongs to the weight of column i. */
    method FinalWeights(weight: nat -> real) returns (lams: seq<real>)
      requires Valid()
      ensures |lams| == |columns|
      ensures forall i :: 0 <= i < |lams| ==>
        i in lambdas && lambdas[i] == Coefficients(columns[i]) && lams[i] == weight(i)
    {
      KeyedSize(columns);
      lams := [];
      var k: nat := 0;
      while k < |lambdas|
        invariant k <= |lambdas|
        invariant |lams| == k && forall i :: 0 <= i < k ==> lams[i] == weight(i)
      {
        lams := lams + [weight(k)];
        k := k + 1;
      }
    }

    /** One pass of the loop body with `rounds` rounds still allowed: solve the master on
        the current store, price, and either append the accepted column and go on, or
        end the run, reporting on a stop the master objective, its values in key order
        and their reconstruction. The outcome `o` is meaningful only when `done`; while
        the run goes on it is a placeholder. */
    method Round(master: seq<Vec2> -> MasterSolution, price: Vec2 -> PricingSolution, rounds: nat)
      returns (done: bool, o: RunOutcome)
      requires Valid() && PricingSound(price) && rounds > 0
      modifies this
      ensures Valid()
      ensures !done ==>
        && master(old(columns)).MasterOptimal?
        && var d := Decide(master(old(columns)).pi, master(old(columns)).alpha, price);
        && d.AddColumn?
        && columns == old(columns) + [d.column]
        && lambdas == old(lambdas)[|old(columns)| := Coefficients(d.column)]
        && iterCount == old(iterCount) + 1
        && Iterate(master, price, columns, rounds - 1) == Iterate(master, price, old(columns), rounds)
      ensures done ==>
        && columns == old(columns) && lambdas == old(lambdas) && iterCount == old(iterCount)
        && o == Iterate(master, price, columns, rounds)
    {
      var m := master(columns);
      if m.MasterFailed? {
        return true, Failed(columns);
      }
      var d := Step(m.pi, m.alpha, price);
      match d {
      case AddColumn(x) =>
        done, o := false, OutOfFuel(columns);
      case Stop =>
        var lams := FinalWeights(m.weight);
        assert lams == KeyOrderValues(m.weight, |columns|);
        done, o := true, Converged(m.objective, columns, lams, FinalX(columns, lams));
      case SubproblemFailed =>
        done, o := true, Failed(columns);
      }
    }
  }

  /** The run as a function of the store: solve the master, price a column, and either
      continue with that column appended, or stop. `fuel` bounds the number of rounds. */
  function Iterate(master: seq<Vec2> -> MasterSolution, price: Vec2 -> PricingSolution,
                   cols: seq<Vec2>, fuel: nat): RunOutcome
    decreases fuel
  {
    if fuel == 0 then OutOfFuel(cols)
    else
      match master(cols)
      case MasterFailed => Failed(cols)
      case MasterOptimal(obj, weight, pi, alpha) =>
        match Decide(pi, alpha, price)
        case SubproblemFailed => Failed(cols)
        case Stop =>
          var values := KeyOrderValues(weight, |cols|);
          Converged(obj, cols, values, FinalX(cols, values))
        case AddColumn(x) => Iterate(master, price, cols + [x], fuel - 1)
  }

  /** The number of rounds of the reference run that accept a column. */
  function Accepted(master: seq<Vec2> -> MasterSolution, price: Vec2 -> PricingSolution,
                    cols: seq<Vec2>, fuel: nat): nat
    decreases fuel
  {
    if fuel == 0 then 0
    else
      match master(cols)
      case MasterFailed => 0
      case MasterOptimal(_, _, pi, alpha) =>
        match Decide(pi, alpha, price)
        case AddColumn(x) => 1 + Accepted(master, price, cols + [x], fuel - 1)
        case _ => 0
  }

  /** The store only grows, by exactly one easy-feasible column per accepted round, and a
      converged run reports the final master values and a reconstruction that is
      feasible for the original problem whenever those values are master-feasible. */
  lemma {:induction false} IterateSound(master: seq<Vec2> -> MasterSolution, price: Vec2 -> PricingSolution,
                                        cols: seq<Vec2>, fuel: nat)
    requires PricingSound(price)
    requires AllEasyFeasible(cols)
    ensures var o := Iterate(master, price, cols, fuel);
      && Accepted(master, price, cols, fuel) <= fuel
      && |o.columns| == |cols| + Accepted(master, price, cols, fuel)
      && o.columns[..|cols|] == cols
      && AllEasyFeasible(o.columns)
      && (o.OutOfFuel? ==> Accepted(master, price, cols, fuel) == fuel)
      && (o.Failed? ==>
            && Accepted(master, price, cols, fuel) < fuel
            && (master(o.columns).MasterFailed?
                || Decide(master(o.columns).pi, master(o.columns).alpha, price).SubproblemFailed?))
      && (o.Converged? ==>
            && Accepted(master, price, cols, fuel) < fuel
            && master(o.columns).MasterOptimal?
            && o.objective == master(o.columns).objective
            && o.values == KeyOrderValues(master(o.columns).weight, |o.columns|)
            && Decide(master(o.columns).pi, master(o.columns).alpha, price).Stop?
            && |o.values| == |o.columns|
            && o.finalX == FinalX(o.columns, o.values)
            && (MasterFeasible(Table(o.columns), o.values) ==> OriginalFeasible(o.finalX)))
    decreases fuel
  {
    var o := Iterate(master, price, cols, fuel);
    if fuel > 0 && master(cols).MasterOptimal? {
      var m := master(cols);
      var d := Decide(m.pi, m.alpha, price);
      AddedColumnEasyFeasible(m.pi, m.alpha, price);
      match d
      case SubproblemFailed =>
      case Stop =>
        var values := KeyOrderValues(m.weight, |cols|);
        if MasterFeasible(Table(cols), values) {
          EasyFeasibleInRegion(cols);
          FinalXFeasible(cols, values);
        }
      case AddColumn(x) =>
        var next := cols + [x];
        assert AllEasyFeasible(next) by {
          forall i | 0 <= i < |next| ensures EasyFeasible(next[i]) {
            if i < |cols| { assert next[i] == cols[i]; }
          }
        }
        IterateSound(master, price, next, fuel - 1);
        assert o == Iterate(master, price, next, fuel - 1);
        assert o.columns[..|cols|] == o.columns[..|next|][..|cols|];
    }
  }

  /** If the seeds alone already price out, the run adds no column and reports the
      seed-only master's objective. */
  lemma SeedsAlreadyOptimal(master: seq<Vec2> -> MasterSolution, price: Vec2 -> PricingSolution, fuel: nat)
    requires fuel > 0 && master(Seeds).MasterOptimal?
    requires Decide(master(Seeds).pi, master(Seeds).alpha, price).Stop?
    ensures Iterate(master, price, Seeds, fuel)
              == var values := KeyOrderValues(master(Seeds).weight, |Seeds|);
                 Converged(master(Seeds).objective, Seeds, values, FinalX(Seeds, values))
  {
  }

  /** The column-generation driver: at most `fuel` rounds of master solve, pricing and
      decision, then the reconstruction of the final solution from the last master
      values. */
  method Solve(master: seq<Vec2> -> MasterSolution, price: Vec2 -> PricingSolution, fuel: nat)
    returns (o: RunOutcome)
    requires PricingSound(price)
    ensures o == Iterate(master, price, Seeds, fuel)
    ensures |Seeds| <= |o.columns| <= |Seeds| + fuel
    ensures |o.columns| == |Seeds| + Accepted(master, price, Seeds, fuel)
    ensures o.columns[..|Seeds|] == Seeds
    ensures AllEasyFeasible(o.columns)
    ensures o.Converged? ==>
      |o.values| == |o.columns| && o.finalX == FinalX(o.columns, o.values)
      && (MasterFeasible(Table(o.columns), o.values) ==> OriginalFeasible(o.finalX))
  {
    var run := new DecompositionRun();
    var running := true;
    o := OutOfFuel(Seeds);
    while running && run.iterCount < fuel
      invariant run.Valid() && run.iterCount <= fuel
      invariant running ==>
        Iterate(master, price, run.columns, fuel - run.iterCount) == Iterate(master, price, Seeds, fuel)
      invariant !running ==> o == Iterate(master, price, Seeds, fuel)
      decreases fuel - run.iterCount + (if running then 1 else 0)
    {
      var done, outcome := run.Round(master, price, fuel - run.iterCount);
      if done {
        o := outcome;
        running := false;
      }
    }
    if running {
      o := OutOfFuel(run.columns);
    }
    SeedsEasyFeasible();
    IterateSound(master, price, Seeds, fuel);
  }
}
