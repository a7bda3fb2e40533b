# Dantzig-Wolfe column generation: the bookkeeping, verified

This project models the column-generation loop of a small Dantzig-Wolfe
decomposition script. The script minimises `x1 - 3 x2` subject to one
complicating row `-x1 + 2 x2 <= 6` and one easy row `x1 + x2 <= 5`,
with `x1, x2 >= 0`. It does this by alternating two solves:

- a restricted master problem (RMP) over one continuous weight per column;
- an integer pricing sub-problem (CGSP) that proposes a new column.

Every numeric solve is delegated to an external LP/IP solver. What the script
itself does, and what is modelled here in exact `real` arithmetic, is the
bookkeeping:

- the append-only column store, seeded with `[0, 0]` and `[0, 5]`;
- the master's weight variables, one per column. Each carries objective
  coefficient `c.col`, complicating-row coefficient `A.col` and
  convexity-row coefficient 1;
- the pricing objective `c - A*pi` and the reduced cost `subObj - alpha`;
- the accept/stop rule `barcs < TOL`, with `TOL = -1e-6`;
- the reconstruction `final_x[k] = sum_i columns[i][k] * lambdas[i]`.

The solvers are function parameters (oracles):

- `master : seq<Vec2> -> MasterSolution` solves the RMP built from a column
  store. It returns the objective, the value `weight(k)` of the weight
  variable under each key k (the `.X` of `lambdas[k]`), and the duals `pi`
  and `alpha`, or a failure.
- `price : Vec2 -> PricingSolution` solves the sub-problem for an objective
  vector. It returns the optimal value and point, or a failure.

Only one thing is assumed of them: the pricing point is feasible for the
sub-problem (non-negative, integer, component sum at most 5: `PricingSound`).
The final weights, one per column and in column order, come from the run's
own bookkeeping (`lambdas` keyed by column index), not from the master.

Modules:

- `Vectors`: `Vec2`, `Dot`, the linear expression `Weighted`, and its
  linearity and monotonicity lemmas.
- `Problem`: the instance data (`C`, `A`, `D`, right-hand sides, `TOL`,
  seeds) and the feasibility predicates.
- `Master`: weight variables, the weight table keyed by column index, the
  master rows, `FinalX`, and the reconstruction lemmas.
- `Pricing`: the pricing objective, the reduced cost and the decision rule.
- `Decomposition`:
  - the class `DecompositionRun`, which owns `columns`, the `lambdas` map
    and `iterCount`;
  - its `Step` method;
  - the reference run `Iterate`, a pure function with a fuel bound;
  - the driver `Solve`, a `while` loop proved equal to `Iterate`.

Notes on the code:

- The sub-problem's easy row is written as `quicksum(x_s) <= 5`. The vectors
  `D` and `d` are declared but never used. `EasyFeasible` uses
  `x[0] + x[1] <= 5`.
- The master has only the complicating row and the convexity row. No `D`-row
  coefficient is stored with a weight.
- The loop `for iter_count in count()` has no iteration cap.
- No solver answer is checked for failure.
- The final weights walk the keys of `lambdas` in insertion order. The keys
  are inserted as 0, 1, 2, ..., so that order is `0 .. |lambdas| - 1`, the
  order `FinalWeights` walks.

## Model

| member | source | states |
|---|---|---|
| Master.SeedCoefficients | dantzig_wolfe_decomposition.py:25-35 | the seed weights have objective coefficients 0 and -15, complicating coefficients 0 and 10, convexity coefficients 1 |
| Problem.SeedsEasyFeasible | dantzig_wolfe_decomposition.py:25-29 | there are two seeds, and both lie in the sub-problem's feasible region |
| Decomposition.DecompositionRun.constructor | dantzig_wolfe_decomposition.py:25-47 | the initial store is the two seeds, with weights under keys 0 and 1 carrying their coefficients; the run invariant holds |
| Master.KeyedAppend | dantzig_wolfe_decomposition.py:73-81 | appending a column adds one weight under a fresh key equal to the new column's index, carrying that column's coefficients (`Coefficients`: objective `c.col`, complicating `A.col`, convexity 1); all earlier weights are unchanged |
| Master.KeyedSize | dantzig_wolfe_decomposition.py:29-39 | the number of weight variables equals the number of columns, and key i holds entry i of the store-order weight table `Table`, the coefficients of column i |
| Decomposition.DecompositionRun.Step | dantzig_wolfe_decomposition.py:55-85 | implements the pricing decision; on accept, appends exactly one column and inserts its weight under key `SeedCount + iterCount` (proved equal to the old store length); on stop or failure, changes nothing; keeps the invariant and `|lambdas| == |columns|` |
| Decomposition.DecompositionRun.Round | dantzig_wolfe_decomposition.py:52-85 | one pass of the loop body keeps the invariant; when the run goes on, the master was solved, the decision was to add its column, exactly that column was appended after the kept earlier columns with its weight under the new key, the counter went up by one, and the reference run from the new store with one round fewer equals the one from the old store; when the run ends the state is unchanged and the outcome is the reference run's |
| Decomposition.DecompositionRun.FinalWeights | dantzig_wolfe_decomposition.py:88 | the final weight list has one value per column, and value i is the master's value of the variable under key i, which is the weight of column i |
| Pricing.PricedValueIsReducedCost | dantzig_wolfe_decomposition.py:59-70 | the pricing objective `c - A*pi` at a column, minus `alpha`, equals the master reduced cost `obj - pi*complicating - alpha*convexity` of that column's weight |
| Pricing.AcceptRule | dantzig_wolfe_decomposition.py:72-85 | a column is added iff the sub-problem is solved and `value - alpha < TOL`; the added column is the solver's point; the round stops iff the reduced cost is in `[TOL, inf)`; it fails iff the sub-problem fails |
| Pricing.AcceptsImprovingWeight | dantzig_wolfe_decomposition.py:59-72 | if the solver's value is the pricing objective at its point, a column is accepted iff its weight's master reduced cost is below TOL |
| Pricing.AddedColumnEasyFeasible | dantzig_wolfe_decomposition.py:64-73 | under a sound sub-problem solver, every added column is easy-feasible |
| Master.FinalXEmpty | dantzig_wolfe_decomposition.py:91-94 | the empty store reconstructs the origin |
| Master.FinalXStoreOrder | dantzig_wolfe_decomposition.py:91-94 | the reconstruction sums the columns in store order: a column appended last adds `x[k]*l` to coordinate k of the reconstruction from the earlier columns |
| Master.RowOfFinalX | dantzig_wolfe_decomposition.py:91-94 | any row evaluated at `final_x` equals the weighted sum of that row evaluated at each column |
| Master.FinalXObjective | dantzig_wolfe_decomposition.py:88-94 | `c.final_x` equals the master objective at the weights |
| Master.FinalXComplicating | dantzig_wolfe_decomposition.py:88-94 | `A.final_x` equals the master's complicating-row left-hand side at the weights |
| Problem.EasyFeasibleInRegion | dantzig_wolfe_decomposition.py:64-66 | every column of the integer sub-problem's region lies in its relaxation `x >= 0`, `x1 + x2 <= 5` |
| Master.FinalXNonNegative | dantzig_wolfe_decomposition.py:88-94 | non-negative weights over columns with `x >= 0` give a non-negative `final_x` |
| Master.FinalXEasy | dantzig_wolfe_decomposition.py:88-94 | over non-negative weights and columns with `x >= 0`, `x1 + x2 <= 5`, the value of `x1 + x2` at `final_x` is at most 5 times the convexity-row sum |
| Master.FinalXFeasible | dantzig_wolfe_decomposition.py:88-94 | master-feasible weights over columns with `x >= 0`, `x1 + x2 <= 5` (integrality not needed) give a `final_x` that satisfies `-x1 + 2x2 <= 6`, `x1 + x2 <= 5` and `x >= 0` |
| Decomposition.IterateSound | dantzig_wolfe_decomposition.py:52-94 | over a run: the old store is a prefix of the final one, which is exactly `Accepted` columns longer (`Accepted` counts the rounds that accept a column, at most `fuel`); every column is easy-feasible; fuel exhaustion means all `fuel` rounds accepted; a failure comes after fewer than `fuel` accepted rounds, from a failed master or a failed sub-problem; on convergence fewer than `fuel` rounds accepted, the reported objective is the last master solve's and the values are its weights in key order, one per column, that solve's round stopped, and `final_x` is original-feasible when those values are master-feasible |
| Decomposition.SeedsAlreadyOptimal | dantzig_wolfe_decomposition.py:52-85 | if the seeds already price out, no column is added and the seed-only master's objective is reported |
| Decomposition.Solve | dantzig_wolfe_decomposition.py:52-94 | the driver's while loop over `Round` returns exactly the reference run `Iterate` from the seeds; its store starts with the seeds, is all easy-feasible, and has gained exactly `Accepted` columns, at most `fuel`; on convergence `final_x` is the weighted reconstruction and is original-feasible when the final weights are master-feasible |

## Left out

- The `fuel` bound is an addition of the model: the code's loop has no cap. A run that uses up its rounds ends as `OutOfFuel`. The model does not say what happens after that many rounds.
- Solver failure is an addition of the model: the code never checks for it. A `MasterFailed` or `PricingFailed` answer ends the run as `Failed`.
- The LP/IP solves (`model.optimize`, `sub_model.optimize`, `.pi`, `.X`, `.objVal`) are calls into an external solver. They are oracle parameters; no simplex or branch-and-bound is modelled.
- The oracles are pure functions. This assumes a deterministic solver, and also that the master solve depends only on the column store. The model cannot express a solver whose answer depends on the warm-start basis.
- Optimality-dependent properties are not modelled because they rest on the solver's optimality, which is not assumed. These are: non-increasing master objective, finite convergence, and agreement with the compact LP's optimum.
- Floating-point arithmetic in numpy and Gurobi is replaced by exact `real`. `TOL` is the exact rational -1/1000000.
- The `print` of the objective value and the module-level globals are left out. The run's state is the explicit class `DecompositionRun`, and the reported objective is the `objective` field of `Converged`.
- Master feasibility of the final weights is a premise of the reconstruction lemmas, not a property of the master oracle.
- Duplicate columns returned by the sub-problem are accepted as new weights, as in the code. No deduplication is modelled.
