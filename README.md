# DBEstClient approximate aggregation, modelled in Dafny

DBEstClient answers `COUNT`, `SUM` and `AVG` queries from trained models instead of
from the data. A `CREATE` query samples a table, trains a model wrapper (density and
regression estimators) and stores it. A `SELECT` query looks the wrapper up and
integrates its estimators over a range. This project models three parts of that
system:

- **The quadrature kernel** (`dbestclient/ml/integral.py`) is modelled as pure
  functions over `seq<real>` meshes and `seq<seq<real>>` groups-by-mesh matrices, in
  `integral.dfy`. The density and regression estimators are function parameters.
- **The model catalog** (`dbestclient/catalog/catalog.py`) is a class holding a `map`
  from catalog keys to entries, in `catalog.dfy`. An entry is either one wrapper or one
  group's mapping from group value to wrapper.
- **The executor** (`dbestclient/executor/executor.py`) is a class with the
  executor's fields, in `executor.dfy`. Its methods update the catalog and append to a
  trace of side effects: pickle loads, `make_sample` calls, serialisations and catalog
  registrations. The warehouse scan is a loop with invariants, and so is the loop that
  builds a directory's group wrapper. Both are proved against recursive specification
  functions. The qreg `SELECT` loop over groups is a loop too, proved against a
  predicate that relates the leaves to the predictions.

External calls whose results the core uses are fields of an `Externals` record of
functions: the four trainers, `get_pickle_file_name`, `GroupByModelWrapper`,
`add_simple_model` and `QueryEngine(...).predict`. The parser is replaced by the parsed
query, which arrives as a `Query` value. Sampling (`make_sample`) and serialisation
(`serialize2warehouse`) are `Sample` and `Serialize` actions in the trace. The mdn
query engine (`MdnQueryEngine(...).predicts`) is not modelled, because its result is
discarded. The file system is a `FileSystem` value: the set of existing paths, the set of
files, and a listing of the warehouse in which each directory carries its leaves and
each `.pkl` file the wrapper it unpickles to.

The model follows the code as written. Some places where the code behaves otherwise
than its own comments suggest, or otherwise than one might expect:

- `approx_count` and `approx_sum` slice `[:-1, :]`. This drops the last group's row
  and sums every column. The TODO at `dbestclient/ml/integral.py:91` speaks of a rule
  that uses only the left point of each interval. `Integral.ApproxCount` and
  `Integral.ApproxSum` model the slice as written. The left-endpoint rule is
  `Integral.LeftRiemannCount` and `Integral.LeftRiemannSum` (see Findings).
- `approx_integrate` returns n − 2 values, while its docstring promises a float (see
  Findings).
- A `SELECT` without a `WHERE` clause prints a message and goes on. It then fails
  wherever the unbound range is read. This is `Outcome.RangeUnbound`, except that a
  qreg query on an empty group mapping prints an empty result and succeeds.
- The other training branches persist a model and then register it. The mdn bundle
  branch registers first and then persists (`dbestclient/executor/executor.py:218-220`).
- A missing catalog key raises `KeyError` in the code. The model reports it as the
  outcome `KeyMissing`.

## Model

| member | source | states |
|---|---|---|
| Integral.Linspace | dbestclient/ml/integral.py:37 | The mesh has n points, starts at lb, ends at ub, has a uniform spacing equal to the reported step `(ub − lb)/(n − 1)`, and is non-decreasing when lb ≤ ub |
| Integral.ApproxIntegrate | dbestclient/ml/integral.py:37-43 | The estimator is applied once, to the whole mesh. The result has n − 2 entries, and entry k is `(½(p[0] + p[n−1]) + p[k+1])·step` |
| Integral.TrapezoidIntegrate | dbestclient/ml/integral.py:44 | The corrected quadrature is one scalar, the mean of the left and right Riemann sums times the step |
| Integral.TrapezoidExactOnConstant | dbestclient/ml/integral.py:44 | The trapezoidal rule on a constant integrand c gives exactly c·(ub − lb) |
| Integral.ApproxIntegrateOnConstant | dbestclient/ml/integral.py:37-43 | For n ≥ 3 and a constant integrand c, every entry as written times (n − 1) is 2·c·(ub − lb). So each entry is the integral c·(ub − lb) times 2/(n − 1), and when c·(ub − lb) ≠ 0 the entries match the integral only for n = 3 |
| Integral.ApproxIntegrateTotal | dbestclient/ml/integral.py:42-44 | For every integrand, the entries as written add up to the trapezoid value of line 44 plus (n − 3) further copies of the end-point term ½(p[0] + p[n−1])·step |
| Integral.ApproxIntegrateIsNotScalar | dbestclient/ml/integral.py:42-44 | On 4 points over [0, 3] with an integrand of 1, the code as written returns [2, 2], while the trapezoid gives 3 |
| Integral.RegXPoints | dbestclient/ml/integral.py:72 | The repeated mesh has `len(groups)·n` entries |
| Integral.RegGPoints | dbestclient/ml/integral.py:73 | The expanded group list has `len(groups)·n` entries |
| Integral.RegXPointsAt | dbestclient/ml/integral.py:72 | Entry `i·n + j` of the repeated mesh is mesh point j |
| Integral.RegGPointsAt | dbestclient/ml/integral.py:73 | Entry `i·n + j` of the expanded group list is group i |
| Integral.GroupMajorPairing | dbestclient/ml/integral.py:72-73 | Every flat position k pairs group `k / n` with mesh point `k mod n`, so the two lists enumerate the group-by-mesh product in group-major order |
| Integral.Reshape | dbestclient/ml/integral.py:85 | A flat list of rows·cols values reshapes into rows rows of cols entries |
| Integral.ReshapeAt | dbestclient/ml/integral.py:85 | Row i, column j of the reshaped list is flat entry `i·cols + j` |
| Integral.PrepareRegDensityData | dbestclient/ml/integral.py:69-87 | A result exists exactly when a regression is given and its output has `len(groups)·n` values. The density is the estimator applied once to the unexpanded groups and the mesh. The step is the mesh step. The regression matrix has one row of n per group |
| Integral.PreparedRowIsGroup | dbestclient/ml/integral.py:72-85 | Row i, column j of the regression matrix is the prediction the regression made for the pair (group i, mesh point j) |
| Integral.DropLastRow | dbestclient/ml/integral.py:92 | `m[:-1, :]` keeps `|m| − 1` rows (none of an empty matrix), each unchanged |
| Integral.ScaledRowSums | dbestclient/ml/integral.py:92 | One value per row: the step times the sum of that row |
| Integral.ApproxCount | dbestclient/ml/integral.py:90-92 | For r rows, r − 1 values (0 if r = 0). Value i is the step times the sum of every entry of row i |
| Integral.Multiply | dbestclient/ml/integral.py:98 | The elementwise product keeps the shape, and entry (i, j) is the product of the two entries |
| Integral.ApproxSum | dbestclient/ml/integral.py:95-102 | The same length as COUNT. Value i is the step times the sum of row i of the elementwise product |
| Integral.MultiplyByOnes | dbestclient/ml/integral.py:98 | Multiplying by an all-ones matrix of the same shape gives the matrix back |
| Integral.SumWithOnesIsCount | dbestclient/ml/integral.py:95-102 | With an all-ones regression, SUM equals COUNT |
| Integral.CountIgnoresLastRow | dbestclient/ml/integral.py:92 | COUNT does not depend on the last row: it equals the scaled row sums of all the other rows |
| Integral.ApproxAvg | dbestclient/ml/integral.py:105-108 | The same length as COUNT. An entry is undefined exactly where COUNT is 0. Elsewhere the entry times COUNT equals SUM |
| Integral.AvgWithOnes | dbestclient/ml/integral.py:105-108 | With an all-ones regression, AVG is 1 wherever COUNT is not 0 |
| Integral.CountOfConstantDensity | dbestclient/ml/integral.py:90-92 | On a constant density c, COUNT has one entry fewer than the groups, and each entry times (n − 1) is c·(ub − lb)·n |
| Integral.ApproxCountDropsLastGroup | dbestclient/ml/integral.py:92 | COUNT of [[1, 1], [1, 1]] with step 1 is [2]: the second group is lost |
| Integral.LeftRiemannCount | dbestclient/ml/integral.py:91 | The corrected COUNT has one value per group: the step times the sum over all columns but the last |
| Integral.LeftRiemannSum | dbestclient/ml/integral.py:91-100 | The corrected SUM has one value per group: the step times the sum, over all columns but the last, of the elementwise product of density and regression |
| Integral.LeftRiemannSumWithOnes | dbestclient/ml/integral.py:91-100 | With an all-ones regression, the corrected SUM equals the corrected COUNT |
| Integral.LeftRiemannExactOnConstant | dbestclient/ml/integral.py:91 | The corrected COUNT on a constant density c gives exactly c·(ub − lb) for every group, whatever n is |
| Catalog.EntryOf | dbestclient/catalog/catalog.py:13-16 | An ungrouped wrapper is stored as itself, and a grouped one as its group mapping (both directions) |
| Catalog.Registered | dbestclient/catalog/catalog.py:12-16 | After registration the key set is the old one plus the wrapper's key, which holds the wrapper's entry whatever it held before. Every other key keeps its value. The key set grows by at most one, and by none when the key was present |
| Catalog.RegisterUngrouped | dbestclient/catalog/catalog.py:13-14 | Without a group value, the entry under the pickle-file name is the wrapper itself |
| Catalog.RegisterGrouped | dbestclient/catalog/catalog.py:15-16 | With a group value, the entry under the wrapper's directory is its whole group mapping |
| Catalog.RegisterOverwrites | dbestclient/catalog/catalog.py:12-16 | Registering twice under one key is the same as registering only the second wrapper: there is no duplicate check |
| Catalog.DBEstModelCatalog.constructor | dbestclient/catalog/catalog.py:9-10 | A new catalog is empty |
| Catalog.DBEstModelCatalog.AddModelWrapper | dbestclient/catalog/catalog.py:12-16 | The new catalog is the old one with the wrapper registered |
| Executor.RemoveQuotes | dbestclient/executor/executor.py:111 | The result has no single quote, is no longer than the input, and keeps every other character as often as the input has it |
| Executor.RemoveQuotesAppend | dbestclient/executor/executor.py:111 | Removing quotes from a concatenation is removing them from each part and concatenating. With RemoveQuotesChar this fixes the result completely, so the kept characters stay in their order |
| Executor.RemoveQuotesChar | dbestclient/executor/executor.py:111 | A single quote character is dropped, and any other single character is kept |
| Executor.RemoveQuotesKeepsOthers | dbestclient/executor/executor.py:111 | A name without quotes is left unchanged |
| Executor.RemoveQuotesIdempotent | dbestclient/executor/executor.py:111 | Removing quotes twice is the same as removing them once |
| Executor.GroupOf | dbestclient/executor/executor.py:70-81 | A directory's scan yields a group wrapper exactly when it has a `.pkl` leaf |
| Executor.GroupOfFirstHeader | dbestclient/executor/executor.py:70-83 | The group wrapper is built from the header fields of the first `.pkl` leaf and receives `add_simple_model` for every `.pkl` leaf in listing order |
| Executor.ScanCountIsRegistrations | dbestclient/executor/executor.py:50-84 | `n_model` equals the number of registrations in the scan's trace: one per top-level `.pkl` and one per directory, none per leaf. It is at most the number of listing entries |
| Executor.ScanKeysMembership | dbestclient/executor/executor.py:51-84 | A key is registered by the scan exactly when some top-level `.pkl` or directory of the listing has it |
| Executor.ScanCatalogKeys | dbestclient/executor/executor.py:51-84 | After the scan, the catalog's keys are the old keys plus the registered ones |
| Executor.ScanCatalogLastWins | dbestclient/executor/executor.py:60-83 | Where several entries register one key, the catalog holds the value of the last of them in listing order |
| Executor.KeyedPredictions | dbestclient/executor/executor.py:264-279 | When each leaf's group value is its own key, every group gets its own leaf's estimate |
| Executor.SqlExecutor.constructor | dbestclient/executor/executor.py:34-45 | The executor starts with no parser, no sample saving and the bundle enabled. Its catalog is the scan of the warehouse over an empty catalog, and its trace is the scan's trace |
| Executor.SqlExecutor.InitModelCatalog | dbestclient/executor/executor.py:47-88 | The catalog becomes the scan of the listing, the trace gains the scan's loads and registrations in order, and the result is the scan's `n_model` |
| Executor.SqlExecutor.LoadEntry | dbestclient/executor/executor.py:53-84 | One listing entry: a top-level `.pkl` is loaded and then registered under its pickle-file name. A directory's leaves are loaded, then the directory is registered once under its own name. The counter grows by one for each of these two cases, otherwise by none |
| Executor.SqlExecutor.LoadLeaves | dbestclient/executor/executor.py:66-81 | The inner loop changes only the trace, so no partial group reaches the catalog. It loads each `.pkl` leaf in order. It returns the directory's group wrapper, or an earlier directory's wrapper unchanged when there is no `.pkl` leaf |
| Executor.SqlExecutor.Execute | dbestclient/executor/executor.py:90-104 | The parser is set to the query. A nested query changes nothing. A CREATE meets CreateSpec. A SELECT meets SelectSpec and changes neither the trace nor the catalog |
| Executor.SqlExecutor.ExecuteCreate | dbestclient/executor/executor.py:105-150 | When `wh/mdl.pkl` exists, or for a grouped query `wh/mdl_groupby_attr`, CREATE returns before sampling and changes nothing. Otherwise it samples from the quote-free table file (used verbatim when it is a file, else under the warehouse) with the query's columns, ratio, method and the configured split character, saving the sample only when sample saving is on, and then trains |
| Executor.SqlExecutor.Train | dbestclient/executor/executor.py:151-220 | The training branch is chosen by groupby, then `reg_type == "qreg"`, then the bundle flag, and each branch's order of effects holds (TrainSpec) |
| Executor.SqlExecutor.TrainSimple | dbestclient/executor/executor.py:158-175 | Ungrouped: the trainer is given the sampling ratio, and the trained wrapper is serialised to the warehouse, then registered with `add_model_wrapper` |
| Executor.SqlExecutor.TrainGroupBy | dbestclient/executor/executor.py:178-192 | qreg: the collection is serialised under `wh/dir`, then its mapping is stored under `dir` |
| Executor.SqlExecutor.TrainKde | dbestclient/executor/executor.py:207-215 | mdn without the bundle: the kde wrapper, trained with infinite x bounds, is serialised, then registered |
| Executor.SqlExecutor.TrainBundle | dbestclient/executor/executor.py:216-220 | mdn bundle: the bundle is registered before it is serialised |
| Executor.SqlExecutor.ExecuteSelect | dbestclient/executor/executor.py:227-300 | The lookup keys are `get_pickle_file_name(mdl)`, `mdl_groupby_attr` and `mdl.pkl`. A missing key, an entry of the wrong kind and an unbound range are each reported. An ungrouped query returns the engine's (p, t), a qreg query gives one estimate per group, and an mdn query is made and discarded |
| Executor.SqlExecutor.PredictGroups | dbestclient/executor/executor.py:264-279 | The keys of the predictions are exactly the leaves' group values, and each value is the estimate of a leaf with that group value |

## Left out

- Floating point: numbers are mathematical reals. Rounding, `nan` and `inf` are not modelled. Infinite x bounds are the `NegInf`/`PosInf` constructors of `Bound`.
- Integral.Linspace: modelled only for `n_division ≥ 2`. numpy also accepts 0 and 1 points.
- Integral.ApproxIntegrate: requires the estimator to return one prediction per mesh point, as its docstring demands. Broadcasting of other lengths is not modelled.
- Integral.ApproxSum: requires the two matrices to have the same shape. numpy broadcasting of other shapes is not modelled; the same holds for Integral.ApproxAvg.
- Integral.ApproxAvg: a zero COUNT gives `Undefined` instead of numpy's `nan`/`inf` with a warning.
- Integral.PrepareRegDensityData: a failing `reshape` (no regression, or an output of the wrong size) is `None` instead of an exception.
- `sin_` and the `__main__` blocks are test scaffolding and are not modelled.
- Executor.SqlExecutor.InitModelCatalog: requires every directory to have a `.pkl` leaf and no directory to be named like a pickle. In the code, a directory without a `.pkl` leaf registers the previous directory's mapping, or raises `NameError` if there is none. A directory named `*.pkl` would be taken for a pickle file too. The same requirement is on Executor.SqlExecutor.constructor.
- Executor.SqlExecutor.PredictGroups: when two leaves share a group value, which leaf's estimate wins depends on dictionary iteration order. The contract only says that it is the estimate of one of them.
- Executor.SqlExecutor.Execute: `type(sql)` dispatch, parsing a SQL string, and the `exit(-1)` on an unrecognised argument are not modelled. The query arrives parsed.
- Printing, timing and the `verbose` setting only affect output, and are left out; the modelled configuration holds only the warehouse directory, the split character and `reg_type`.
- Sampling and serialisation are trace actions only, and the trainers and `QueryEngine.predict` are external functions. The sample data is not modelled, and neither are `getyx`, `pd.to_numeric`/`dropna`, the `get_group_count_*` helpers or the summary file `num_of_points.txt`. The `Sample` action records the data file, the columns, the ratio, the method, the split character and the save path. It does not record `num_total_records`.
- The trainers are functions of the names, the group attribute, the x bounds and, for `SimpleModelTrainer`, the sampling ratio. The `config` every trainer receives, the total and sample point counts, and `n_per_group=20` of the bundle are not arguments, so the model's trainers cannot depend on them.
- Executor.SqlExecutor.ExecuteCreate: writing the model file appends a `Serialize` action but does not add paths to the `FileSystem` value. Each `execute` call is given the file system as it is at that call.
- `set_table_headers`, `set_table_counts`, `table_header`, `n_total_records` and `use_kde` are passed along to external calls or never read by the core, and are left out.
- Executor.SqlExecutor.ExecuteSelect: the mdn SELECT's `predicts` result is discarded by the code, so its value is not modelled. An entry of the wrong kind, a missing attribute or a `KeyError` is reported as an outcome instead of an exception.
- The qreg SELECT prints its predictions and returns `None`. The model returns the printed mapping as the outcome.

## Findings

| source | as written | input that shows it | evidently intended | confidence | as-written member | corrected member |
|---|---|---|---|---|---|---|
| dbestclient/ml/integral.py:43 | `(0.5*(p[0]+p[-1]) + p[1:-1])*step` broadcasts the end-point term over the interior slice and returns n − 2 values | integrand 1 on 4 points over [0, 3]: the result is [2, 2] | the scalar trapezoidal rule of the docstring (returns a float) and of line 44, which gives 3 | not executed; follows from numpy broadcasting | Integral.ApproxIntegrateIsNotScalar, Integral.ApproxIntegrateOnConstant, Integral.ApproxIntegrateTotal | Integral.TrapezoidIntegrate, Integral.TrapezoidExactOnConstant |
| dbestclient/ml/integral.py:92,100 | `pred_density[:-1, :]` drops the last group's row and keeps every mesh column | density [[1, 1], [1, 1]], step 1: COUNT is [2], one group short; on a constant density every value is n/(n − 1) times c·(ub − lb) | the left-endpoint rule of the comment at line 91: every group, all columns but the last, exact on constants | not executed; follows from numpy slicing | Integral.ApproxCountDropsLastGroup, Integral.CountOfConstantDensity | Integral.LeftRiemannCount, Integral.LeftRiemannSum, Integral.LeftRiemannExactOnConstant, Integral.LeftRiemannSumWithOnes |

Nothing else in this model calls these functions: the executor's SELECT goes through the external query engines. `Integral.ApproxSum` and `Integral.ApproxAvg` keep the slice as written, so that they model the code.
