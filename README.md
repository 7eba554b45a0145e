# Pipeline driver and basic cleaning, modelled in Dafny

This project models the two pieces of logic in a short-term-rental price
pipeline that decide what the pipeline does.

* **The driver** (`main.py`) reads a resolved configuration and turns the
  `main.steps` string into a list of active step names. The exact string
  `"all"` expands to five default steps. Anything else is split on commas,
  with no trimming. A fixed chain of six `if name in active_steps` blocks
  then invokes the steps. Each invocation gets a parameter dictionary built
  from configuration groups.
* **The basic cleaning step** (`src/basic_cleaning/run.py`) keeps the rows
  whose value in one column lies in an inclusive range and reports how many
  rows it dropped (`filter_column_bounds`). Its `go` applies that filter to
  price, then longitude, then latitude.

Files:

* `results.dfy` (module `Results`): `Option` and a failure-compatible
  `Result`. A Python exception raised by a lookup becomes an `Err`, and `:-`
  stops at the first one, as the exception would.
* `driver.dfy` (module `Driver`): the configuration and its lookups. It has
  the step-list parsing (`Split`, `ActiveSteps`), one builder per step block
  (`DownloadCall` … `TestRegressionModelCall`), and the declarative run
  `Plan`. It also has the imperative chain `Go` / `Dispatch` /
  `DispatchModelSteps`, proved equal to `Plan`, and the selection and
  ordering lemmas.
* `basic_cleaning.dfy` (module `BasicCleaning`): a table as column labels
  plus a sequence of rows. `FilterColumnBounds` computes the filter as the
  source does: a boolean mask, boolean indexing, and the mask's sum. It is
  proved equal to the reference definition `Keep`. The file also has the
  three-filter chain `Clean` and its lemmas.

Modelling decisions:

* The resolved configuration is an input, a map from group name to a map
  from key to `Value`. A `Value` is a string, integer, real, boolean or
  nested table.
* A missing key is `KeyError(path)`. A value of the wrong kind is
  `TypeError(path)`, for example a non-string project name written to the
  process environment. The same `TypeError` also stands for the
  `AttributeError` Python raises when a non-string steps value has no
  `.split` (main.py line 34) or a `random_forest` entry has no `.items()`
  (main.py line 94). Lookups happen in the order Python evaluates the
  source expressions, so the failing lookup is the one the source would
  hit first.
* Each `mlflow.run` call becomes an `Invocation(step, target, params)`. The
  target is either a sub-directory of the components repository
  (`Remote`) or a directory of the project (`Local`).
* A run is the sequence of invocations made plus the error that stopped it,
  if any.
* The path of the serialised random-forest configuration is a parameter,
  `rfConfig`.

## Behaviour worth noting

* The driver itself does not check that the cleaning group has
  `min_price`. It copies the cleaning group verbatim into the
  `basic_cleaning` invocation (main.py lines 54-60), and its own first
  lookup of `cleaning.min_price` is in the `data_check` block (main.py line
  70). `MissingMinPriceStillInvokesCleaning` states this. In the running
  pipeline the cleaning step would then stop on its own required
  `--min_price` argument (src/basic_cleaning/run.py lines 123-128); how an
  invoked step fails is not part of this model (see "Left out").
* Applying the three cleaning filters in another order can change the
  per-filter drop counts but not the final rows: `KeepCommutes` proves that
  keeping by one bound and then another is order-independent.

## Model

| member | source | states |
|---|---|---|
| Driver.Get | main.py:33 | `config[group][key]` succeeds exactly when both keys exist and returns that value; otherwise it is a `KeyError` naming the first missing key |
| Driver.GetGroup | main.py:58 | `config[group]` as a mapping: it succeeds exactly when the group exists, and otherwise the error is a `KeyError` naming it |
| Driver.GetText | main.py:29-30 | A lookup whose value must be a string (environment variable values) succeeds exactly when the key exists and holds a string |
| Driver.Split | main.py:34 | `str.split(",")` yields at least one piece and no piece contains a comma |
| Driver.ActiveSteps | main.py:34 | Exactly `"all"` gives the default list, any other string gives its comma split, and a non-string is an error |
| Driver.Header | main.py:29-34 | The lookups before any step succeed exactly when project name, experiment name and steps are all strings; the active list is then `ActiveSteps` of the steps value |
| Driver.DownloadCall | main.py:41-52 | The download call succeeds exactly when the repository is a string and `etl.sample` exists. It targets `<repository>/get_data` with exactly the four keys: `sample` from `etl`, `artifact_name` `"sample.csv"`, `artifact_type` `"raw_data"` and `artifact_description` `"Raw file as downloaded"` |
| Driver.BasicCleaningCall | main.py:54-60 | The parameters are the `cleaning` group copied verbatim; it fails exactly when that group is missing |
| Driver.DataCheckCall | main.py:62-73 | It succeeds exactly when the `data_check` group and both cleaning price bounds exist. The keys are the group's keys plus `min_price`/`max_price`, whose values come from `cleaning` and override the group. Every other key keeps its `data_check` value. A missing group is reported first |
| Driver.DataSplitCall | main.py:75-87 | `input` is the cleaning `output_artifact` followed by `:latest`; the other three keys are copied from `modeling` |
| Driver.TrainRandomForestCall | main.py:89-114 | It succeeds only if `modeling.random_forest` is a mapping. It has exactly seven keys: `rf_config` is the serialised-configuration path and the other six are copied from `modeling` |
| Driver.TestRegressionModelCall | main.py:116-127 | The parameters are the `testing` group copied verbatim; it fails exactly when that group is missing |
| Driver.BuildInvocation | main.py:41-127 | The invocation built for a step is recorded under that step |
| Driver.Go | main.py:26-127 | The invocations `go` makes, and the error that stops it, are exactly `Plan`: nothing on a header failure, otherwise the selected steps run in chain order until the first failing lookup |
| Driver.Attempt | main.py:41-127 | One guarded block of the chain, any of the six: when the name is absent nothing is invoked; otherwise the built invocation is appended, or the run stops with the lookup error and nothing is appended |
| Driver.Dispatch | main.py:41-127 | The chain of six guarded blocks makes exactly the invocations of running the selected steps in chain order |
| Driver.DispatchModelSteps | main.py:75-127 | The last three blocks extend the log exactly as running the selected steps among data_split, train_random_forest and test_regression_model does. The source has one chain; it is cut in two only to keep each proof small |
| Driver.ExecuteBuilds | main.py:41-127 | With the builders of `go`, each invocation made is the one its step builds, tagged with that step, up to the first step that cannot be built |
| Driver.ExecuteShape | main.py:41-127 | A run invokes the built invocations of a prefix of its steps, in order. It completes all of them exactly when it records no failure, and a failure is the error of the first step that could not be built |
| Driver.ExecuteAppend | main.py:41-127 | Running two step lists in sequence is running their concatenation, unless the first fails |
| Driver.JoinSplit | main.py:34 | Joining the pieces of a split with commas gives back the original string |
| Driver.SplitJoin | main.py:34 | Splitting a comma-join of comma-free pieces gives back the pieces: nothing is trimmed and empty pieces are kept |
| Driver.AllSelectsDefaultSteps | main.py:11-21 | The steps value `"all"` expands to `_steps` (the constant `DefaultSteps`), the five default names. It selects download, basic_cleaning, data_check, data_split and train_random_forest in that order, and not `test_regression_model` |
| Driver.AllInsideListIsSplit | main.py:34 | `"all,download"` is not special: it splits into the pieces `"all"` and `"download"` |
| Driver.AllInsideListIsJustAName | main.py:41-127 | The active list `["all", "download"]` invokes only download |
| Driver.PiecesAreNotTrimmed | main.py:34 | `" data_split"` is one piece that keeps its leading space |
| Driver.UntrimmedNameMatchesNothing | main.py:75 | A name with a leading space selects no step |
| Driver.TwoNamesSplit | main.py:34 | `"data_split,basic_cleaning"` splits into its two names |
| Driver.NameOrderIgnored | main.py:54-87 | Naming data_split before basic_cleaning still runs basic_cleaning first |
| Driver.SelectFromMembers | main.py:41-127 | A step is selected by a chain exactly when it is in the chain and its name is active |
| Driver.Selected | main.py:41-127 | The `name in active_steps` tests of the chain (`Pick`, one per block): a step runs exactly when some piece of the step list equals its name; the selected steps come in chain order whatever the order of names, and no step appears twice even when its name is repeated |
| Driver.SelectFromOrdered | main.py:41-127 | Selection keeps the chain order of the steps |
| Driver.InChainOrderUnique | main.py:41-127 | Two step lists in chain order with the same members are equal |
| Driver.SelectedCharacterised | main.py:41-127 | The selected steps are the only chain-ordered list that holds exactly the steps whose names are active |
| Driver.SelectFromNamesOnly | main.py:41-127 | Selection depends only on which names occur in the active list |
| Driver.ExtraNamesIgnored | main.py:41-127 | Adding repeated names, or names of no step, to the active list changes nothing |
| Driver.Plan | main.py:26-127 | The run of `go`: a header failure invokes nothing. Otherwise the invocations are the selected steps in order, each built from the configuration, up to the first one that cannot be built, whose error ends the run |
| Driver.PlanInvokesEachStepOnce | main.py:41-127 | The invocations of a run come in chain order, and no step is invoked twice |
| Driver.PlanInvokesOnlyNamedSteps | main.py:11-127 | Every invoked step is in the active list: an entry of `_steps` when `main.steps` is `"all"`, otherwise a piece of `main.steps`. `test_regression_model` is invoked only when `main.steps` is not `"all"` and one of its pieces is exactly that name |
| Driver.AllNeverSelectsTestRegression | main.py:11-21 | The steps value `"all"` never selects `test_regression_model` |
| Driver.TestRegressionSelectedByName | main.py:116 | `test_regression_model` is selected only when one piece of the step list is exactly its name |
| Driver.TestRegressionOnlyWhenNamed | main.py:11-34 | Whenever a steps value selects `test_regression_model`, that value is not `"all"` and its split contains the name `test_regression_model` |
| Driver.MissingMinPriceStillInvokesCleaning | main.py:54-73 | Without `cleaning.min_price` the basic_cleaning parameters are still built from the cleaning group, and only the data_check parameters cannot be built, failing on that key |
| BasicCleaning.Mask | src/basic_cleaning/run.py:35 | The mask has one entry per row, true exactly when the row's value lies in the range with both ends included |
| BasicCleaning.FilterColumnBounds | src/basic_cleaning/run.py:16-37 | It fails exactly when the column is missing. Otherwise it keeps the columns and the frame shape, and keeps exactly the in-range rows in input order. Every kept row is within both ends, and the drop count is total minus kept |
| BasicCleaning.MaskSelectsKeep | src/basic_cleaning/run.py:35-37 | Boolean indexing with the mask yields exactly the rows the bound keeps |
| BasicCleaning.KeepAdmitted | src/basic_cleaning/run.py:35-37 | Every kept row passes the bound, and kept rows of a rectangular frame keep its columns |
| BasicCleaning.KeepMembers | src/basic_cleaning/run.py:35-37 | A row is kept exactly when it is an input row within the bounds |
| BasicCleaning.KeepIsSubsequence | src/basic_cleaning/run.py:35-37 | The kept rows are a subsequence of the input: original relative order |
| BasicCleaning.KeepPartition | src/basic_cleaning/run.py:37 | Kept and rejected rows together are the input rows as a multiset, so kept + dropped = total |
| BasicCleaning.RejectFails | src/basic_cleaning/run.py:35-37 | The rejected rows are exactly the input rows outside the bounds |
| BasicCleaning.KeepIdempotent | src/basic_cleaning/run.py:35-37 | Keeping twice by the same bound is keeping once |
| BasicCleaning.KeepCommutes | src/basic_cleaning/run.py:51-67 | Keeping by two bounds gives the same rows in either order |
| BasicCleaning.KeepEmptyRange | src/basic_cleaning/run.py:35 | An empty range keeps no row |
| BasicCleaning.FilterKeepsExactlyInBoundRows | src/basic_cleaning/run.py:35-37 | On a present column the kept rows are exactly the in-range input rows, in input order. The drop count equals the number of out-of-range rows |
| BasicCleaning.FilterTwiceDropsNothing | src/basic_cleaning/run.py:35-37 | Filtering a filtered frame again with the same column and bounds returns the same frame and drops zero rows |
| BasicCleaning.FilterEmptyRange | src/basic_cleaning/run.py:35-37 | With `min_val > max_val` no row is kept, every row is dropped, and no error is raised |
| BasicCleaning.FilterPriceExample | src/basic_cleaning/run.py:35-37 | Prices 50, 500 and 5000 on `[100, 1000]` keep the 500 row and drop two |
| BasicCleaning.KeepAfterKeepAll | src/basic_cleaning/run.py:51-67 | Filtering by a list of bounds and then one more equals filtering by the extended list |
| BasicCleaning.KeepAllNone | src/basic_cleaning/run.py:51-67 | With no bounds every row is kept |
| BasicCleaning.KeepAllMembers | src/basic_cleaning/run.py:51-67 | The rows passing all bounds are exactly those input rows, and they form a subsequence of the input |
| BasicCleaning.Clean | src/basic_cleaning/run.py:51-67 | The chain fails exactly when price, longitude or latitude is missing, naming the first missing one in filter order. Otherwise it keeps the columns and exactly the input rows within all three bounds, in input order, and the three drop counts sum to the rows removed |
| BasicCleaning.ChainKeepsAll | src/basic_cleaning/run.py:51-67 | The three filters one after another keep exactly the input rows that pass all three bounds, as a subsequence of the input |

## Left out

- Loading the configuration with hydra and command-line overrides: the resolved configuration is an input.
- Writing `WANDB_PROJECT` and `WANDB_RUN_GROUP` to the process environment. Only the lookups, and the requirement that their values are strings, are modelled.
- The temporary directory, `get_original_cwd` and path joining: local targets are written as paths relative to the project directory.
- Writing the random-forest configuration to `rf_config.json`: the mapping check on `modeling.random_forest` is kept, and the file path is the input `rfConfig`.
- Executing `mlflow.run` and how an executed step fails: each call is only recorded, and a run stops only on a configuration lookup error.
- Driver.DownloadCall: an f-string accepts any value for `components_repository`, but the model requires a string and reports a `TypeError` otherwise.
- Driver.DataSplitCall: f-strings accept any value for `main.components_repository` (main.py line 80) and `cleaning.output_artifact`, but the model requires both to be strings and reports a `TypeError` otherwise, where the source would go on to invoke the step.
- Driver.DataSplitCall: its contract states the parameters of a successful call, not which lookup fails first.
- Driver.TrainRandomForestCall: its contract states the parameters of a successful call, not which lookup fails first.
- The wandb calls, CSV reading and writing, and artifact upload of the cleaning step: `Clean` receives the loaded table and returns the table that would be published.
- Argument parsing and logging of the cleaning step: the six bounds arrive as reals, and the logged drop counts are the fields of `Cleaned`.
- NaN handling in `Series.between`: values are reals compared with `<=`.
- Column dtypes: every column holds reals.
- Column order and the row index: a frame is a set of column labels and a sequence of rows, so the column order and the original row labels that boolean indexing and `.copy()` keep are not modelled. The rows keep their relative order.
- The input table is never modified and the result is a copy: this holds by construction, because frames are values.
