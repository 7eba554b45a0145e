/** The pipeline driver: which steps a run invokes, in which order, and the
    parameter dictionary each invocation receives.

    The resolved configuration is an input. Each `mlflow.run` call is
    recorded as an `Invocation` (step, target, parameters), and a run is the
    sequence of invocations it makes plus the configuration error that
    stopped it, if any. */
module Driver {
  import opened Results

  // ---------------------------------------------------------------------
  // Configuration
  // ---------------------------------------------------------------------

  /** A configuration value. `Table` is a nested mapping such as
      `modeling.random_forest`. */
  datatype Value =
    | Text(s: string)
    | Int(i: int)
    | Real(r: real)
    | Bool(b: bool)
    | Table(entries: map<string, Value>)

  /** A configuration group (`main`, `etl`, `cleaning`, ...). */
  type Group = map<string, Value>

  /** The resolved configuration: group name to group. */
  type Config = map<string, Group>

  /** A parameter dictionary handed to one step. */
  type Params = map<string, Value>

  /** Why reading the configuration failed: a missing key (`KeyError`) or a
      value of the wrong kind for how it is used (`TypeError`), with the path
      of keys that was being read. */
  datatype ConfigError = KeyError(path: seq<string>) | TypeError(path: seq<string>)

  /** `config[group][key]`. */
  function Get(cfg: Config, group: string, key: string): (r: Result<Value, ConfigError>)
    ensures r.Ok? <==> group in cfg && key in cfg[group]
    ensures r.Ok? ==> r.value == cfg[group][key]
    ensures group !in cfg ==> r == Err(KeyError([group]))
    ensures group in cfg && key !in cfg[group] ==> r == Err(KeyError([group, key]))
  {
    if group !in cfg then Err(KeyError([group]))
    else if key !in cfg[group] then Err(KeyError([group, key]))
    else Ok(cfg[group][key])
  }

  /** `config[group]`, used as a mapping (`**config[group]`). */
  function GetGroup(cfg: Config, group: string): (r: Result<Group, ConfigError>)
    ensures r.Ok? <==> group in cfg
    ensures r.Ok? ==> r.value == cfg[group]
    ensures r.Err? ==> r.error == KeyError([group])
  {
    if group !in cfg then Err(KeyError([group])) else Ok(cfg[group])
  }

  /** `config[group][key]` where a string is required. */
  function GetText(cfg: Config, group: string, key: string): (r: Result<string, ConfigError>)
    ensures r.Ok? <==> group in cfg && key in cfg[group] && cfg[group][key].Text?
    ensures r.Ok? ==> r.value == cfg[group][key].s
  {
    var v :- Get(cfg, group, key);
    if v.Text? then Ok(v.s) else Err(TypeError([group, key]))
  }

  // ---------------------------------------------------------------------
  // Steps and step selection
  // ---------------------------------------------------------------------

  datatype Step =
    | Download
    | BasicCleaning
    | DataCheck
    | DataSplit
    | TrainRandomForest
    | TestRegressionModel

  /** The name a step is selected by. */
  function Name(step: Step): string
  {
    match step
    case Download => "download"
    case BasicCleaning => "basic_cleaning"
    case DataCheck => "data_check"
    case DataSplit => "data_split"
    case TrainRandomForest => "train_random_forest"
    case TestRegressionModel => "test_regression_model"
  }

  /** Position of a step in the dispatch chain of `go`. */
  function Rank(step: Step): nat
  {
    match step
    case Download => 0
    case BasicCleaning => 1
    case DataCheck => 2
    case DataSplit => 3
    case TrainRandomForest => 4
    case TestRegressionModel => 5
  }

  /** The order in which `go` tests the steps. */
  const DispatchOrder: seq<Step> :=
    [Download, BasicCleaning, DataCheck, DataSplit, TrainRandomForest, TestRegressionModel]

  /** `_steps`: what `"all"` expands to. `test_regression_model` is
      deliberately absent. */
  const DefaultSteps: seq<string> :=
    ["download", "basic_cleaning", "data_check", "data_split", "train_random_forest"]

  /** `s.split(",")`: the pieces between commas, with no trimming; the empty
      string gives one empty piece. */
  function Split(s: string): (pieces: seq<string>)
    ensures |pieces| >= 1
    ensures forall i :: 0 <= i < |pieces| ==> ',' !in pieces[i]
  {
    if s == [] then [""]
    else
      var rest := Split(s[1..]);
      if s[0] == ',' then [""] + rest
      else [[s[0]] + rest[0]] + rest[1..]
  }

  /** `",".join(pieces)`. */
  function Join(pieces: seq<string>): string
    requires |pieces| >= 1
  {
    if |pieces| == 1 then pieces[0] else pieces[0] + "," + Join(pieces[1..])
  }

  /** The active step list: `_steps` for exactly `"all"`, otherwise the
      comma-split of the string. A non-string value cannot be split. */
  function ActiveSteps(stepsPar: Value): (r: Result<seq<string>, ConfigError>)
    ensures stepsPar == Text("all") ==> r == Ok(DefaultSteps)
    ensures stepsPar.Text? && stepsPar.s != "all" ==> r == Ok(Split(stepsPar.s))
    ensures !stepsPar.Text? ==> r.Err?
  {
    if stepsPar == Text("all") then Ok(DefaultSteps)
    else if stepsPar.Text? then Ok(Split(stepsPar.s))
    else Err(TypeError(["main", "steps"]))
  }

  /** The test `name in active_steps` of one block of the chain. */
  function Pick(step: Step, active: seq<string>): seq<Step>
  {
    if Name(step) in active then [step] else []
  }

  /** The steps of `order` whose name is in `active`, in the order of
      `order`. */
  function SelectFrom(order: seq<Step>, active: seq<string>): seq<Step>
  {
    if order == [] then [] else Pick(order[0], active) + SelectFrom(order[1..], active)
  }

  /** The steps `go` invokes for the active list, in invocation order: a
      step runs exactly when some piece of the step list equals its name,
      the steps come in the order of the chain whatever the order of the
      names, and none runs twice even when its name is repeated. */
  function Selected(active: seq<string>): (steps: seq<Step>)
    ensures forall s :: s in steps <==> Name(s) in active
    ensures InChainOrder(steps)
    ensures forall i, j :: 0 <= i < j < |steps| ==> steps[i] != steps[j]
  {
    ChainHoldsEveryStep();
    SelectFromAll(DispatchOrder, active);
    SelectFromOrdered(DispatchOrder, active);
    SelectFrom(DispatchOrder, active)
  }

  // ---------------------------------------------------------------------
  // Invocations and parameter wiring
  // ---------------------------------------------------------------------

  /** Where the step runner finds a step: a sub-directory of the components
      repository, or a directory of this project's own source tree. */
  datatype Target = Remote(uri: string) | Local(path: string)

  /** One `mlflow.run` call. */
  datatype Invocation = Invocation(step: Step, target: Target, params: Params)

  /** The `download` call: the `get_data` component of the components
      repository, with the sample name from `etl` and fixed artifact
      metadata. */
  function DownloadCall(cfg: Config): (r: Result<Invocation, ConfigError>)
    ensures r.Ok? <==> (
      && "main" in cfg && "components_repository" in cfg["main"]
      && cfg["main"]["components_repository"].Text?
      && "etl" in cfg && "sample" in cfg["etl"])
    ensures r.Ok? ==>
      && r.value.target == Remote(cfg["main"]["components_repository"].s + "/get_data")
      && r.value.params.Keys == {"sample", "artifact_name", "artifact_type", "artifact_description"}
      && r.value.params["sample"] == cfg["etl"]["sample"]
      && r.value.params["artifact_name"] == Text("sample.csv")
      && r.value.params["artifact_type"] == Text("raw_data")
      && r.value.params["artifact_description"] == Text("Raw file as downloaded")
  {
    var repo :- GetText(cfg, "main", "components_repository");
    var sample :- Get(cfg, "etl", "sample");
    Ok(Invocation(Download, Remote(repo + "/get_data"),
      map[
        "sample" := sample,
        "artifact_name" := Text("sample.csv"),
        "artifact_type" := Text("raw_data"),
        "artifact_description" := Text("Raw file as downloaded")]))
  }

  /** The `basic_cleaning` call: the `cleaning` group, copied. */
  function BasicCleaningCall(cfg: Config): (r: Result<Invocation, ConfigError>)
    ensures r.Ok? <==> "cleaning" in cfg
    ensures r.Ok? ==> r.value.params == cfg["cleaning"]
    ensures r.Err? ==> r.error == KeyError(["cleaning"])
  {
    var cleaning :- GetGroup(cfg, "cleaning");
    Ok(Invocation(BasicCleaning, Local("src/basic_cleaning"), cleaning))
  }

  /** The `data_check` call: the `data_check` group followed by the
      cleaning price bounds, later keys winning as in a dict literal. */
  function DataCheckCall(cfg: Config): (r: Result<Invocation, ConfigError>)
    ensures r.Ok? <==> (
      && "data_check" in cfg && "cleaning" in cfg
      && "min_price" in cfg["cleaning"] && "max_price" in cfg["cleaning"])
    ensures "data_check" !in cfg ==> r == Err(KeyError(["data_check"]))
    ensures r.Ok? ==> r.value.params.Keys == cfg["data_check"].Keys + {"min_price", "max_price"}
    ensures r.Ok? ==>
      && r.value.params["min_price"] == cfg["cleaning"]["min_price"]
      && r.value.params["max_price"] == cfg["cleaning"]["max_price"]
    ensures r.Ok? ==> forall k :: k in cfg["data_check"] && k != "min_price" && k != "max_price" ==>
      r.value.params[k] == cfg["data_check"][k]
  {
    var dataCheck :- GetGroup(cfg, "data_check");
    var minPrice :- Get(cfg, "cleaning", "min_price");
    var maxPrice :- Get(cfg, "cleaning", "max_price");
    Ok(Invocation(DataCheck, Local("src/data_check"),
      dataCheck["min_price" := minPrice]["max_price" := maxPrice]))
  }

  /** The `data_split` call: the `train_val_test_split` component, reading
      the latest version of the cleaning output. */
  function DataSplitCall(cfg: Config): (r: Result<Invocation, ConfigError>)
    ensures r.Ok? ==> r.value.params.Keys == {"input", "test_size", "random_seed", "stratify_by"}
    ensures r.Ok? ==>
      && "cleaning" in cfg && "output_artifact" in cfg["cleaning"]
      && cfg["cleaning"]["output_artifact"].Text?
      && r.value.params["input"] == Text(cfg["cleaning"]["output_artifact"].s + ":latest")
    ensures r.Ok? ==> "modeling" in cfg && forall k :: k in r.value.params && k != "input" ==>
      k in cfg["modeling"] && r.value.params[k] == cfg["modeling"][k]
  {
    var repo :- GetText(cfg, "main", "components_repository");
    var output :- GetText(cfg, "cleaning", "output_artifact");
    var testSize :- Get(cfg, "modeling", "test_size");
    var seed :- Get(cfg, "modeling", "random_seed");
    var stratify :- Get(cfg, "modeling", "stratify_by");
    Ok(Invocation(DataSplit, Remote(repo + "/train_val_test_split"),
      map[
        "input" := Text(output + ":latest"),
        "test_size" := testSize,
        "random_seed" := seed,
        "stratify_by" := stratify]))
  }

  /** The `train_random_forest` call. The random-forest group must be a
      mapping (it is serialised with `.items()` first); the call receives
      the path `rfConfig` of the serialised file. */
  function TrainRandomForestCall(cfg: Config, rfConfig: string): (r: Result<Invocation, ConfigError>)
    ensures r.Ok? ==> "modeling" in cfg && "random_forest" in cfg["modeling"] && cfg["modeling"]["random_forest"].Table?
    ensures r.Ok? ==> r.value.params.Keys == {"trainval_artifact", "val_size", "random_seed", "stratify_by",
      "rf_config", "max_tfidf_features", "output_artifact"}
    ensures r.Ok? ==> r.value.params["rf_config"] == Text(rfConfig)
    ensures r.Ok? ==> forall k :: k in r.value.params && k != "rf_config" ==>
      k in cfg["modeling"] && r.value.params[k] == cfg["modeling"][k]
  {
    var forest :- Get(cfg, "modeling", "random_forest");
    if !forest.Table? then Err(TypeError(["modeling", "random_forest"]))
    else
      var trainval :- Get(cfg, "modeling", "trainval_artifact");
      var valSize :- Get(cfg, "modeling", "val_size");
      var seed :- Get(cfg, "modeling", "random_seed");
      var stratify :- Get(cfg, "modeling", "stratify_by");
      var maxFeatures :- Get(cfg, "modeling", "max_tfidf_features");
      var output :- Get(cfg, "modeling", "output_artifact");
      Ok(Invocation(TrainRandomForest, Local("src/train_random_forest"),
        map[
          "trainval_artifact" := trainval,
          "val_size" := valSize,
          "random_seed" := seed,
          "stratify_by" := stratify,
          "rf_config" := Text(rfConfig),
          "max_tfidf_features" := maxFeatures,
          "output_artifact" := output]))
  }

  /** The `test_regression_model` call: the `testing` group, copied. */
  function TestRegressionModelCall(cfg: Config): (r: Result<Invocation, ConfigError>)
    ensures r.Ok? <==> "testing" in cfg
    ensures r.Ok? ==> r.value.params == cfg["testing"]
    ensures r.Err? ==> r.error == KeyError(["testing"])
  {
    var testing :- GetGroup(cfg, "testing");
    Ok(Invocation(TestRegressionModel, Local("components/test_regression_model"), testing))
  }

  /** The invocation `go` builds for `step`, reading the configuration in
      the order the Python expression does; `rfConfig` is the path of the
      serialised random-forest configuration. */
  function BuildInvocation(cfg: Config, step: Step, rfConfig: string): (r: Result<Invocation, ConfigError>)
    ensures r.Ok? ==> r.value.step == step
  {
    match step
    case Download => DownloadCall(cfg)
    case BasicCleaning => BasicCleaningCall(cfg)
    case DataCheck => DataCheckCall(cfg)
    case DataSplit => DataSplitCall(cfg)
    case TrainRandomForest => TrainRandomForestCall(cfg, rfConfig)
    case TestRegressionModel => TestRegressionModelCall(cfg)
  }

  // ---------------------------------------------------------------------
  // Runs
  // ---------------------------------------------------------------------

  /** What a run did: the invocations made, in order, and the configuration
      error that aborted it, if any. */
  datatype Run = Run(invoked: seq<Invocation>, failure: Option<ConfigError>)

  /** How the driver turns a step into an invocation. */
  type Builder = Step -> Result<Invocation, ConfigError>

  /** The builder of `go` for one configuration. */
  function Builds(cfg: Config, rfConfig: string): Builder
  {
    step => BuildInvocation(cfg, step, rfConfig)
  }

  /** `first` followed by `second`, unless `first` already failed. */
  function Then(first: Run, second: Run): Run
  {
    if first.failure.Some? then first
    else Run(first.invoked + second.invoked, second.failure)
  }

  /** Invoking `steps` one after another: each invocation is built and
      recorded before the next is attempted, and the first one that cannot
      be built aborts the run. */
  function Execute(build: Builder, steps: seq<Step>): Run
    decreases |steps|
  {
    if steps == [] then Run([], None)
    else
      match build(steps[0])
      case Err(e) => Run([], Some(e))
      case Ok(call) =>
        var rest := Execute(build, steps[1..]);
        Run([call] + rest.invoked, rest.failure)
  }

  /** The lookups `go` makes before any step: the project and experiment
      names (which must be strings, as they are written to the process
      environment) and the step list. */
  function Header(cfg: Config): (r: Result<seq<string>, ConfigError>)
    ensures r.Ok? <==> (
      && "main" in cfg
      && "project_name" in cfg["main"] && cfg["main"]["project_name"].Text?
      && "experiment_name" in cfg["main"] && cfg["main"]["experiment_name"].Text?
      && "steps" in cfg["main"] && cfg["main"]["steps"].Text?)
    ensures r.Ok? ==> r == ActiveSteps(cfg["main"]["steps"])
  {
    var project :- GetText(cfg, "main", "project_name");
    var experiment :- GetText(cfg, "main", "experiment_name");
    var stepsPar :- Get(cfg, "main", "steps");
    ActiveSteps(stepsPar)
  }

  /** The run of `go`, stated as one pass over the ordered list of step
      descriptors: a header failure invokes nothing; otherwise the steps
      invoked are the selected ones in order, up to the first whose
      parameters cannot be read, whose error ends the run. */
  function Plan(cfg: Config, rfConfig: string): (r: Run)
    ensures Header(cfg).Err? ==> r == Run([], Some(Header(cfg).error))
    ensures Header(cfg).Ok? ==>
      var sel := Selected(Header(cfg).value);
      && |r.invoked| <= |sel|
      && (forall i :: 0 <= i < |r.invoked| ==>
            r.invoked[i].step == sel[i] && BuildInvocation(cfg, sel[i], rfConfig) == Ok(r.invoked[i]))
      && (r.failure.None? <==> |r.invoked| == |sel|)
      && (r.failure.Some? ==> BuildInvocation(cfg, sel[|r.invoked|], rfConfig) == Err(r.failure.value))
  {
    match Header(cfg)
    case Err(e) => Run([], Some(e))
    case Ok(active) =>
      ExecuteBuilds(cfg, rfConfig, Selected(active));
      Execute(Builds(cfg, rfConfig), Selected(active))
  }

  /** `go`: the source's chain of `if name in active_steps` tests, each
      building one invocation and appending it to the log. */
  method Go(cfg: Config, rfConfig: string) returns (invoked: seq<Invocation>, failure: Option<ConfigError>)
    ensures Run(invoked, failure) == Plan(cfg, rfConfig)
  {
    var project := GetText(cfg, "main", "project_name");
    if project.Err? {
      assert Header(cfg) == Err(project.error);
      return [], Some(project.error);
    }
    var experiment := GetText(cfg, "main", "experiment_name");
    if experiment.Err? {
      assert Header(cfg) == Err(experiment.error);
      return [], Some(experiment.error);
    }
    var stepsPar := Get(cfg, "main", "steps");
    if stepsPar.Err? {
      assert Header(cfg) == Err(stepsPar.error);
      return [], Some(stepsPar.error);
    }
    var activeSteps := ActiveSteps(stepsPar.value);
    if activeSteps.Err? {
      assert Header(cfg) == Err(activeSteps.error);
      return [], Some(activeSteps.error);
    }
    var active := activeSteps.value;
    assert Header(cfg) == Ok(active);
    invoked, failure := Dispatch(cfg, rfConfig, active);
  }

  /** One block of the chain of `go`: when the step is named in the active
      list, build its invocation and append it to the log; a lookup that
      fails aborts the run with its error. */
  method Attempt(cfg: Config, rfConfig: string, active: seq<string>, step: Step, invoked: seq<Invocation>)
    returns (invoked': seq<Invocation>, failure: Option<ConfigError>)
    ensures Run(invoked', failure) == Then(Run(invoked, None), Execute(Builds(cfg, rfConfig), Pick(step, active)))
  {
    ghost var build := Builds(cfg, rfConfig);
    if Name(step) !in active {
      assert Run(invoked, None) == Then(Run(invoked, None), Execute(build, []));
      return invoked, None;
    }
    var call := BuildInvocation(cfg, step, rfConfig);
    assert build(step) == call;
    ExecuteCons(build, step, []);
    if call.Err? {
      return invoked, Some(call.error);
    }
    return invoked + [call.value], None;
  }

  /** The body of `go` after the step list is known: one guarded invocation
      per step, in the fixed order of the chain. The first three blocks
      prepare the data; the rest of the chain is `DispatchModelSteps`. */
  method Dispatch(cfg: Config, rfConfig: string, active: seq<string>)
    returns (invoked: seq<Invocation>, failure: Option<ConfigError>)
    ensures Run(invoked, failure) == Execute(Builds(cfg, rfConfig), Selected(active))
  {
    ghost var build := Builds(cfg, rfConfig);
    ghost var whole := Execute(build, Selected(active));
    // `todo`: the steps of the chain still to be tested.
    ghost var todo := DispatchOrder;
    ghost var before: seq<Invocation>;
    invoked := [];
    assert whole == Then(Run(invoked, None), Execute(build, SelectFrom(todo, active)));

    todo := [BasicCleaning, DataCheck, DataSplit, TrainRandomForest, TestRegressionModel];
    before := invoked;
    invoked, failure := Attempt(cfg, rfConfig, active, Download, invoked);
    assert whole == Then(Run(invoked, failure), Execute(build, SelectFrom(todo, active))) by {
      Advance(build, before, Download, todo, active);
    }
    if failure.Some? {
      return;
    }

    todo := [DataCheck, DataSplit, TrainRandomForest, TestRegressionModel];
    before := invoked;
    invoked, failure := Attempt(cfg, rfConfig, active, BasicCleaning, invoked);
    assert whole == Then(Run(invoked, failure), Execute(build, SelectFrom(todo, active))) by {
      Advance(build, before, BasicCleaning, todo, active);
    }
    if failure.Some? {
      return;
    }

    todo := [DataSplit, TrainRandomForest, TestRegressionModel];
    before := invoked;
    invoked, failure := Attempt(cfg, rfConfig, active, DataCheck, invoked);
    assert whole == Then(Run(invoked, failure), Execute(build, SelectFrom(todo, active))) by {
      Advance(build, before, DataCheck, todo, active);
    }
    if failure.Some? {
      return;
    }

    invoked, failure := DispatchModelSteps(cfg, rfConfig, active, invoked);
  }

  /** The last three blocks of the chain, continuing the log `invoked0`.
      The source has one chain of six blocks; it is cut in two here only to
      keep each method's proof small. */
  method DispatchModelSteps(cfg: Config, rfConfig: string, active: seq<string>, invoked0: seq<Invocation>)
    returns (invoked: seq<Invocation>, failure: Option<ConfigError>)
    ensures Run(invoked, failure) == Then(Run(invoked0, None),
      Execute(Builds(cfg, rfConfig), SelectFrom([DataSplit, TrainRandomForest, TestRegressionModel], active)))
  {
    ghost var build := Builds(cfg, rfConfig);
    ghost var todo := [DataSplit, TrainRandomForest, TestRegressionModel];
    ghost var whole := Then(Run(invoked0, None), Execute(build, SelectFrom(todo, active)));
    ghost var before: seq<Invocation>;
    invoked := invoked0;

    todo := [TrainRandomForest, TestRegressionModel];
    before := invoked;
    invoked, failure := Attempt(cfg, rfConfig, active, DataSplit, invoked);
    assert whole == Then(Run(invoked, failure), Execute(build, SelectFrom(todo, active))) by {
      Advance(build, before, DataSplit, todo, active);
    }
    if failure.Some? {
      return;
    }

    todo := [TestRegressionModel];
    before := invoked;
    invoked, failure := Attempt(cfg, rfConfig, active, TrainRandomForest, invoked);
    assert whole == Then(Run(invoked, failure), Execute(build, SelectFrom(todo, active))) by {
      Advance(build, before, TrainRandomForest, todo, active);
    }
    if failure.Some? {
      return;
    }

    todo := [];
    before := invoked;
    invoked, failure := Attempt(cfg, rfConfig, active, TestRegressionModel, invoked);
    assert whole == Then(Run(invoked, failure), Execute(build, SelectFrom(todo, active))) by {
      assert [TestRegressionModel] + todo == [TestRegressionModel];
      Advance(build, before, TestRegressionModel, todo, active);
    }
    assert Execute(build, SelectFrom(todo, active)) == Run([], None);
  }

  // ---------------------------------------------------------------------
  // Lemmas connecting the if-chain to the plan
  // ---------------------------------------------------------------------

  /** A run invokes the built invocations of a prefix of its steps, in
      order; it completes all of them exactly when it records no failure, and
      a failure is the error of the first step that could not be built. */
  lemma {:induction false} ExecuteShape(build: Builder, steps: seq<Step>)
    ensures var r := Execute(build, steps);
      && |r.invoked| <= |steps|
      && (forall i :: 0 <= i < |r.invoked| ==> build(steps[i]) == Ok(r.invoked[i]))
      && (r.failure.None? <==> |r.invoked| == |steps|)
      && (r.failure.Some? ==> build(steps[|r.invoked|]) == Err(r.failure.value))
    decreases |steps|
  {
    if steps != [] {
      ExecuteShape(build, steps[1..]);
      var r := Execute(build, steps);
      if build(steps[0]).Ok? {
        var rest := Execute(build, steps[1..]);
        assert r.invoked == [build(steps[0]).value] + rest.invoked;
        forall i | 1 <= i < |r.invoked| ensures build(steps[i]) == Ok(r.invoked[i]) {
          assert steps[i] == steps[1..][i - 1];
          assert r.invoked[i] == rest.invoked[i - 1];
        }
      }
    }
  }

  /** Unfolding `Execute` on a step put in front of others. */
  lemma ExecuteCons(build: Builder, step: Step, steps: seq<Step>)
    ensures Execute(build, [step] + steps) ==
      match build(step)
      case Err(e) => Run([], Some(e))
      case Ok(call) =>
        var rest := Execute(build, steps);
        Run([call] + rest.invoked, rest.failure)
  {
    assert ([step] + steps)[1..] == steps;
  }

  /** Running `xs` and then `ys` is running `xs + ys`, unless `xs` already
      failed. */
  lemma {:induction false} ExecuteAppend(build: Builder, xs: seq<Step>, ys: seq<Step>)
    ensures Execute(build, xs + ys) == Then(Execute(build, xs), Execute(build, ys))
  {
    if xs == [] {
      assert xs + ys == ys;
    } else {
      var step, tail := xs[0], xs[1..];
      assert xs == [step] + tail;
      assert xs + ys == [step] + (tail + ys);
      ExecuteCons(build, step, tail);
      ExecuteCons(build, step, tail + ys);
      match build(step)
      case Err(e) =>
      case Ok(call) =>
        ExecuteAppend(build, tail, ys);
        var rest, second := Execute(build, tail), Execute(build, ys);
        if rest.failure.None? {
          assert [call] + (rest.invoked + second.invoked) == ([call] + rest.invoked) + second.invoked;
        }
    }
  }

  /** Testing one more block of the chain: the run so far, followed by the
      rest of the chain, is the run so far followed by this block and then by
      the rest. */
  lemma Advance(build: Builder, invoked: seq<Invocation>, step: Step, rest: seq<Step>, active: seq<string>)
    ensures Then(Run(invoked, None), Execute(build, SelectFrom([step] + rest, active)))
      == Then(Then(Run(invoked, None), Execute(build, Pick(step, active))), Execute(build, SelectFrom(rest, active)))
  {
    assert ([step] + rest)[1..] == rest;
    var first, second := Execute(build, Pick(step, active)), Execute(build, SelectFrom(rest, active));
    ExecuteAppend(build, Pick(step, active), SelectFrom(rest, active));
    if first.failure.None? {
      assert invoked + (first.invoked + second.invoked) == (invoked + first.invoked) + second.invoked;
    }
  }

  // ---------------------------------------------------------------------
  // The step list
  // ---------------------------------------------------------------------

  /** Putting a character in front of the first piece. */
  lemma JoinConsHead(c: char, p: string, rest: seq<string>)
    ensures Join([[c] + p] + rest) == [c] + Join([p] + rest)
  {
    if rest != [] {
      assert ([[c] + p] + rest)[1..] == rest;
      assert ([p] + rest)[1..] == rest;
      var j := Join(rest);
      assert Join([[c] + p] + rest) == ([c] + p) + "," + j;
      assert Join([p] + rest) == p + "," + j;
    } else {
      assert [[c] + p] + rest == [[c] + p];
      assert [p] + rest == [p];
    }
  }

  /** Splitting loses nothing: joining the pieces with commas gives the
      string back. */
  lemma {:induction false} JoinSplit(s: string)
    ensures Join(Split(s)) == s
  {
    if s != [] {
      var rest := Split(s[1..]);
      JoinSplit(s[1..]);
      if s[0] == ',' {
        assert ([""] + rest)[1..] == rest;
        assert s == [','] + s[1..];
      } else {
        JoinConsHead(s[0], rest[0], rest[1..]);
        assert rest == [rest[0]] + rest[1..];
        assert s == [s[0]] + s[1..];
      }
    }
  }

  /** A character other than a comma joins the first piece. */
  lemma SplitCons(c: char, u: string)
    requires c != ','
    ensures Split([c] + u) == [[c] + Split(u)[0]] + Split(u)[1..]
  {
    assert ([c] + u)[1..] == u;
  }

  /** A comma-free prefix is glued to the first piece of what follows. */
  lemma {:induction false} SplitPrefix(p: string, t: string)
    requires ',' !in p
    ensures Split(p + t) == [p + Split(t)[0]] + Split(t)[1..]
  {
    var tail := Split(t);
    if p == [] {
      assert p + t == t;
      assert p + tail[0] == tail[0];
      assert [tail[0]] + tail[1..] == tail;
    } else {
      var q := p[1..];
      SplitPrefix(q, t);
      var rest := Split(q + t);
      assert rest[0] == q + tail[0] && rest[1..] == tail[1..];
      assert p + t == [p[0]] + (q + t);
      SplitCons(p[0], q + t);
      assert [p[0]] + (q + tail[0]) == p + tail[0];
    }
  }

  /** Joining comma-free pieces and splitting again gives the pieces back:
      the split neither trims nor drops empty pieces. */
  lemma {:induction false} SplitJoin(pieces: seq<string>)
    requires |pieces| >= 1
    requires forall i :: 0 <= i < |pieces| ==> ',' !in pieces[i]
    ensures Split(Join(pieces)) == pieces
  {
    if |pieces| == 1 {
      SplitPrefix(pieces[0], "");
      assert pieces[0] + "" == pieces[0];
    } else {
      var tail := Join(pieces[1..]);
      SplitJoin(pieces[1..]);
      assert Split("," + tail) == [""] + Split(tail) by {
        assert ("," + tail)[1..] == tail;
      }
      assert pieces[0] + "," + tail == pieces[0] + ("," + tail);
      SplitPrefix(pieces[0], "," + tail);
      assert pieces[0] + "" == pieces[0];
      assert pieces == [pieces[0]] + pieces[1..];
    }
  }

  /** `"all"` expands to the five default steps; `test_regression_model`
      is not among them. */
  lemma AllSelectsDefaultSteps(stepsPar: Value)
    requires stepsPar == Text("all")
    ensures ActiveSteps(stepsPar) == Ok(DefaultSteps)
    ensures Selected(ActiveSteps(stepsPar).value) == [Download, BasicCleaning, DataCheck, DataSplit, TrainRandomForest]
    ensures TestRegressionModel !in Selected(ActiveSteps(stepsPar).value)
  {
    var active := ActiveSteps(stepsPar).value;
    var steps := [Download, BasicCleaning, DataCheck, DataSplit, TrainRandomForest];
    forall s ensures s in steps <==> Name(s) in active {
      match s
      case Download =>
      case BasicCleaning =>
      case DataCheck =>
      case DataSplit =>
      case TrainRandomForest =>
      case TestRegressionModel =>
    }
    SelectedCharacterised(active, steps);
  }

  /** `"all"` is special only on its own: inside a list it is one more
      piece. */
  lemma AllInsideListIsSplit()
    ensures ActiveSteps(Text("all,download")) == Ok(["all", "download"])
  {
    assert Join(["all", "download"]) == "all,download";
    SplitJoin(["all", "download"]);
  }

  /** A piece `"all"` matches no step. */
  lemma AllInsideListIsJustAName()
    ensures Selected(["all", "download"]) == [Download]
  {
    forall s ensures s in [Download] <==> Name(s) in ["all", "download"] {
      match s
      case Download =>
      case BasicCleaning =>
      case DataCheck =>
      case DataSplit =>
      case TrainRandomForest =>
      case TestRegressionModel =>
    }
    SelectedCharacterised(["all", "download"], [Download]);
  }

  /** Pieces are not trimmed. */
  lemma PiecesAreNotTrimmed()
    ensures ActiveSteps(Text(" data_split")) == Ok([" data_split"])
  {
    assert Join([" data_split"]) == " data_split";
    SplitJoin([" data_split"]);
  }

  /** A name with a leading space matches nothing. */
  lemma UntrimmedNameMatchesNothing()
    ensures Selected([" data_split"]) == []
  {
    forall s ensures Name(s) !in [" data_split"] {
      match s
      case Download =>
      case BasicCleaning =>
      case DataCheck =>
      case DataSplit =>
      case TrainRandomForest =>
      case TestRegressionModel =>
    }
    SelectedCharacterised([" data_split"], []);
  }

  /** A list of two names. */
  lemma TwoNamesSplit()
    ensures ActiveSteps(Text("data_split,basic_cleaning")) == Ok(["data_split", "basic_cleaning"])
  {
    assert Join(["data_split", "basic_cleaning"]) == "data_split,basic_cleaning";
    SplitJoin(["data_split", "basic_cleaning"]);
  }

  /** The order of the names in the step list does not matter. */
  lemma NameOrderIgnored()
    ensures Selected(["data_split", "basic_cleaning"]) == [BasicCleaning, DataSplit]
  {
    forall s ensures s in [BasicCleaning, DataSplit] <==> Name(s) in ["data_split", "basic_cleaning"] {
      match s
      case Download =>
      case BasicCleaning =>
      case DataCheck =>
      case DataSplit =>
      case TrainRandomForest =>
      case TestRegressionModel =>
    }
    SelectedCharacterised(["data_split", "basic_cleaning"], [BasicCleaning, DataSplit]);
  }

  // ---------------------------------------------------------------------
  // Which steps run, and in what order
  // ---------------------------------------------------------------------

  /** The steps a chain selects are those of the chain whose name is
      active. */
  lemma {:induction false} SelectFromMembers(order: seq<Step>, active: seq<string>, s: Step)
    ensures s in SelectFrom(order, active) <==> s in order && Name(s) in active
  {
    if order != [] {
      SelectFromMembers(order[1..], active, s);
      assert order == [order[0]] + order[1..];
    }
  }

  lemma SelectFromAll(order: seq<Step>, active: seq<string>)
    ensures forall s :: s in SelectFrom(order, active) <==> s in order && Name(s) in active
  {
    forall s ensures s in SelectFrom(order, active) <==> s in order && Name(s) in active {
      SelectFromMembers(order, active, s);
    }
  }

  /** The chain tests every step. */
  lemma ChainHoldsEveryStep()
    ensures forall s :: s in DispatchOrder
  {
    forall s ensures s in DispatchOrder {
      assert DispatchOrder[Rank(s)] == s;
    }
  }

  /** Strictly increasing dispatch rank: chain order, and no step twice. */
  predicate InChainOrder(steps: seq<Step>)
  {
    forall i, j :: 0 <= i < j < |steps| ==> Rank(steps[i]) < Rank(steps[j])
  }

  lemma {:induction false} SelectFromOrdered(order: seq<Step>, active: seq<string>)
    requires InChainOrder(order)
    ensures InChainOrder(SelectFrom(order, active))
  {
    if order != [] {
      var rest := SelectFrom(order[1..], active);
      assert InChainOrder(order[1..]) by {
        forall i, j | 0 <= i < j < |order[1..]|
          ensures Rank(order[1..][i]) < Rank(order[1..][j])
        {
          assert order[1..][i] == order[i + 1] && order[1..][j] == order[j + 1];
        }
      }
      SelectFromOrdered(order[1..], active);
      if Name(order[0]) in active {
        var r := [order[0]] + rest;
        forall i, j | 0 <= i < j < |r| ensures Rank(r[i]) < Rank(r[j]) {
          if i == 0 {
            SelectFromMembers(order[1..], active, r[j]);
            var k :| 0 <= k < |order[1..]| && order[1..][k] == r[j];
            assert order[k + 1] == r[j];
          } else {
            assert r[i] == rest[i - 1] && r[j] == rest[j - 1];
          }
        }
      }
    }
  }

  /** Two step lists in chain order with the same steps are the same list. */
  lemma {:induction false} InChainOrderUnique(xs: seq<Step>, ys: seq<Step>)
    requires InChainOrder(xs) && InChainOrder(ys)
    requires forall s :: s in xs <==> s in ys
    ensures xs == ys
    decreases |xs|
  {
    if xs == [] {
      assert forall k :: 0 <= k < |ys| ==> ys[k] in ys;
    } else {
      assert xs[0] in xs;
      assert xs[0] in ys;
      assert ys[0] in xs;
      assert xs[0] == ys[0] by {
        var k :| 0 <= k < |ys| && ys[k] == xs[0];
        var m :| 0 <= m < |xs| && xs[m] == ys[0];
        assert Rank(ys[0]) <= Rank(ys[k]);
        assert Rank(xs[0]) <= Rank(xs[m]);
      }
      forall s ensures s in xs[1..] <==> s in ys[1..] {
        InChainOrderTail(xs, s);
        InChainOrderTail(ys, s);
      }
      InChainOrderUnique(xs[1..], ys[1..]);
      assert xs == [xs[0]] + xs[1..];
      assert ys == [ys[0]] + ys[1..];
    }
  }

  lemma InChainOrderTail(xs: seq<Step>, s: Step)
    requires xs != [] && InChainOrder(xs)
    ensures InChainOrder(xs[1..])
    ensures s in xs[1..] <==> s in xs && s != xs[0]
  {
    assert xs == [xs[0]] + xs[1..];
    if s in xs[1..] {
      var k :| 0 <= k < |xs[1..]| && xs[1..][k] == s;
      assert xs[k + 1] == s;
    }
    forall i, j | 0 <= i < j < |xs[1..]| ensures Rank(xs[1..][i]) < Rank(xs[1..][j]) {
      assert xs[1..][i] == xs[i + 1] && xs[1..][j] == xs[j + 1];
    }
  }

  /** The chain is characterised by what it selects: the invoked steps are
      the only list in chain order that holds exactly the steps whose name is
      active. */
  lemma SelectedCharacterised(active: seq<string>, steps: seq<Step>)
    requires InChainOrder(steps)
    requires forall s :: s in steps <==> Name(s) in active
    ensures steps == Selected(active)
  {
    InChainOrderUnique(steps, Selected(active));
  }

  /** Only the set of step names matters: repeated names and names of no
      step change nothing. */
  lemma {:induction false} SelectFromNamesOnly(order: seq<Step>, a: seq<string>, b: seq<string>)
    requires forall s :: Name(s) in a <==> Name(s) in b
    ensures SelectFrom(order, a) == SelectFrom(order, b)
  {
    if order != [] {
      SelectFromNamesOnly(order[1..], a, b);
      assert Pick(order[0], a) == Pick(order[0], b);
    }
  }

  lemma ExtraNamesIgnored(active: seq<string>, extra: seq<string>)
    requires forall n :: n in extra ==> n in active || forall s :: Name(s) != n
    ensures Selected(active + extra) == Selected(active)
  {
    forall s ensures Name(s) in active + extra <==> Name(s) in active {
    }
    SelectFromNamesOnly(DispatchOrder, active + extra, active);
  }

  // ---------------------------------------------------------------------
  // What a run of `go` does
  // ---------------------------------------------------------------------

  /** Running steps with the builder of `go`: each invocation made is the
      one its step builds, tagged with that step. */
  lemma ExecuteBuilds(cfg: Config, rfConfig: string, steps: seq<Step>)
    ensures var r := Execute(Builds(cfg, rfConfig), steps);
      && |r.invoked| <= |steps|
      && (forall i :: 0 <= i < |r.invoked| ==>
            r.invoked[i].step == steps[i] && BuildInvocation(cfg, steps[i], rfConfig) == Ok(r.invoked[i]))
      && (r.failure.None? <==> |r.invoked| == |steps|)
      && (r.failure.Some? ==> BuildInvocation(cfg, steps[|r.invoked|], rfConfig) == Err(r.failure.value))
  {
    var build := Builds(cfg, rfConfig);
    ExecuteShape(build, steps);
    var r := Execute(build, steps);
    forall i | 0 <= i < |r.invoked| ensures r.invoked[i].step == steps[i] {
      assert build(steps[i]) == Ok(r.invoked[i]);
    }
  }

  /** No step is invoked twice, and the invocations come in the order of
      the chain, whatever the order of the names in `main.steps`. */
  lemma PlanInvokesEachStepOnce(cfg: Config, rfConfig: string)
    ensures var r := Plan(cfg, rfConfig);
      forall i, j :: 0 <= i < j < |r.invoked| ==>
        Rank(r.invoked[i].step) < Rank(r.invoked[j].step) && r.invoked[i].step != r.invoked[j].step
  {
    var r := Plan(cfg, rfConfig);
    if Header(cfg).Ok? {
      var sel := Selected(Header(cfg).value);
      forall i, j | 0 <= i < j < |r.invoked|
        ensures Rank(r.invoked[i].step) < Rank(r.invoked[j].step)
      {
        assert r.invoked[i].step == sel[i] && r.invoked[j].step == sel[j];
      }
    }
  }

  /** Every step invoked is in the active list: an entry of `_steps` when
      `main.steps` is `"all"`, otherwise a piece of `main.steps`. In
      particular `test_regression_model` is invoked only when `main.steps`
      is not `"all"` and one of its comma-separated pieces is exactly that
      name. */
  lemma PlanInvokesOnlyNamedSteps(cfg: Config, rfConfig: string)
    ensures var r := Plan(cfg, rfConfig);
      forall i :: 0 <= i < |r.invoked| ==>
        && Header(cfg).Ok?
        && Name(r.invoked[i].step) in Header(cfg).value
        && (r.invoked[i].step == TestRegressionModel ==>
              && cfg["main"]["steps"] != Text("all")
              && "test_regression_model" in Split(cfg["main"]["steps"].s))
  {
    var r := Plan(cfg, rfConfig);
    if Header(cfg).Ok? {
      var stepsPar := cfg["main"]["steps"];
      var sel := Selected(Header(cfg).value);
      TestRegressionOnlyWhenNamed(stepsPar);
      forall i | 0 <= i < |r.invoked|
        ensures Name(r.invoked[i].step) in Header(cfg).value
      {
        assert r.invoked[i].step == sel[i] && sel[i] in sel;
      }
    }
  }

  /** The expansion of `"all"` never selects `test_regression_model`. */
  lemma AllNeverSelectsTestRegression(stepsPar: Value)
    ensures stepsPar == Text("all") ==> TestRegressionModel !in Selected(ActiveSteps(stepsPar).value)
  {
    if stepsPar == Text("all") {
      AllSelectsDefaultSteps(stepsPar);
    }
  }

  /** `test_regression_model` is selected only when named explicitly in a
      step list other than `"all"`. */
  lemma TestRegressionOnlyWhenNamed(stepsPar: Value)
    ensures ActiveSteps(stepsPar).Ok? && TestRegressionModel in Selected(ActiveSteps(stepsPar).value) ==>
      && stepsPar != Text("all")
      && "test_regression_model" in ActiveSteps(stepsPar).value
  {
    AllNeverSelectsTestRegression(stepsPar);
    if ActiveSteps(stepsPar).Ok? {
      TestRegressionSelectedByName(ActiveSteps(stepsPar).value);
    }
  }

  /** `test_regression_model` is selected only when its name is a piece of
      the step list (stated apart so that the list stays symbolic). */
  lemma TestRegressionSelectedByName(active: seq<string>)
    ensures TestRegressionModel in Selected(active) ==> "test_regression_model" in active
  {
  }

  /** A cleaning group without `min_price` does not stop the driver from
      building the `basic_cleaning` parameters: only the `data_check`
      parameters cannot be built, on the missing bound. */
  lemma MissingMinPriceStillInvokesCleaning(cfg: Config)
    requires "cleaning" in cfg && "min_price" !in cfg["cleaning"]
    requires "data_check" in cfg
    ensures BasicCleaningCall(cfg) == Ok(Invocation(BasicCleaning, Local("src/basic_cleaning"), cfg["cleaning"]))
    ensures DataCheckCall(cfg) == Err(KeyError(["cleaning", "min_price"]))
  {
  }
}
