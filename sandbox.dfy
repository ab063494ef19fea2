/**
 * The deterministic skeleton of `complete_python_task`: dataset loading and
 * naming, the relationship metadata, the "Available datasets" hint, the merge
 * of the executed code's bindings into the process-wide `persistent_vars`,
 * the directory diff that finds new figure files, and the failure text.
 * `pd.read_csv`, `exec` and the figure-saving code are the oracles of `Env`.
 */
module Sandbox {
  import opened Wrappers
  import opened Text
  import opened Dicts
  import opened Schema
  import opened FriendlyErrors

  /** The binding name of the `k`-th loaded dataset, `f"dataset_{k}"`. */
  function DatasetName(k: nat): string {
    "dataset_" + NatToString(k)
  }

  lemma DatasetNamesDistinct(i: nat, j: nat)
    requires i != j
    ensures DatasetName(i) != DatasetName(j)
  {
    NatToStringInjective(i, j);
    ConcatCancelLeft("dataset_", NatToString(i), NatToString(j));
  }

  /** Where the first manifest entry that fails to load stands, if one does. */
  function FirstLoadFailure(inputData: seq<InputData>, readCsv: string -> LoadOutcome): (r: Option<nat>)
    ensures r.None? <==> forall k :: 0 <= k < |inputData| ==> readCsv(inputData[k].dataPath).Loaded?
    ensures r.Some? ==> r.value < |inputData| && readCsv(inputData[r.value].dataPath).LoadError?
    ensures r.Some? ==> forall k :: 0 <= k < r.value ==> readCsv(inputData[k].dataPath).Loaded?
  {
    if inputData == [] then None
    else if readCsv(inputData[0].dataPath).LoadError? then Some(0)
    else match FirstLoadFailure(inputData[1..], readCsv)
      case None => None
      case Some(i) => Some(i + 1)
  }

  /** The store after binding each loaded dataset under its name, in order. */
  function LoadedVars(current: Dict<Value>, datasets: seq<LoadedDataset>): Dict<Value> {
    if datasets == [] then current
    else
      var last := datasets[|datasets| - 1];
      Set(LoadedVars(current, datasets[..|datasets| - 1]), last.name, Frame(last.table))
  }

  /** `key` is the name of one of the first `n` datasets. */
  predicate IsDatasetName(key: string, n: nat) {
    exists k :: 0 <= k < n && key == DatasetName(k)
  }

  /** Every loaded dataset is bound under `dataset_k`; every other name keeps its binding. */
  lemma {:induction false} LoadedVarsBindsDatasets(current: Dict<Value>, datasets: seq<LoadedDataset>, key: string)
    requires forall k :: 0 <= k < |datasets| ==> datasets[k].name == DatasetName(k)
    ensures forall k :: 0 <= k < |datasets| ==> Get(LoadedVars(current, datasets), DatasetName(k)) == Some(Frame(datasets[k].table))
    ensures !IsDatasetName(key, |datasets|) ==> Get(LoadedVars(current, datasets), key) == Get(current, key)
  {
    if datasets != [] {
      var n := |datasets| - 1;
      var front := datasets[..n];
      LoadedVarsBindsDatasets(current, front, key);
      forall k | 0 <= k < |datasets|
        ensures Get(LoadedVars(current, datasets), DatasetName(k)) == Some(Frame(datasets[k].table))
      {
        SetGet(LoadedVars(current, front), DatasetName(n), Frame(datasets[n].table), DatasetName(k));
        if k < n {
          DatasetNamesDistinct(k, n);
        }
      }
      SetGet(LoadedVars(current, front), DatasetName(n), Frame(datasets[n].table), key);
      if !IsDatasetName(key, |datasets|) {
        assert key != DatasetName(n);
        assert !IsDatasetName(key, n);
      }
    }
  }

  /** `datasets` are the first manifest entries, each read successfully and named by its position. */
  predicate LoadedUpTo(inputData: seq<InputData>, readCsv: string -> LoadOutcome, datasets: seq<LoadedDataset>) {
    && |datasets| <= |inputData|
    && forall k :: 0 <= k < |datasets| ==>
         && readCsv(inputData[k].dataPath).Loaded?
         && datasets[k] == LoadedDataset(DatasetName(k), readCsv(inputData[k].dataPath).table)
  }

  lemma LoadedUpToStep(inputData: seq<InputData>, readCsv: string -> LoadOutcome, datasets: seq<LoadedDataset>)
    requires LoadedUpTo(inputData, readCsv, datasets) && |datasets| < |inputData|
    requires readCsv(inputData[|datasets|].dataPath).Loaded?
    ensures LoadedUpTo(inputData, readCsv,
              datasets + [LoadedDataset(DatasetName(|datasets|), readCsv(inputData[|datasets|].dataPath).table)])
  {
  }

  /** The loading loop: every manifest entry is read in order, and the first failure stops the loop. */
  method LoadDatasets(inputData: seq<InputData>, current: Dict<Value>, readCsv: string -> LoadOutcome)
    returns (datasets: seq<LoadedDataset>, vars: Dict<Value>, failed: Option<(string, string)>)
    ensures failed.None? <==> FirstLoadFailure(inputData, readCsv).None?
    ensures failed.None? ==> |datasets| == |inputData|
    ensures failed.Some? ==>
      var i := FirstLoadFailure(inputData, readCsv).value;
      var path := inputData[i].dataPath;
      |datasets| == i && failed.value == (path, readCsv(path).error)
    ensures |datasets| <= |inputData|
    ensures forall k :: 0 <= k < |datasets| ==>
      datasets[k] == LoadedDataset(DatasetName(k), readCsv(inputData[k].dataPath).table)
    ensures vars == LoadedVars(current, datasets)
  {
    datasets, vars, failed := [], current, None;
    var i := 0;
    while i < |inputData|
      invariant i == |datasets|
      invariant LoadedUpTo(inputData, readCsv, datasets)
      invariant vars == LoadedVars(current, datasets)
    {
      var path := inputData[i].dataPath;
      var outcome := readCsv(path);
      if outcome.LoadError? {
        failed := Some((path, outcome.error));
        FirstFailureAt(inputData, readCsv, i);
        return;
      }
      var name := DatasetName(|datasets|);
      vars := Set(vars, name, Frame(outcome.table));
      LoadedVarsSnoc(current, datasets, LoadedDataset(name, outcome.table));
      LoadedUpToStep(inputData, readCsv, datasets);
      datasets := datasets + [LoadedDataset(name, outcome.table)];
      i := i + 1;
    }
  }

  lemma LoadedVarsSnoc(current: Dict<Value>, datasets: seq<LoadedDataset>, d: LoadedDataset)
    ensures LoadedVars(current, datasets + [d]) == Set(LoadedVars(current, datasets), d.name, Frame(d.table))
  {
    assert (datasets + [d])[..|datasets|] == datasets;
  }

  lemma {:induction false} FirstFailureAt(inputData: seq<InputData>, readCsv: string -> LoadOutcome, i: nat)
    requires i < |inputData| && readCsv(inputData[i].dataPath).LoadError?
    requires forall k :: 0 <= k < i ==> readCsv(inputData[k].dataPath).Loaded?
    ensures FirstLoadFailure(inputData, readCsv) == Some(i)
  {
    if i > 0 {
      FirstFailureAt(inputData[1..], readCsv, i - 1);
    }
  }

  /** `"<dataset name>.<column name>"`, the name a column is recorded under. */
  function QualifiedName(ds: LoadedDataset, col: Column): string {
    ds.name + "." + col.name
  }

  /** The dtype text names a numeric type: it contains "float" or "int". */
  predicate IsNumericDtype(dtype: string) {
    Contains(dtype, "float") || Contains(dtype, "int")
  }

  /** The dtype text names a date-like type: it contains "datetime" or "date". */
  predicate IsDateDtype(dtype: string) {
    Contains(dtype, "datetime") || Contains(dtype, "date")
  }

  /** The qualified names of the columns of `cols` whose dtype passes `pick`, in column order. */
  function PickedColumns(ds: LoadedDataset, cols: seq<Column>, pick: string -> bool): seq<string> {
    if cols == [] then []
    else
      var last := cols[|cols| - 1];
      PickedColumns(ds, cols[..|cols| - 1], pick) + (if pick(last.dtype) then [QualifiedName(ds, last)] else [])
  }

  /** The qualified names of the picked columns of every dataset, in dataset order and then column order. */
  function ColumnRefs(datasets: seq<LoadedDataset>, pick: string -> bool): seq<string> {
    if datasets == [] then []
    else
      var last := datasets[|datasets| - 1];
      ColumnRefs(datasets[..|datasets| - 1], pick) + PickedColumns(last, last.table.columns, pick)
  }

  /** `x` is the qualified name of a column of `cols` whose dtype passes `pick`. */
  predicate IsPickedColumn(ds: LoadedDataset, cols: seq<Column>, pick: string -> bool, x: string) {
    exists j :: 0 <= j < |cols| && pick(cols[j].dtype) && x == QualifiedName(ds, cols[j])
  }

  lemma {:induction false} PickedColumnsMembership(ds: LoadedDataset, cols: seq<Column>, pick: string -> bool, x: string)
    ensures x in PickedColumns(ds, cols, pick) <==> IsPickedColumn(ds, cols, pick, x)
  {
    if cols != [] {
      var n := |cols| - 1;
      PickedColumnsMembership(ds, cols[..n], pick, x);
      if x in PickedColumns(ds, cols[..n], pick) {
        var j :| 0 <= j < n && pick(cols[..n][j].dtype) && x == QualifiedName(ds, cols[..n][j]);
        assert cols[j] == cols[..n][j];
      }
      if IsPickedColumn(ds, cols, pick, x) {
        var j :| 0 <= j < |cols| && pick(cols[j].dtype) && x == QualifiedName(ds, cols[j]);
        if j < n {
          assert cols[..n][j] == cols[j];
        }
      }
    }
  }

  /** `x` is the qualified name of a picked column of one of `datasets`. */
  predicate IsRecordedColumn(datasets: seq<LoadedDataset>, pick: string -> bool, x: string) {
    exists i :: 0 <= i < |datasets| && IsPickedColumn(datasets[i], datasets[i].table.columns, pick, x)
  }

  lemma IsRecordedColumnSnoc(datasets: seq<LoadedDataset>, pick: string -> bool, x: string)
    requires datasets != []
    ensures var n := |datasets| - 1;
      IsRecordedColumn(datasets, pick, x) <==>
        IsRecordedColumn(datasets[..n], pick, x) || IsPickedColumn(datasets[n], datasets[n].table.columns, pick, x)
  {
    var n := |datasets| - 1;
    if IsRecordedColumn(datasets[..n], pick, x) {
      var i :| 0 <= i < n && IsPickedColumn(datasets[..n][i], datasets[..n][i].table.columns, pick, x);
      assert datasets[..n][i] == datasets[i];
    }
    if IsRecordedColumn(datasets, pick, x) {
      var i :| 0 <= i < |datasets| && IsPickedColumn(datasets[i], datasets[i].table.columns, pick, x);
      if i < n {
        assert datasets[..n][i] == datasets[i];
      }
    }
  }

  /** A name is recorded exactly when it is the qualified name of a picked column of some dataset. */
  lemma {:induction false} ColumnRefsMembership(datasets: seq<LoadedDataset>, pick: string -> bool, x: string)
    ensures x in ColumnRefs(datasets, pick) <==> IsRecordedColumn(datasets, pick, x)
  {
    if datasets != [] {
      var n := |datasets| - 1;
      ColumnRefsMembership(datasets[..n], pick, x);
      PickedColumnsMembership(datasets[n], datasets[n].table.columns, pick, x);
      IsRecordedColumnSnoc(datasets, pick, x);
    }
  }

  /** The inner grouping loop over the columns of one dataset. */
  method GroupDatasetColumns(ds: LoadedDataset) returns (numeric: seq<string>, date: seq<string>)
    ensures numeric == PickedColumns(ds, ds.table.columns, IsNumericDtype)
    ensures date == PickedColumns(ds, ds.table.columns, IsDateDtype)
  {
    var cols := ds.table.columns;
    numeric, date := [], [];
    var j := 0;
    while j < |cols|
      invariant 0 <= j <= |cols|
      invariant numeric == PickedColumns(ds, cols[..j], IsNumericDtype)
      invariant date == PickedColumns(ds, cols[..j], IsDateDtype)
    {
      var col := cols[j];
      assert cols[..j + 1][..j] == cols[..j];
      if IsNumericDtype(col.dtype) {
        numeric := numeric + [QualifiedName(ds, col)];
      }
      if IsDateDtype(col.dtype) {
        date := date + [QualifiedName(ds, col)];
      }
      j := j + 1;
    }
    assert cols[..j] == cols;
  }

  /** The grouping loop: numeric and date-like columns of every dataset, as qualified names. */
  method GroupColumns(datasets: seq<LoadedDataset>) returns (numeric: seq<string>, date: seq<string>)
    ensures numeric == ColumnRefs(datasets, IsNumericDtype)
    ensures date == ColumnRefs(datasets, IsDateDtype)
  {
    numeric, date := [], [];
    var i := 0;
    while i < |datasets|
      invariant 0 <= i <= |datasets|
      invariant numeric == ColumnRefs(datasets[..i], IsNumericDtype)
      invariant date == ColumnRefs(datasets[..i], IsDateDtype)
    {
      var n, d := GroupDatasetColumns(datasets[i]);
      assert datasets[..i + 1][..i] == datasets[..i];
      numeric, date := numeric + n, date + d;
      i := i + 1;
    }
    assert datasets[..i] == datasets;
  }

  /** The `_metadata` binding is added only when more than one dataset is loaded. */
  function WithMetadata(vars: Dict<Value>, datasets: seq<LoadedDataset>): Dict<Value> {
    if |datasets| > 1 then
      Set(vars, "_metadata", Meta(Metadata(datasets, ColumnRefs(datasets, IsNumericDtype), ColumnRefs(datasets, IsDateDtype))))
    else vars
  }

  function NamesOf(datasets: seq<LoadedDataset>): (names: seq<string>)
    ensures |names| == |datasets|
    ensures forall k :: 0 <= k < |datasets| ==> names[k] == datasets[k].name
  {
    seq(|datasets|, k requires 0 <= k < |datasets| => datasets[k].name)
  }

  const DatasetHintPrefix := "# Available datasets: "

  /** The code actually executed: the original code, preceded by a comment listing the dataset names when it mentions none. */
  function CodeWithDatasetHint(code: string, names: seq<string>): (r: string)
    ensures |code| <= |r| && r[|r| - |code|..] == code
    ensures r != code <==> !Contains(code, "dataset_") && |names| > 0
    ensures r != code ==> r == DatasetHintPrefix + Join(names, ", ") + "\n" + code
    ensures r != code ==> forall k :: 0 <= k < |names| ==> Contains(r, names[k])
  {
    if !Contains(code, "dataset_") && |names| > 0 then
      var hint := DatasetHintPrefix + Join(names, ", ") + "\n";
      assert (hint + code)[|hint|..] == code;
      forall k | 0 <= k < |names| ensures Contains(hint + code, names[k]) {
        JoinContainsParts(names, ", ", k);
        ContainsInConcat(DatasetHintPrefix, Join(names, ", "), names[k]);
        assert hint == DatasetHintPrefix + Join(names, ", ") + "\n";
        ContainsInLeft(DatasetHintPrefix + Join(names, ", "), "\n", names[k]);
        ContainsInLeft(hint, code, names[k]);
      }
      hint + code
    else code
  }

  /** The globals the code runs with: the module's globals, then the persisted variables, then the state's variables, then an empty figure list. */
  function ExecGlobals(moduleGlobals: Dict<Value>, persistent: Dict<Value>, vars: Dict<Value>): Dict<Value> {
    Update(Update(Update(moduleGlobals, persistent), vars), [("plotly_figures", Figures([]))])
  }

  /** The code starts with an empty figure list, and every persisted or state variable is visible to it, the state's winning on a clash. */
  lemma ExecGlobalsVisible(moduleGlobals: Dict<Value>, persistent: Dict<Value>, vars: Dict<Value>, key: string)
    requires key != "plotly_figures"
    ensures Get(ExecGlobals(moduleGlobals, persistent, vars), "plotly_figures") == Some(Figures([]))
    ensures HasKey(vars, key) ==> Get(ExecGlobals(moduleGlobals, persistent, vars), key) == Get(vars, key)
    ensures !HasKey(vars, key) && HasKey(persistent, key) ==>
      Get(ExecGlobals(moduleGlobals, persistent, vars), key) == Get(persistent, key)
  {
    var single: Dict<Value> := [("plotly_figures", Figures([]))];
    var g2 := Update(Update(moduleGlobals, persistent), vars);
    UpdateGet(g2, single, "plotly_figures");
    UpdateGet(g2, single, key);
    UpdateGet(Update(moduleGlobals, persistent), vars, key);
    UpdateGet(moduleGlobals, persistent, key);
    assert Keys(single) == ["plotly_figures"];
  }

  /** The bindings the code's globals hold that are not module globals: what is persisted. */
  function UserBindings(after: Dict<Value>, moduleGlobals: Dict<Value>): Dict<Value> {
    Filter(after, k => !HasKey(moduleGlobals, k))
  }

  /** `[file for file in after if file not in before]`. */
  function NewFiles(after: seq<string>, before: seq<string>): (r: seq<string>)
    ensures forall f :: f in r <==> f in after && f !in before
    ensures |r| <= |after|
  {
    if after == [] then []
    else
      var rest := NewFiles(after[1..], before);
      assert forall f :: f in after <==> f == after[0] || f in after[1..];
      if after[0] in before then rest else [after[0]] + rest
  }

  /** Python truthiness of the value bound to `plotly_figures`; a DataFrame's raises. */
  function Truthiness(v: Value): Result<bool> {
    match v
    case Frame(_) => Err("The truth value of a DataFrame is ambiguous. Use a.empty, a.bool(), a.item(), a.any() or a.all().")
    case Meta(_) => Ok(true)
    case Figures(fs) => Ok(|fs| > 0)
    case Opaque(_, t) => Ok(t)
  }

  /** The summary text of the failure path: the friendly message, a newline, then the suggestions one per line. */
  function FailureSummary(message: string, suggestions: seq<string>): (r: string)
    ensures message + "\n" <= r
    ensures suggestions == [] ==> r == message + "\n"
    ensures |suggestions| == 1 ==> r == message + "\n" + suggestions[0]
  {
    message + "\n" + Join(suggestions, "\n")
  }

  const SaveWarningPrefix := "\n⚠️ Warning: Could not save visualization: "

  function OnlyOutputs(outputs: seq<IntermediateOutput>): StateUpdate {
    NoUpdate.(intermediateOutputs := Some(outputs))
  }

  /**
   * What running `code` with `globals` does, from the persisted variables
   * `persistent0` and the figure listing `files0` to `persistent` and
   * `files`, with the returned summary and update.
   */
  predicate RunResult(code: string, globals: Dict<Value>, thought: string, env: Env, moduleGlobals: Dict<Value>,
                      persistent0: Dict<Value>, files0: seq<string>,
                      persistent: Dict<Value>, files: seq<string>, summary: string, update: StateUpdate)
  {
    match env.exec(code, globals)
    case Raised(error, traceback) =>
      // the failure path: the friendly message and the suggestions, nothing persisted
      && summary == FailureSummary(FriendlyError(error, code), Suggestions(error))
      && update == OnlyOutputs([CodeFailed(thought, code, FriendlyError(error, code), traceback, Suggestions(error))])
      && persistent == persistent0 && files == files0
    case Ran(stdout, after) =>
      var merged := Update(persistent0, UserBindings(after, moduleGlobals));
      var figures := Get(after, "plotly_figures");
      var truthy := if figures.Some? then Truthiness(figures.value) else Ok(false);
      if truthy.Err? then
        // the truth test of the figure list raised: the failure path, after the merge
        && summary == FailureSummary(FriendlyError(truthy.error, code), Suggestions(truthy.error))
        && update == OnlyOutputs([CodeFailed(thought, code, FriendlyError(truthy.error, code), truthy.error, Suggestions(truthy.error))])
        && persistent == merged && files == files0
      else if !truthy.value then
        && summary == stdout
        && update == StateUpdate(None, Some([CodeRun(thought, code, stdout)]), Some(merged), None, None)
        && persistent == merged && files == files0
      else match env.saveFigures(figures.value, files0)
        case Saved(written) =>
          var newFiles := NewFiles(files0 + written, files0);
          && files == files0 + written
          && persistent == Set(merged, "plotly_figures", Figures([]))
          && summary == stdout
          && update == StateUpdate(None, Some([CodeRun(thought, code, stdout)]), Some(persistent),
                                   if |newFiles| > 0 then Some(newFiles) else None, None)
        case SaveRaised(error, written) =>
          && files == files0 + written
          && persistent == merged
          && summary == stdout + SaveWarningPrefix + error
          && update == StateUpdate(None, Some([CodeRun(thought, code, summary)]), Some(merged), None, None)
  }

  /**
   * Whatever the code does: one log entry, no message and no token report,
   * a figure listing that only grows, image paths only for files that were
   * not there before, and the variables returned only on success, as the
   * persisted store itself.
   */
  lemma RunResultShape(code: string, globals: Dict<Value>, thought: string, env: Env, moduleGlobals: Dict<Value>,
                       persistent0: Dict<Value>, files0: seq<string>,
                       persistent: Dict<Value>, files: seq<string>, summary: string, update: StateUpdate)
    requires RunResult(code, globals, thought, env, moduleGlobals, persistent0, files0, persistent, files, summary, update)
    ensures update.messages.None? && update.tokenUsage.None?
    ensures update.intermediateOutputs.Some? && |update.intermediateOutputs.value| == 1
    ensures files0 <= files
    ensures update.outputImagePaths.Some? ==>
      |update.outputImagePaths.value| > 0 &&
      forall f :: f in update.outputImagePaths.value ==> f in files && f !in files0
    ensures update.intermediateOutputs.value[0].CodeRun? <==> update.currentVariables == Some(persistent)
    ensures update.intermediateOutputs.value[0].CodeFailed? ==> update.currentVariables.None? && update.outputImagePaths.None?
  {
  }

  /**
   * After code that ran, every name the code bound that is not a module
   * global (and not `plotly_figures`, which is reset after saving) holds the
   * code's value; every other name keeps its persisted value.
   */
  lemma RunResultBindings(code: string, globals: Dict<Value>, thought: string, env: Env, moduleGlobals: Dict<Value>,
                          persistent0: Dict<Value>, files0: seq<string>,
                          persistent: Dict<Value>, files: seq<string>, summary: string, update: StateUpdate, k: string)
    requires RunResult(code, globals, thought, env, moduleGlobals, persistent0, files0, persistent, files, summary, update)
    requires env.exec(code, globals).Ran? && k != "plotly_figures" && !HasKey(moduleGlobals, k)
    ensures Get(persistent, k) == (if HasKey(env.exec(code, globals).globals, k) then Get(env.exec(code, globals).globals, k)
                                   else Get(persistent0, k))
  {
    var out := env.exec(code, globals);
    var user := UserBindings(out.globals, moduleGlobals);
    var merged := Update(persistent0, user);
    FilterGet(out.globals, k => !HasKey(moduleGlobals, k), k);
    UpdateGet(persistent0, user, k);
    SetGet(merged, "plotly_figures", Figures([]), k);
  }

  /**
   * The code sandbox. `persistentVars` is the module-level `persistent_vars`
   * dict, shared by every call in the process; `imageFiles` is the listing of
   * the figure directory; `moduleGlobals` is what `globals()` holds in the
   * tools module.
   */
  class PythonSandbox {
    var persistentVars: Dict<Value>
    var imageFiles: seq<string>
    const moduleGlobals: Dict<Value>

    constructor (moduleGlobals: Dict<Value>, imageFiles: seq<string>)
      ensures this.moduleGlobals == moduleGlobals && this.imageFiles == imageFiles
      ensures persistentVars == []
    {
      this.moduleGlobals := moduleGlobals;
      this.imageFiles := imageFiles;
      persistentVars := [];
    }

    /** The `try` block of the sandbox: run the code, merge its bindings, save its figures. */
    method RunCode(code: string, globals: Dict<Value>, thought: string, env: Env)
      returns (summary: string, update: StateUpdate)
      modifies this
      ensures RunResult(code, globals, thought, env, moduleGlobals, old(persistentVars), old(imageFiles),
                        persistentVars, imageFiles, summary, update)
    {
      var outcome := env.exec(code, globals);
      if outcome.Raised? {
        var message := FriendlyError(outcome.error, code);
        var suggestions := Suggestions(outcome.error);
        summary := FailureSummary(message, suggestions);
        update := OnlyOutputs([CodeFailed(thought, code, message, outcome.traceback, suggestions)]);
        return;
      }
      var after := outcome.globals;
      var g := moduleGlobals;
      persistentVars := Update(persistentVars, UserBindings(after, g));
      var before := imageFiles;
      var output := outcome.stdout;
      var figures := Get(after, "plotly_figures");
      var truthy := if figures.Some? then Truthiness(figures.value) else Ok(false);
      if truthy.Err? {
        var message := FriendlyError(truthy.error, code);
        var suggestions := Suggestions(truthy.error);
        summary := FailureSummary(message, suggestions);
        update := OnlyOutputs([CodeFailed(thought, code, message, truthy.error, suggestions)]);
        return;
      }
      var images: Option<seq<string>> := None;
      if truthy.value {
        var saved := env.saveFigures(figures.value, imageFiles);
        imageFiles := imageFiles + saved.written;
        if saved.Saved? {
          var newFiles := NewFiles(imageFiles, before);
          if |newFiles| > 0 {
            images := Some(newFiles);
          }
          persistentVars := Set(persistentVars, "plotly_figures", Figures([]));
        } else {
          output := output + SaveWarningPrefix + saved.error;
        }
      }
      summary := output;
      update := StateUpdate(None, Some([CodeRun(thought, code, output)]), Some(persistentVars), images, None);
    }

    /**
     * `complete_python_task(graph_state, thought, python_code)`. Once a code
     * run has set the state's `current_variables`, that dict is
     * `persistent_vars` itself, so the loads write into the store.
     */
    method CompletePythonTask(state: GraphState, thought: string, pythonCode: string, env: Env)
      returns (summary: string, update: StateUpdate)
      modifies this
      ensures TaskResult(state, thought, pythonCode, env, moduleGlobals, old(persistentVars), old(imageFiles),
                         persistentVars, imageFiles, summary, update)
    {
      var current := LoadBase(state, persistentVars);
      var datasets, vars, failed := LoadDatasets(state.inputData, current, env.readCsv);
      if state.currentVariables.Some? {
        persistentVars := vars;
      }
      if failed.Some? {
        var (path, error) := failed.value;
        var message := FriendlyError(error, "");
        summary := "Error loading dataset: " + message;
        update := OnlyOutputs([LoadFailed("Failed to load dataset " + path, error, message)]);
        LoadedFirstIs(state.inputData, env.readCsv, datasets);
        return;
      }
      LoadedFirstIs(state.inputData, env.readCsv, datasets);
      if |datasets| > 1 {
        var numeric, date := GroupColumns(datasets);
        vars := Set(vars, "_metadata", Meta(Metadata(datasets, numeric, date)));
        if state.currentVariables.Some? {
          persistentVars := vars;
        }
      }
      var globals := ExecGlobals(moduleGlobals, persistentVars, vars);
      var code := CodeWithDatasetHint(pythonCode, NamesOf(datasets));
      summary, update := RunCode(code, globals, thought, env);
    }
  }

  /**
   * What `complete_python_task` does, from the store `persistent0` and the
   * figure listing `files0` to `persistent` and `files`: a load failure stops
   * everything before any code runs; otherwise the code, with the hint, runs
   * once with the planned globals from the store the loads left.
   */
  predicate TaskResult(state: GraphState, thought: string, pythonCode: string, env: Env, moduleGlobals: Dict<Value>,
                       persistent0: Dict<Value>, files0: seq<string>,
                       persistent: Dict<Value>, files: seq<string>, summary: string, update: StateUpdate)
  {
    match FirstLoadFailure(state.inputData, env.readCsv)
    case Some(i) =>
      var path := state.inputData[i].dataPath;
      var error := env.readCsv(path).error;
      && summary == "Error loading dataset: " + FriendlyError(error, "")
      && update == OnlyOutputs([LoadFailed("Failed to load dataset " + path, error, FriendlyError(error, ""))])
      && persistent == StoreAfterLoads(state, persistent0,
                                       LoadedVars(LoadBase(state, persistent0), LoadedFirst(state.inputData, env.readCsv, i)))
      && files == files0
    case None =>
      RunResult(PlannedCode(state, pythonCode, env), PlannedGlobals(state, env, moduleGlobals, persistent0),
                thought, env, moduleGlobals, PlannedStore(state, env, persistent0), files0,
                persistent, files, summary, update)
  }

  /** What the loads bind into: the state's variables, which once set are the store itself, or a fresh dict. */
  function LoadBase(state: GraphState, persistent: Dict<Value>): Dict<Value> {
    if state.currentVariables.Some? then persistent else []
  }

  /** The store after the loads: when the state's variables are the store, the loads' bindings are the store. */
  function StoreAfterLoads(state: GraphState, persistent: Dict<Value>, loaded: Dict<Value>): (r: Dict<Value>)
    ensures state.currentVariables.None? ==> r == persistent
  {
    if state.currentVariables.Some? then loaded else persistent
  }

  /** The first `n` manifest entries, each read successfully and named by its position. */
  function LoadedFirst(inputData: seq<InputData>, readCsv: string -> LoadOutcome, n: nat): (ds: seq<LoadedDataset>)
    requires n <= |inputData|
    requires forall k :: 0 <= k < n ==> readCsv(inputData[k].dataPath).Loaded?
    ensures |ds| == n
  {
    seq(n, k requires 0 <= k < n => LoadedDataset(DatasetName(k), readCsv(inputData[k].dataPath).table))
  }

  lemma LoadedFirstIs(inputData: seq<InputData>, readCsv: string -> LoadOutcome, ds: seq<LoadedDataset>)
    requires |ds| <= |inputData|
    requires forall k :: 0 <= k < |ds| ==>
      readCsv(inputData[k].dataPath).Loaded? && ds[k] == LoadedDataset(DatasetName(k), readCsv(inputData[k].dataPath).table)
    ensures ds == LoadedFirst(inputData, readCsv, |ds|)
  {
  }

  /** The datasets of a manifest that loads completely, named in order. */
  function LoadedDatasets(inputData: seq<InputData>, readCsv: string -> LoadOutcome): (ds: seq<LoadedDataset>)
    requires FirstLoadFailure(inputData, readCsv).None?
    ensures |ds| == |inputData|
  {
    LoadedFirst(inputData, readCsv, |inputData|)
  }

  /** The code the sandbox runs for a manifest that loads completely. */
  function PlannedCode(state: GraphState, pythonCode: string, env: Env): string
    requires FirstLoadFailure(state.inputData, env.readCsv).None?
  {
    CodeWithDatasetHint(pythonCode, NamesOf(LoadedDatasets(state.inputData, env.readCsv)))
  }

  /** The variables of a manifest that loads completely: the datasets, and `_metadata` when there are several. */
  function PlannedVars(state: GraphState, env: Env, persistent: Dict<Value>): Dict<Value>
    requires FirstLoadFailure(state.inputData, env.readCsv).None?
  {
    var datasets := LoadedDatasets(state.inputData, env.readCsv);
    WithMetadata(LoadedVars(LoadBase(state, persistent), datasets), datasets)
  }

  /** The store the code runs against for a manifest that loads completely. */
  function PlannedStore(state: GraphState, env: Env, persistent: Dict<Value>): Dict<Value>
    requires FirstLoadFailure(state.inputData, env.readCsv).None?
  {
    StoreAfterLoads(state, persistent, PlannedVars(state, env, persistent))
  }

  /** The globals the sandbox runs the code with for a manifest that loads completely. */
  function PlannedGlobals(state: GraphState, env: Env, moduleGlobals: Dict<Value>, persistent: Dict<Value>): Dict<Value>
    requires FirstLoadFailure(state.inputData, env.readCsv).None?
  {
    ExecGlobals(moduleGlobals, PlannedStore(state, env, persistent), PlannedVars(state, env, persistent))
  }
}
