/**
 * The training script (main_lanjutan.py): load the dataset, replace Amount
 * and Time by their standardised copies, split off the Class label, then
 * fit every configured model in order (grid search for the models that
 * have a parameter grid, a direct fit otherwise) and store each fitted
 * estimator under the file name derived from the model's name.
 *
 * The frame is modelled by its column labels; fitting and grid search are
 * parameters (oracles) returning an estimator of type E.
 */
module Trainer {
  import opened Wrappers
  import opened Artifacts
  import opened Columns

  /** The columns of creditcard.csv: Time, V1..V28, Amount, Class. */
  const CreditCardColumns: seq<Column> :=
    [Time] + seq(28, i requires 0 <= i < 28 => V(i + 1)) + [Amount, Class]

  /** The message printed when creditcard.csv is not found. */
  const DatasetMissingMessage: string := "\U{274C} ERROR: File 'creditcard.csv' tidak ditemukan."

  /** pandas' KeyError, naming the labels it could not find. */
  datatype KeyError = KeyError(missing: seq<Column>)

  /** The columns of `columns` that are not in `labels`, in their original order. */
  function Without(columns: seq<Column>, labels: seq<Column>): seq<Column>
  {
    if columns == [] then []
    else (if columns[0] in labels then [] else [columns[0]]) + Without(columns[1..], labels)
  }

  /** Exactly the columns not named in `labels` survive a drop. */
  lemma {:induction false} WithoutMembers(columns: seq<Column>, labels: seq<Column>)
    ensures forall c :: c in Without(columns, labels) <==> c in columns && c !in labels
  {
    if columns != [] {
      WithoutMembers(columns[1..], labels);
      assert columns == [columns[0]] + columns[1..];
    }
  }

  /** The labels of `labels` that `columns` lacks. */
  function Missing(columns: seq<Column>, labels: seq<Column>): (r: seq<Column>)
    ensures forall c :: c in r <==> c in labels && c !in columns
    ensures r == [] <==> forall c :: c in labels ==> c in columns
  {
    var r := Without(labels, columns);
    WithoutMembers(labels, columns);
    assert r != [] ==> r[0] in r;
    r
  }

  /** The columns after `data[c] = ...`: an existing column is overwritten in place, a new one is appended. */
  function Assigned(columns: seq<Column>, c: Column): (r: seq<Column>)
    ensures c in r && forall d :: d in columns ==> d in r
  {
    if c in columns then columns else columns + [c]
  }

  /** A DataFrame, as far as its column labels go. */
  class Frame {
    var columns: seq<Column>

    constructor (columns: seq<Column>)
      ensures this.columns == columns
    {
      this.columns := columns;
    }

    /** data[c] = <new values> */
    method Assign(c: Column)
      modifies this
      ensures columns == Assigned(old(columns), c)
    {
      if c !in columns {
        columns := columns + [c];
      }
    }

    /** data.drop(labels, axis=1): a new frame without those columns, or KeyError. */
    method Drop(labels: seq<Column>) returns (r: Result<Frame, KeyError>)
      ensures r.Err? <==> Missing(columns, labels) != []
      ensures r.Err? ==> r.error == KeyError(Missing(columns, labels))
      ensures r.Ok? ==> fresh(r.value) && r.value.columns == Without(columns, labels)
    {
      var missing := Missing(columns, labels);
      if missing != [] {
        return Err(KeyError(missing));
      }
      var dropped := new Frame(Without(columns, labels));
      return Ok(dropped);
    }
  }

  /** The feature columns the scaling and the two `drop` calls leave, or the KeyError they raise. */
  function PreparedColumns(columns: seq<Column>): Result<seq<Column>, KeyError>
  {
    if Amount !in columns then Err(KeyError([Amount]))
    else
      var withAmount := Assigned(columns, NormalizedAmount);
      if Time !in withAmount then Err(KeyError([Time]))
      else
        var scaled := Without(Assigned(withAmount, NormalizedTime), [Time, Amount]);
        if Class !in scaled then Err(KeyError([Class]))
        else Ok(Without(scaled, [Class]))
  }

  /**
   * The column preparation, step by step: add NormalizedAmount and
   * NormalizedTime, drop Time and Amount, then drop the Class label.
   */
  method PrepareFeatures(columns: seq<Column>) returns (r: Result<seq<Column>, KeyError>)
    ensures r == PreparedColumns(columns)
  {
    var data := new Frame(columns);
    if Amount !in data.columns {
      return Err(KeyError([Amount]));
    }
    data.Assign(NormalizedAmount);
    if Time !in data.columns {
      return Err(KeyError([Time]));
    }
    data.Assign(NormalizedTime);
    // Both labels are present by now, so this drop cannot raise.
    assert Missing(data.columns, [Time, Amount]) == [];
    var dropped := data.Drop([Time, Amount]);
    data := dropped.value;
    var features := data.Drop([Class]);
    if features.Err? {
      assert Without([Class], data.columns) == [Class];
      return Err(features.error);
    }
    return Ok(features.value.columns);
  }

  lemma {:induction false} WithoutAppend(a: seq<Column>, b: seq<Column>, labels: seq<Column>)
    ensures Without(a + b, labels) == Without(a, labels) + Without(b, labels)
  {
    if a == [] {
      assert a + b == b;
    } else {
      assert (a + b)[0] == a[0] && (a + b)[1..] == a[1..] + b;
      WithoutAppend(a[1..], b, labels);
    }
  }

  lemma {:induction false} WithoutUnrelated(a: seq<Column>, labels: seq<Column>)
    requires forall c :: c in a ==> c !in labels
    ensures Without(a, labels) == a
  {
    if a != [] {
      WithoutUnrelated(a[1..], labels);
    }
  }

  lemma {:induction false} WithoutTwice(a: seq<Column>, first: seq<Column>, second: seq<Column>)
    ensures Without(Without(a, first), second) == Without(a, first + second)
  {
    if a != [] {
      WithoutTwice(a[1..], first, second);
      assert a[0] in first + second <==> a[0] in first || a[0] in second;
      var once := Without(a, first);
      if a[0] in first {
        assert once == Without(a[1..], first);
      } else {
        assert once == [a[0]] + Without(a[1..], first);
        assert once[0] == a[0] && once[1..] == Without(a[1..], first);
      }
    }
  }

  /** Appending labels not to be dropped commutes with the drop. */
  lemma WithoutScaled(columns: seq<Column>, labels: seq<Column>)
    requires NormalizedAmount !in labels && NormalizedTime !in labels
    ensures Without(columns + [NormalizedAmount, NormalizedTime], labels)
      == Without(columns, labels) + [NormalizedAmount, NormalizedTime]
  {
    WithoutAppend(columns, [NormalizedAmount, NormalizedTime], labels);
    WithoutUnrelated([NormalizedAmount, NormalizedTime], labels);
  }

  /** Adding NormalizedAmount and NormalizedTime, then `drop(['Time', 'Amount'], axis=1)`, on a dataset with Amount and Time but no scaled columns yet. */
  lemma ScaledColumns(columns: seq<Column>)
    requires Amount in columns && Time in columns
    requires NormalizedAmount !in columns && NormalizedTime !in columns
    ensures Time in Assigned(columns, NormalizedAmount)
    ensures Without(Assigned(Assigned(columns, NormalizedAmount), NormalizedTime), [Time, Amount])
      == Without(columns, [Time, Amount]) + [NormalizedAmount, NormalizedTime]
  {
    var withAmount := Assigned(columns, NormalizedAmount);
    assert withAmount == columns + [NormalizedAmount];
    assert Assigned(withAmount, NormalizedTime) == columns + [NormalizedAmount, NormalizedTime];
    WithoutScaled(columns, [Time, Amount]);
  }

  /**
   * On a dataset without NormalizedAmount/NormalizedTime columns, the
   * preparation fails with a KeyError naming the first of Amount, Time,
   * Class that is missing; otherwise the features are the dataset's columns
   * minus Time, Amount and Class, in their order, followed by
   * NormalizedAmount and NormalizedTime.
   */
  lemma PreparedColumnsSpec(columns: seq<Column>)
    requires NormalizedAmount !in columns && NormalizedTime !in columns
    ensures PreparedColumns(columns) ==
      if Amount !in columns then Err(KeyError([Amount]))
      else if Time !in columns then Err(KeyError([Time]))
      else if Class !in columns then Err(KeyError([Class]))
      else Ok(Without(columns, [Time, Amount, Class]) + [NormalizedAmount, NormalizedTime])
  {
    if Amount in columns && Time in columns {
      var kept := Without(columns, [Time, Amount]);
      var scaled := Without(Assigned(Assigned(columns, NormalizedAmount), NormalizedTime), [Time, Amount]);
      assert scaled == kept + [NormalizedAmount, NormalizedTime] by {
        ScaledColumns(columns);
      }
      assert Class in scaled <==> Class in columns by {
        WithoutMembers(columns, [Time, Amount]);
      }
      if Class in columns {
        assert Without(scaled, [Class]) == Without(columns, [Time, Amount, Class]) + [NormalizedAmount, NormalizedTime] by {
          WithoutScaled(kept, [Class]);
          WithoutTwice(columns, [Time, Amount], [Class]);
          assert [Time, Amount] + [Class] == [Time, Amount, Class];
        }
      }
    }
  }

  /** A dataset of V columns framed by Time and Amount, Class prepares into its V columns and the two scaled ones. */
  lemma PreparedBetween(vs: seq<Column>)
    requires forall c :: c in vs ==> c.V?
    ensures PreparedColumns([Time] + vs + [Amount, Class]) == Ok(vs + [NormalizedAmount, NormalizedTime])
  {
    var columns := [Time] + vs + [Amount, Class];
    assert Amount in columns && Time in columns && Class in columns by {
      assert columns[0] == Time && columns[|vs| + 1] == Amount && columns[|vs| + 2] == Class;
    }
    assert NormalizedAmount !in columns && NormalizedTime !in columns by {
      assert forall c :: c in columns ==> c in [Time] || c in vs || c in [Amount, Class];
    }
    PreparedColumnsSpec(columns);
    WithoutFrame(vs);
  }

  /** Dropping Time, Amount and Class from the frame around the V columns leaves the V columns. */
  lemma WithoutFrame(vs: seq<Column>)
    requires forall c :: c in vs ==> c.V?
    ensures Without([Time] + vs + [Amount, Class], [Time, Amount, Class]) == vs
  {
    var dropped := [Time, Amount, Class];
    WithoutAppend([Time] + vs, [Amount, Class], dropped);
    WithoutAppend([Time], vs, dropped);
    WithoutUnrelated(vs, dropped);
    assert Without([Class], dropped) == [];
    assert Without([Amount, Class], dropped) == [];
    assert Without([Time], dropped) == [];
  }

  /** The dataset's columns prepare into V1..V28, NormalizedAmount, NormalizedTime. */
  lemma CreditCardFeatures()
    ensures PreparedColumns(CreditCardColumns) ==
      Ok(seq(28, i requires 0 <= i < 28 => V(i + 1)) + [NormalizedAmount, NormalizedTime])
  {
    PreparedBetween(seq(28, i requires 0 <= i < 28 => V(i + 1)));
  }

  // ---------------------------------------------------------------------
  // Comparison, tuning and storing of the models (`models`, `params` and the training loop)
  // ---------------------------------------------------------------------

  /** A value in a parameter grid. */
  datatype Param = IntParam(i: int) | RealParam(r: real)

  /** A parameter grid: each parameter's name with its candidate values, in insertion order. */
  type Grid = seq<(string, seq<Param>)>

  /** The models to compare, in the insertion order of the `models` dictionary. */
  const Models: seq<string> := ["Logistic Regression", "Random Forest", "XGBoost"]

  /** The `params` dictionary: a grid for the models worth tuning. */
  const Params: map<string, Grid> := map[
    "Random Forest" := [
      ("n_estimators", [IntParam(100), IntParam(150)]),
      ("max_depth", [IntParam(8), IntParam(12)])],
    "XGBoost" := [
      ("n_estimators", [IntParam(100), IntParam(150)]),
      ("max_depth", [IntParam(5), IntParam(7)]),
      ("learning_rate", [RealParam(0.1), RealParam(0.2)])]
  ]

  /** Cross-validation folds of the StratifiedKFold splitter. */
  const Folds: nat := 3

  /** The score grid search maximises. */
  const Scoring: string := "recall"

  /** GridSearchCV(model, grid, cv=skf, scoring=...). */
  datatype Search = Search(grid: Grid, folds: nat, scoring: string)

  /** How a model is trained. */
  datatype Training = FitDirectly | Tuned(search: Search)

  /** What one loop iteration does: the model, how it is trained, the estimator kept and the file it is dumped to. */
  datatype Run<E> = Run(name: string, training: Training, estimator: E, file: string)

  /** The branch `if name in params`: tune exactly the models that have a grid. */
  function Route(name: string, params: map<string, Grid>): (t: Training)
    ensures t.Tuned? <==> name in params
    ensures t.Tuned? ==> t.search == Search(params[name], Folds, Scoring)
  {
    if name in params then Tuned(Search(params[name], Folds, Scoring)) else FitDirectly
  }

  /**
   * One iteration of the loop. `fit(name)` is the model fitted on the
   * resampled training data; `search(name, s)` is the best estimator the
   * grid search `s` finds for it.
   */
  function RunFor<E>(name: string, params: map<string, Grid>,
                     fit: string -> E, search: (string, Search) -> E): (r: Run<E>)
    ensures r.name == name && r.file == ModelFilename(name) && r.training == Route(name, params)
    ensures r.estimator == if name in params then search(name, r.training.search) else fit(name)
  {
    var training := Route(name, params);
    var estimator := match training
      case FitDirectly => fit(name)
      case Tuned(s) => search(name, s);
    Run(name, training, estimator, ModelFilename(name))
  }

  /** All iterations, in the order the models were inserted. */
  function Plan<E>(models: seq<string>, params: map<string, Grid>,
                   fit: string -> E, search: (string, Search) -> E): (runs: seq<Run<E>>)
    ensures |runs| == |models|
    ensures forall i :: 0 <= i < |models| ==> runs[i] == RunFor(models[i], params, fit, search)
  {
    seq(|models|, i requires 0 <= i < |models| => RunFor(models[i], params, fit, search))
  }

  /** `best_models` after the given iterations. */
  function Best<E>(runs: seq<Run<E>>): map<string, E>
  {
    if runs == [] then map[] else Best(runs[..|runs| - 1])[runs[|runs| - 1].name := runs[|runs| - 1].estimator]
  }

  /** The files on disk after the given iterations dumped their estimators onto `disk`. */
  function Saved<E>(disk: map<string, E>, runs: seq<Run<E>>): map<string, E>
  {
    if runs == [] then disk else Saved(disk, runs[..|runs| - 1])[runs[|runs| - 1].file := runs[|runs| - 1].estimator]
  }

  /** Each model's name is a key of `best_models`, no other key is, and with distinct names each holds its own estimator. */
  lemma {:induction false} BestEntries<E>(runs: seq<Run<E>>)
    ensures Best(runs).Keys == set r | r in runs :: r.name
    ensures (forall i, j :: 0 <= i < j < |runs| ==> runs[i].name != runs[j].name) ==>
      forall i :: 0 <= i < |runs| ==> Best(runs)[runs[i].name] == runs[i].estimator
  {
    if runs != [] {
      var init := runs[..|runs| - 1];
      BestEntries(init);
      assert forall r :: r in runs <==> r in init || r == runs[|runs| - 1];
    }
  }

  /** The files on disk are the ones there before and every iteration's file. */
  lemma {:induction false} SavedKeys<E>(disk: map<string, E>, runs: seq<Run<E>>)
    ensures Saved(disk, runs).Keys == disk.Keys + (set r | r in runs :: r.file)
  {
    if runs != [] {
      var init, last := runs[..|runs| - 1], runs[|runs| - 1];
      SavedKeys(disk, init);
      assert forall r :: r in runs <==> r in init || r == last by {
        assert runs == init + [last];
      }
    }
  }

  /** A file no iteration writes keeps its content. */
  lemma {:induction false} SavedUntouched<E>(disk: map<string, E>, runs: seq<Run<E>>, f: string)
    requires f in disk && forall r :: r in runs ==> r.file != f
    ensures f in Saved(disk, runs) && Saved(disk, runs)[f] == disk[f]
  {
    if runs != [] {
      var init := runs[..|runs| - 1];
      assert runs[|runs| - 1] in runs;
      assert forall r :: r in init ==> r in runs;
      SavedUntouched(disk, init, f);
    }
  }

  /** With distinct file names, each iteration's file holds its own estimator. */
  lemma {:induction false} SavedOwn<E>(disk: map<string, E>, runs: seq<Run<E>>, i: nat)
    requires i < |runs|
    requires forall p, q :: 0 <= p < q < |runs| ==> runs[p].file != runs[q].file
    ensures runs[i].file in Saved(disk, runs) && Saved(disk, runs)[runs[i].file] == runs[i].estimator
  {
    if i < |runs| - 1 {
      var init := runs[..|runs| - 1];
      assert runs[i] == init[i] && runs[i].file != runs[|runs| - 1].file;
      SavedOwn(disk, init, i);
    }
  }

  /** One more model adds its own iteration at the end. */
  lemma PlanSnoc<E>(models: seq<string>, i: nat, params: map<string, Grid>,
                    fit: string -> E, search: (string, Search) -> E)
    requires i < |models|
    ensures Plan(models[..i + 1], params, fit, search)
      == Plan(models[..i], params, fit, search) + [RunFor(models[i], params, fit, search)]
  {
    assert models[..i + 1] == models[..i] + [models[i]];
  }

  /** The iteration the loop body performs is `RunFor`. */
  lemma RunForIs<E>(name: string, params: map<string, Grid>, fit: string -> E, search: (string, Search) -> E, estimator: E)
    requires estimator == if name in params then search(name, Search(params[name], Folds, Scoring)) else fit(name)
    ensures Run(name, Route(name, params), estimator, ModelFilename(name)) == RunFor(name, params, fit, search)
  {
  }

  /** One more iteration adds its entry to `best_models` and its file to the disk. */
  lemma RecordSnoc<E>(runs: seq<Run<E>>, run: Run<E>, disk: map<string, E>)
    ensures Best(runs + [run]) == Best(runs)[run.name := run.estimator]
    ensures Saved(disk, runs + [run]) == Saved(disk, runs)[run.file := run.estimator]
  {
    assert (runs + [run])[..|runs|] == runs;
  }

  /**
   * The loop `for name, model in models.items()`: for each model in order, tune or fit it,
   * record it in `best_models` and dump it to its file.
   */
  method TrainAll<E>(models: seq<string>, params: map<string, Grid>,
                     fit: string -> E, search: (string, Search) -> E, disk0: map<string, E>)
    returns (runs: seq<Run<E>>, bestModels: map<string, E>, disk: map<string, E>)
    ensures runs == Plan(models, params, fit, search)
    ensures bestModels == Best(runs) && disk == Saved(disk0, runs)
  {
    runs := [];
    bestModels := map[];
    disk := disk0;
    var i := 0;
    while i < |models|
      invariant 0 <= i <= |models|
      invariant runs == Plan(models[..i], params, fit, search)
      invariant bestModels == Best(runs) && disk == Saved(disk0, runs)
    {
      var name := models[i];
      var bestEstimator;
      if name in params {
        var gridSearch := Search(params[name], Folds, Scoring);
        bestEstimator := search(name, gridSearch);
      } else {
        bestEstimator := fit(name);
      }
      bestModels := bestModels[name := bestEstimator];
      var modelFilename := ModelFilename(name);
      disk := disk[modelFilename := bestEstimator];
      var run := Run(name, Route(name, params), bestEstimator, modelFilename);
      RunForIs(name, params, fit, search, bestEstimator);
      PlanSnoc(models, i, params, fit, search);
      RecordSnoc(runs, run, disk0);
      runs := runs + [run];
      i := i + 1;
    }
    assert models[..i] == models;
  }

  /** The three models are processed in insertion order; only Random Forest and XGBoost are tuned, with 3 folds on recall. */
  lemma ConfiguredRouting<E>(fit: string -> E, search: (string, Search) -> E)
    ensures Params.Keys < set m | m in Models
    ensures [Models[0], Models[1], Models[2]] == ["Logistic Regression", "Random Forest", "XGBoost"]
    ensures forall m :: m in Models ==> (Route(m, Params).Tuned? <==> m != "Logistic Regression")
    ensures forall r :: r in Plan(Models, Params, fit, search) && r.training.Tuned? ==>
      r.training.search.folds == 3 && r.training.search.scoring == "recall"
  {
    assert "Logistic Regression" !in Params;
  }

  /** The names the iterations carry are the models' names. */
  lemma PlanNames<E>(models: seq<string>, params: map<string, Grid>,
                     fit: string -> E, search: (string, Search) -> E)
    ensures (set r | r in Plan(models, params, fit, search) :: r.name) == set m | m in models
    ensures (set r | r in Plan(models, params, fit, search) :: r.file) == set m | m in models :: ModelFilename(m)
  {
    var runs := Plan(models, params, fit, search);
    forall m | m in models ensures exists r :: r in runs && r.name == m && r.file == ModelFilename(m) {
      var i :| 0 <= i < |models| && models[i] == m;
      assert runs[i] in runs;
    }
  }

  /**
   * After the loop over models with distinct file names, `best_models` has
   * exactly their names as keys, each holding that model's own estimator,
   * and each model's estimator is stored under its own file; no other file
   * changes.
   */
  lemma StoredAfterLoop<E>(models: seq<string>, params: map<string, Grid>,
                           fit: string -> E, search: (string, Search) -> E, disk0: map<string, E>)
    requires forall i, j :: 0 <= i < j < |models| ==> ModelFilename(models[i]) != ModelFilename(models[j])
    ensures Best(Plan(models, params, fit, search)).Keys == set m | m in models
    ensures forall i :: 0 <= i < |models| ==>
      Best(Plan(models, params, fit, search))[models[i]] == Plan(models, params, fit, search)[i].estimator
    ensures Saved(disk0, Plan(models, params, fit, search)).Keys == disk0.Keys + (set m | m in models :: ModelFilename(m))
    ensures forall i :: 0 <= i < |models| ==>
      Saved(disk0, Plan(models, params, fit, search))[ModelFilename(models[i])] == Plan(models, params, fit, search)[i].estimator
    ensures forall f :: f in disk0 && (forall m :: m in models ==> f != ModelFilename(m)) ==>
      Saved(disk0, Plan(models, params, fit, search))[f] == disk0[f]
  {
    var runs := Plan(models, params, fit, search);
    PlanNames(models, params, fit, search);
    BestEntries(runs);
    SavedKeys(disk0, runs);
    forall i | 0 <= i < |runs|
      ensures Saved(disk0, runs)[runs[i].file] == runs[i].estimator
    {
      SavedOwn(disk0, runs, i);
    }
    forall f | f in disk0 && (forall m :: m in models ==> f != ModelFilename(m))
      ensures Saved(disk0, runs)[f] == disk0[f]
    {
      forall r | r in runs
        ensures r.file != f
      {
        assert r.file in set r' | r' in runs :: r'.file;
      }
      SavedUntouched(disk0, runs, f);
    }
  }

  /** The configured models are stored under pairwise distinct file names. */
  lemma ModelsHaveDistinctFiles()
    ensures forall i, j :: 0 <= i < j < |Models| ==> ModelFilename(Models[i]) != ModelFilename(Models[j])
  {
    ModelFilenameShape(Models[0]);
    ModelFilenameShape(Models[1]);
    ModelFilenameShape(Models[2]);
    assert ModelFilename(Models[0])[5] == 'l';
    assert ModelFilename(Models[1])[5] == 'r';
    assert ModelFilename(Models[2])[5] == 'x';
  }

  /** How a run of the script ends. */
  datatype Outcome<E> =
    | DatasetMissing(message: string)
    | Crashed(error: KeyError)
    | Finished(features: seq<Column>, runs: seq<Run<E>>, bestModels: map<string, E>)

  /**
   * The whole script. `csv` is the column header of creditcard.csv, or None
   * when the file does not exist; a missing dataset ends the script before
   * any preparation or training and leaves the disk as it was.
   */
  method RunTrainer<E>(csv: Option<seq<Column>>, fit: string -> E, search: (string, Search) -> E,
                       disk0: map<string, E>)
    returns (outcome: Outcome<E>, disk: map<string, E>)
    ensures csv.None? ==> outcome == DatasetMissing(DatasetMissingMessage) && disk == disk0
    ensures csv.Some? && PreparedColumns(csv.value).Err? ==>
      outcome == Crashed(PreparedColumns(csv.value).error) && disk == disk0
    ensures csv.Some? && PreparedColumns(csv.value).Ok? ==>
      && outcome.Finished?
      && outcome.features == PreparedColumns(csv.value).value
      && outcome.runs == Plan(Models, Params, fit, search)
      && outcome.bestModels == Best(outcome.runs)
      && disk == Saved(disk0, outcome.runs)
  {
    disk := disk0;
    if csv.None? {
      return DatasetMissing(DatasetMissingMessage), disk;
    }
    var features := PrepareFeatures(csv.value);
    if features.Err? {
      return Crashed(features.error), disk;
    }
    var runs, bestModels;
    runs, bestModels, disk := TrainAll(Models, Params, fit, search, disk0);
    outcome := Finished(features.value, runs, bestModels);
  }
}
