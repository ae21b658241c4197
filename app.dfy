/**
 * The front-end (app.py): derive and look up the selected model's artifact,
 * assemble the 30-column input row from five sliders, and turn the model's
 * prediction into a verdict with a confidence.
 *
 * The artifacts on disk are a map from file name to stored estimator; the
 * estimator's predict and predict_proba are parameters of RunApp.
 */
module App {
  import opened Wrappers
  import opened Artifacts
  import opened Columns
  import opened Decimal

  /** The model names offered by the sidebar selector, in display order. */
  const Choices: seq<string> := ["XGBoost", "Random Forest", "Logistic Regression"]

  /** What load_model returns: the estimator, or None, and the file it looked for. */
  datatype Loaded<M> = Loaded(model: Option<M>, file: string)

  /** load_model: look up the derived file name among the stored artifacts. */
  function LoadModel<M>(name: string, disk: map<string, M>): (r: Loaded<M>)
    ensures r.file == ModelFilename(name)
    ensures r.model.None? <==> r.file !in disk
    ensures r.model.Some? ==> r.model.value == disk[r.file]
  {
    var file := ModelFilename(name);
    if file in disk then Loaded(Some(disk[file]), file) else Loaded(None, file)
  }

  /** The three selectable models are stored under three different files. */
  lemma ChoicesHaveDistinctFiles()
    ensures forall i, j :: 0 <= i < j < |Choices| ==> ModelFilename(Choices[i]) != ModelFilename(Choices[j])
  {
    ModelFilenameShape(Choices[0]);
    ModelFilenameShape(Choices[1]);
    ModelFilenameShape(Choices[2]);
    assert ModelFilename(Choices[0])[5] == 'x';
    assert ModelFilename(Choices[1])[5] == 'r';
    assert ModelFilename(Choices[2])[5] == 'l';
  }

  /** `t` occurs as a contiguous part of `s`. */
  ghost predicate Occurs(t: string, s: string)
  {
    exists pre, post :: s == pre + t + post
  }

  lemma OccursBetween(pre: string, t: string, post: string)
    ensures Occurs(t, pre + t + post)
  {
  }

  /** The error shown when the selected model's artifact is missing. */
  function MissingModelMessage(option: string, file: string): string
  {
    "Model '" + option + "' tidak ditemukan. Pastikan Anda telah menjalankan `" + "main_lanjutan.py"
      + "` dan file **'" + file + "'** ada di folder yang sama."
  }

  /** Each of the three parts a message is built around occurs in it. */
  lemma PartsOccur(a: string, option: string, b: string, script: string, c: string, file: string, d: string)
    ensures var message := a + option + b + script + c + file + d;
      Occurs(option, message) && Occurs(script, message) && Occurs(file, message)
  {
    var message := a + option + b + script + c + file + d;
    assert message == a + option + (b + script + c + file + d);
    OccursBetween(a, option, b + script + c + file + d);
    assert message == (a + option + b) + script + (c + file + d);
    OccursBetween(a + option + b, script, c + file + d);
    OccursBetween(a + option + b + script + c, file, d);
  }

  /** The error names the selected model, the training script and the missing file. */
  lemma MissingModelMessageNamesFile(option: string, file: string)
    ensures Occurs(option, MissingModelMessage(option, file))
    ensures Occurs(file, MissingModelMessage(option, file))
    ensures Occurs("main_lanjutan.py", MissingModelMessage(option, file))
  {
    PartsOccur("Model '", option, "' tidak ditemukan. Pastikan Anda telah menjalankan `", "main_lanjutan.py",
      "` dan file **'", file, "'** ada di folder yang sama.");
  }

  /** The message shown when the artifact was found. */
  function LoadedMessage(option: string): string
  {
    "Model **'" + option + "'** berhasil dimuat."
  }

  /**
   * The 30 columns of the input row, in the order the estimator expects:
   * V1, ..., V28, NormalizedAmount, NormalizedTime.
   */
  const FeatureNames: seq<Column> :=
    seq(30, i requires 0 <= i < 30 =>
      if i < 28 then V(i + 1) else if i == 28 then NormalizedAmount else NormalizedTime)

  /** The 30 column names are the source's list and are pairwise distinct, as strings too. */
  lemma FeatureNamesDistinct()
    ensures |FeatureNames| == 30
    ensures forall i :: 0 <= i < 28 ==> Label(FeatureNames[i]) == "V" + NatToString(i + 1)
    ensures Label(FeatureNames[28]) == "NormalizedAmount" && Label(FeatureNames[29]) == "NormalizedTime"
    ensures forall i, j :: 0 <= i < j < |FeatureNames| ==> FeatureNames[i] != FeatureNames[j]
    ensures forall i, j :: 0 <= i < j < |FeatureNames| ==> Label(FeatureNames[i]) != Label(FeatureNames[j])
  {
    forall i, j | 0 <= i < j < |FeatureNames|
      ensures Label(FeatureNames[i]) != Label(FeatureNames[j])
    {
      LabelInjective(FeatureNames[i], FeatureNames[j]);
    }
  }

  /** One sidebar slider: title, range, default value and widget key. */
  datatype Slider = Slider(title: string, min: real, max: real, default: real, key: string)

  /** The five sliders, in the order the sidebar creates them. */
  const Sliders: seq<Slider> := [
    Slider("Fitur V14", -20.0, 5.0, -2.5, "v14"),
    Slider("Fitur V12", -20.0, 5.0, -5.0, "v12"),
    Slider("Fitur V10", -25.0, 10.0, -3.0, "v10"),
    Slider("Fitur V17", -26.0, 10.0, -0.5, "v17"),
    Slider("Fitur V4", -5.0, 17.0, 4.0, "v4")]

  /** The row position each slider's value is written to, in slider order. */
  const SliderSlots: seq<nat> := [13, 11, 9, 16, 3]

  /** Every slider starts inside its own range. */
  lemma SliderDefaultsInRange()
    ensures forall k :: 0 <= k < |Sliders| ==> Sliders[k].min <= Sliders[k].default <= Sliders[k].max
  {
  }

  /** The values the operator has set, named after the features they stand for. */
  datatype Inputs = Inputs(v14: real, v12: real, v10: real, v17: real, v4: real)

  /** The inputs in slider order. */
  function Values(x: Inputs): seq<real>
  {
    [x.v14, x.v12, x.v10, x.v17, x.v4]
  }

  /** Each slider value lies in that slider's range (Streamlit guarantees this). */
  ghost predicate InRange(x: Inputs)
  {
    forall k :: 0 <= k < |Sliders| ==> Sliders[k].min <= Values(x)[k] <= Sliders[k].max
  }

  /** Before the operator moves anything, the inputs are the defaults. */
  function DefaultInputs(): (x: Inputs)
    ensures InRange(x)
    ensures forall k :: 0 <= k < |Sliders| ==> Values(x)[k] == Sliders[k].default
  {
    Inputs(-2.5, -5.0, -3.0, -0.5, 4.0)
  }

  /** The one-row frame handed to the estimator. */
  datatype InputFrame = InputFrame(columns: seq<Column>, row: seq<real>)

  /** The assembled row: the five slider values in their slots, zero elsewhere. */
  function FeatureVector(x: Inputs): seq<real>
  {
    seq(30, _ => 0.0)[3 := x.v4][9 := x.v10][11 := x.v12][13 := x.v14][16 := x.v17]
  }

  /**
   * Each slider writes the column whose name its title carries, and every
   * column no slider writes is exactly zero.
   */
  lemma SlidersAlignWithColumns(x: Inputs)
    ensures |FeatureVector(x)| == |FeatureNames|
    ensures forall k :: 0 <= k < |Sliders| ==>
      SliderSlots[k] < 30 &&
      Sliders[k].title == "Fitur " + Label(FeatureNames[SliderSlots[k]]) &&
      FeatureVector(x)[SliderSlots[k]] == Values(x)[k]
    ensures forall i :: 0 <= i < 30 && i !in SliderSlots ==> FeatureVector(x)[i] == 0.0
  {
    assert NatToString(14) == "14" && NatToString(12) == "12" && NatToString(10) == "10";
    assert NatToString(17) == "17" && NatToString(4) == "4";
  }

  /** user_input_features: a zero row of 30, five slots set in place. */
  method UserInputFeatures(x: Inputs) returns (frame: InputFrame)
    ensures frame.columns == FeatureNames && frame.row == FeatureVector(x)
    ensures |frame.row| == 30
    ensures frame.row[3] == x.v4 && frame.row[9] == x.v10 && frame.row[11] == x.v12
    ensures frame.row[13] == x.v14 && frame.row[16] == x.v17
    ensures forall i :: 0 <= i < 30 && i !in {3, 9, 11, 13, 16} ==> frame.row[i] == 0.0
  {
    var a := new real[30](_ => 0.0);
    a[3] := x.v4;
    a[9] := x.v10;
    a[11] := x.v12;
    a[13] := x.v14;
    a[16] := x.v17;
    frame := InputFrame(FeatureNames, a[..]);
  }

  /**
   * Position of the first column called `name`, if any. On a frame with
   * distinct labels, such as the input row under `FeatureNames`, that is
   * the column's only position.
   */
  function IndexOf(columns: seq<Column>, name: Column): (r: Option<nat>)
    ensures r.None? <==> name !in columns
    ensures r.Some? ==> r.value < |columns| && columns[r.value] == name && name !in columns[..r.value]
  {
    if columns == [] then None
    else if columns[0] == name then Some(0)
    else match IndexOf(columns[1..], name)
      case None => None
      case Some(k) =>
        assert columns[..k + 1] == [columns[0]] + columns[1..][..k];
        Some(k + 1)
  }

  /**
   * df[[...]] on a one-row frame with distinct labels: the named columns'
   * values, or None (a KeyError). With a repeated label pandas would return
   * every column of that name; this takes the first, which is the only one
   * on the frames the page builds.
   */
  function SelectColumns(frame: InputFrame, wanted: seq<Column>): (r: Option<seq<real>>)
    requires |frame.row| == |frame.columns|
    ensures r.Some? <==> forall j :: 0 <= j < |wanted| ==> wanted[j] in frame.columns
    ensures r.Some? ==>
      |r.value| == |wanted| &&
      forall j :: 0 <= j < |wanted| ==> r.value[j] == frame.row[IndexOf(frame.columns, wanted[j]).value]
  {
    if wanted == [] then Some([])
    else
      match IndexOf(frame.columns, wanted[0])
      case None => None
      case Some(k) =>
        match SelectColumns(frame, wanted[1..])
        case None => None
        case Some(rest) => Some([frame.row[k]] + rest)
  }

  /** The columns the results tab displays. */
  const DisplayedColumns: seq<Column> := [V(4), V(10), V(12), V(14), V(17)]

  /** A selection whose every column is found yields the values at the found positions. */
  lemma SelectFound(frame: InputFrame, wanted: seq<Column>, expected: seq<real>)
    requires |frame.row| == |frame.columns| && |expected| == |wanted|
    requires forall j :: 0 <= j < |wanted| ==> wanted[j] in frame.columns
    requires forall j :: 0 <= j < |wanted| ==> frame.row[IndexOf(frame.columns, wanted[j]).value] == expected[j]
    ensures SelectColumns(frame, wanted) == Some(expected)
  {
    var r := SelectColumns(frame, wanted);
    assert r.value == expected;
  }

  /** The displayed columns are exactly the five values the sliders set. */
  lemma DisplayedColumnsAreSliderValues(x: Inputs)
    ensures SelectColumns(InputFrame(FeatureNames, FeatureVector(x)), DisplayedColumns)
      == Some([x.v4, x.v10, x.v12, x.v14, x.v17])
  {
    var frame := InputFrame(FeatureNames, FeatureVector(x));
    var w, v := DisplayedColumns, [x.v4, x.v10, x.v12, x.v14, x.v17];
    var slots := [3, 9, 11, 13, 16];
    forall j | 0 <= j < |w|
      ensures w[j] in frame.columns && frame.row[IndexOf(frame.columns, w[j]).value] == v[j]
    {
      assert w[j] == FeatureNames[slots[j]];
      ColumnPosition(slots[j]);
    }
    SelectFound(frame, w, v);
  }

  /** In a list without repeats, looking up an element finds its own position. */
  lemma {:induction false} IndexOfDistinct(columns: seq<Column>, i: nat)
    requires i < |columns|
    requires forall p, q :: 0 <= p < q < |columns| ==> columns[p] != columns[q]
    ensures IndexOf(columns, columns[i]) == Some(i)
  {
    if i > 0 {
      assert columns[0] != columns[i];
      IndexOfDistinct(columns[1..], i - 1);
    }
  }

  /** Looking up a column of the input row finds that column's own position. */
  lemma ColumnPosition(i: nat)
    requires i < |FeatureNames|
    ensures IndexOf(FeatureNames, FeatureNames[i]) == Some(i)
  {
    FeatureNamesDistinct();
    IndexOfDistinct(FeatureNames, i);
  }

  /** The results panel: verdict, metric label, confidence and risk note. */
  datatype Verdict = Verdict(fraud: bool, headline: string, metricLabel: string, confidence: real, delta: string)

  /**
   * The verdict shown for prediction[0] == predicted and predict_proba's first row
   * (p0, p1): fraud exactly when the predicted label is 1, with the probability of the
   * class it displays.
   */
  function ShowResult(predicted: int, proba: (real, real)): (r: Verdict)
    ensures r.fraud <==> predicted == 1
    ensures r.fraud ==>
      r.confidence == proba.1 && r.headline == "**POTENSI PENIPUAN**" &&
      r.metricLabel == "Tingkat Keyakinan (Penipuan)" && r.delta == "Risiko Tinggi"
    ensures !r.fraud ==>
      r.confidence == proba.0 && r.headline == "**TRANSAKSI AMAN**" &&
      r.metricLabel == "Tingkat Keyakinan (Aman)" && r.delta == "Risiko Rendah"
  {
    if predicted == 1 then
      Verdict(true, "**POTENSI PENIPUAN**", "Tingkat Keyakinan (Penipuan)", proba.1, "Risiko Tinggi")
    else
      Verdict(false, "**TRANSAKSI AMAN**", "Tingkat Keyakinan (Aman)", proba.0, "Risiko Rendah")
  }

  /** For a binary label, the confidence is the probability of the predicted class. */
  lemma ConfidenceIsPredictedClassProbability(predicted: int, proba: (real, real))
    requires predicted == 0 || predicted == 1
    ensures ShowResult(predicted, proba).confidence == [proba.0, proba.1][predicted]
  {
  }

  /** What the page shows. */
  datatype Page =
    | MissingModel(error: string)
    | Ready(loaded: string, shown: seq<real>, result: Option<Verdict>)

  /**
   * One run of the page: load the selected artifact; if it is missing show
   * only the error; otherwise build the input row, show the slider columns,
   * and, when the button was pressed, predict and show the verdict.
   */
  method RunApp<M>(option: string, disk: map<string, M>, x: Inputs, clicked: bool,
                   predict: (M, InputFrame) -> int, predictProba: (M, InputFrame) -> (real, real))
    returns (page: Page)
    ensures page.MissingModel? <==> ModelFilename(option) !in disk
    ensures page.MissingModel? ==> page.error == MissingModelMessage(option, ModelFilename(option))
    ensures page.Ready? ==> page.loaded == LoadedMessage(option)
    ensures page.Ready? ==> page.shown == [x.v4, x.v10, x.v12, x.v14, x.v17]
    ensures page.Ready? ==> (page.result.Some? <==> clicked)
    ensures page.Ready? && clicked ==>
      var m, frame := disk[ModelFilename(option)], InputFrame(FeatureNames, FeatureVector(x));
      page.result.value == ShowResult(predict(m, frame), predictProba(m, frame))
  {
    var loaded := LoadModel(option, disk);
    if loaded.model.None? {
      return MissingModel(MissingModelMessage(option, loaded.file));
    }
    var model := loaded.model.value;
    var frame := UserInputFeatures(x);
    DisplayedColumnsAreSliderValues(x);
    var shown := SelectColumns(frame, DisplayedColumns).value;
    var result := None;
    if clicked {
      var prediction := predict(model, frame);
      var proba := predictProba(model, frame);
      result := Some(ShowResult(prediction, proba));
    }
    page := Ready(LoadedMessage(option), shown, result);
  }
}
