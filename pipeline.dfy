/**
 * How the two scripts fit together: the front-end (app.py) loads files the
 * training script (main_lanjutan.py) writes, and feeds the loaded model a
 * frame whose columns are the ones the model was trained on.
 */
module Pipeline {
  import opened Wrappers
  import opened Columns
  import opened Artifacts
  import App
  import Trainer

  /** The models offered by the front-end are exactly the models the training script trains. */
  lemma ChoicesAreTrainedModels()
    ensures (set c | c in App.Choices) == set m | m in Trainer.Models
  {
    assert App.Choices == [Trainer.Models[2], Trainer.Models[1], Trainer.Models[0]];
  }

  /**
   * The training script's features, for the creditcard.csv header, are the
   * front-end's feature names in the same order, so the frame the front-end
   * builds has the columns the models were fitted on.
   */
  lemma ColumnsAlign()
    ensures Trainer.PreparedColumns(Trainer.CreditCardColumns) == Ok(App.FeatureNames)
  {
    Trainer.CreditCardFeatures();
    var trained := seq(28, i requires 0 <= i < 28 => V(i + 1)) + [NormalizedAmount, NormalizedTime];
    assert |trained| == |App.FeatureNames|;
    forall i | 0 <= i < 30
      ensures trained[i] == App.FeatureNames[i]
    {
      if i < 28 {
        assert trained[i] == V(i + 1);
      }
    }
    assert trained == App.FeatureNames;
  }

  /**
   * After the training loop, every model the front-end offers is found on
   * disk under the name it asks for, and what it loads is the estimator the
   * training script produced for that model (the grid search's best one
   * for tuned models).
   */
  lemma AppLoadsTrainedModel<E>(option: string, fit: string -> E, search: (string, Trainer.Search) -> E,
                                disk0: map<string, E>)
    requires option in App.Choices
    ensures var disk := Trainer.Saved(disk0, Trainer.Plan(Trainer.Models, Trainer.Params, fit, search));
      App.LoadModel(option, disk).model == Some(Trainer.RunFor(option, Trainer.Params, fit, search).estimator)
  {
    ChoicesAreTrainedModels();
    assert option in set m | m in Trainer.Models;
    var i :| 0 <= i < |Trainer.Models| && Trainer.Models[i] == option;
    Trainer.ModelsHaveDistinctFiles();
    Trainer.StoredAfterLoop(Trainer.Models, Trainer.Params, fit, search, disk0);
  }
}
