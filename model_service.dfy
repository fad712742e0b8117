// The backend's model service: which columns training uses, the order of its
// errors, the model-type dispatch with its hyperparameter defaults, and the
// shape of the payload it answers with. Frames are their column names;
// fitting and scoring are an opaque evaluation.
module ModelService {
  import opened Base
  import opened Json

  function TargetNotFound(target: string): string {
    "Target column '" + target + "' not found"
  }

  const NoFeatures := "No valid feature columns selected"
  const Unsupported := "Unsupported model_type"

  /** The three messages are told apart by their first letter. */
  lemma MessagesDiffer(target: string)
    ensures TargetNotFound(target) != NoFeatures
    ensures TargetNotFound(target) != Unsupported && NoFeatures != Unsupported
  {
    assert TargetNotFound(target)[0] == 'T';
  }

  /** `_prepare_xy`'s column selection on a frame with columns `columns`: the
      target must be a column; the features are the requested columns that
      exist and are not the target, in the order requested, and there must
      be at least one. */
  function PrepareColumns(columns: seq<string>, target: string, featureColumns: seq<string>)
    : (r: Result<seq<string>, string>)
    ensures r == Err(TargetNotFound(target)) <==> target !in columns
    ensures r == Err(NoFeatures) <==>
      target in columns && forall c :: c in featureColumns ==> c !in columns || c == target
    ensures r.Ok? || r == Err(TargetNotFound(target)) || r == Err(NoFeatures)
    ensures r.Ok? ==> r.value != [] && Subsequence(r.value, featureColumns)
    ensures r.Ok? ==> forall c :: c in r.value <==> c in featureColumns && c in columns && c != target
  {
    MessagesDiffer(target);
    var usable := (c: string) => c in columns && c != target;
    if target !in columns then Err(TargetNotFound(target))
    else
      var features := Filter(featureColumns, usable);
      FilterSubsequence(featureColumns, usable);
      if features == [] then
        FilterEmpty(featureColumns, usable);
        Err(NoFeatures)
      else Ok(features)
  }

  /** An empty filter result means nothing satisfied the condition. */
  lemma {:induction false} FilterEmpty(s: seq<string>, p: string -> bool)
    requires Filter(s, p) == []
    ensures forall c :: c in s ==> !p(c)
  {
    if s != [] {
      FilterEmpty(s[1..], p);
    }
  }

  /** The estimator settings `train` builds; conversions with `int` and
      `float` are not modelled, so the values are passed through as given. */
  datatype Settings =
    | LogisticSettings(maxIter: Value, c: Value)
    | TreeSettings(maxDepth: Option<Value>, minSamplesSplit: Value, randomState: Value)

  /** `max_depth in (None, "", 0)`; Python's `==` also equates `False` and
      `0.0` with `0`. A missing key reads as None. */
  predicate UnlimitedDepth(v: Value) {
    v.Undefined? || v.Null? || v == Str("") || v == Num(0.0) || v == Bool(false)
  }

  /** The model-type dispatch of `train` with its hyperparameter defaults. */
  function ChooseModel(modelType: string, hp: Object): (r: Result<Settings, string>)
    ensures r.Err? <==> modelType != "logistic_regression" && modelType != "decision_tree"
    ensures r.Err? ==> r.error == Unsupported
    ensures r.Ok? && r.value.LogisticSettings? <==> modelType == "logistic_regression"
  {
    if modelType == "logistic_regression" then
      Ok(LogisticSettings(GetOr(hp, "max_iter", Num(200.0)), GetOr(hp, "C", Num(1.0))))
    else if modelType == "decision_tree" then
      var depth := GetOr(hp, "max_depth", Null);
      Ok(TreeSettings(if UnlimitedDepth(depth) then None else Some(depth),
                      GetOr(hp, "min_samples_split", Num(2.0)),
                      GetOr(hp, "random_state", Num(42.0))))
    else Err(Unsupported)
  }

  /** Without hyperparameters: max_iter 200 and C 1.0 for logistic
      regression; unlimited depth, min_samples_split 2 and random_state 42
      for a decision tree. */
  lemma DefaultHyperparameters()
    ensures ChooseModel("logistic_regression", map[]) == Ok(LogisticSettings(Num(200.0), Num(1.0)))
    ensures ChooseModel("decision_tree", map[]) == Ok(TreeSettings(None, Num(2.0), Num(42.0)))
  {
  }

  /** A value that is present is used even when falsy (only a missing key
      takes the default), except that a falsy depth means unlimited. */
  lemma GivenHyperparametersKept(hp: Object)
    requires "max_iter" in hp && "C" in hp && "min_samples_split" in hp && "random_state" in hp
    ensures ChooseModel("logistic_regression", hp) == Ok(LogisticSettings(hp["max_iter"], hp["C"]))
    ensures ChooseModel("decision_tree", hp).value.minSamplesSplit == hp["min_samples_split"]
    ensures ChooseModel("decision_tree", hp).value.randomState == hp["random_state"]
  {
  }

  /** The tree depth is unlimited exactly for a missing, None, "", 0 or False
      `max_depth`; any other value is kept. */
  lemma DepthLimit(hp: Object)
    ensures var s := ChooseModel("decision_tree", hp).value;
      && (s.maxDepth.None? <==> "max_depth" !in hp || UnlimitedDepth(hp["max_depth"]))
      && (s.maxDepth.Some? ==> s.maxDepth.value == hp["max_depth"])
  {
  }

  /** What fitting and scoring yields: the metrics, the confusion matrix and
      report as values, the feature names after one-hot encoding, and the
      feature importances when the estimator has them. */
  datatype Evaluation = Evaluation(accuracy: real, precision: real, recall: real, f1: real,
                                   confusionMatrix: Value, report: Value,
                                   encodedFeatures: seq<string>, importances: Option<seq<real>>)

  function Nums(xs: seq<real>): (r: seq<Value>)
    ensures |r| == |xs| && forall i :: 0 <= i < |xs| ==> r[i] == Num(xs[i])
  {
    if xs == [] then [] else [Num(xs[0])] + Nums(xs[1..])
  }

  /** The metric keys every payload carries. */
  const MetricKeys: set<string> := {"accuracy", "precision", "recall", "f1"}

  /** The payload of a successful `train`. */
  function Payload(modelId: string, modelType: string, ev: Evaluation): (r: Object)
    ensures r.Keys - {"feature_importance"} ==
      {"model_id", "status", "metrics", "confusion_matrix", "classification_report"}
    ensures "feature_importance" in r <==> modelType == "decision_tree" && ev.importances.Some?
    ensures "status" in r && r["status"] == Str("success")
    ensures "model_id" in r && r["model_id"] == Str(modelId)
    ensures "metrics" in r && r["metrics"].Obj? && r["metrics"].fields.Keys == MetricKeys
  {
    var base := map["model_id" := Str(modelId), "status" := Str("success"),
                    "metrics" := Obj(map["accuracy" := Num(ev.accuracy), "precision" := Num(ev.precision),
                                         "recall" := Num(ev.recall), "f1" := Num(ev.f1)]),
                    "confusion_matrix" := ev.confusionMatrix,
                    "classification_report" := ev.report];
    if modelType == "decision_tree" && ev.importances.Some? then
      base["feature_importance" := Obj(map["features" := Arr(Strs(ev.encodedFeatures)),
                                           "importances" := Arr(Nums(ev.importances.value))])]
    else base
  }

  /** What the model store keeps for a trained model. */
  datatype StoredModel = StoredModel(settings: Settings, featureNames: seq<string>, modelType: string)

  /** `train`: select the columns of the training frame, then of the test
      frame, then pick the estimator; only then is anything fitted. A falsy
      `hyperparameters` (None or empty) counts as empty. */
  function TrainOutcome(trainColumns: seq<string>, testColumns: seq<string>, modelType: string,
                        target: string, featureColumns: seq<string>, hyperparameters: Option<Object>)
    : Result<Settings, string>
  {
    var hp := hyperparameters.GetOr(map[]);
    match PrepareColumns(trainColumns, target, featureColumns)
    case Err(e) => Err(e)
    case Ok(_) =>
      match PrepareColumns(testColumns, target, featureColumns)
      case Err(e) => Err(e)
      case Ok(_) => ChooseModel(modelType, hp)
  }

  /** Column errors come first, the training frame's before the test frame's;
      an unsupported model type is reported only when both frames pass. */
  lemma ErrorOrder(trainColumns: seq<string>, testColumns: seq<string>, modelType: string,
                   target: string, featureColumns: seq<string>, hyperparameters: Option<Object>)
    ensures var r := TrainOutcome(trainColumns, testColumns, modelType, target, featureColumns, hyperparameters);
      var onTrain := PrepareColumns(trainColumns, target, featureColumns);
      var onTest := PrepareColumns(testColumns, target, featureColumns);
      && (onTrain.Err? ==> r == Err(onTrain.error))
      && (onTrain.Ok? && onTest.Err? ==> r == Err(onTest.error))
      && (r == Err(Unsupported) <==>
            onTrain.Ok? && onTest.Ok? && modelType != "logistic_regression" && modelType != "decision_tree")
  {
    MessagesDiffer(target);
  }

  /** The in-memory registry of trained models. */
  class ModelStore {
    var models: map<string, StoredModel>

    constructor ()
      ensures models == map[]
    {
      models := map[];
    }

    /** `train` against the store: on success the model is kept under
        `modelId` (a fresh id; the source draws a random one) and the payload
        is returned; on any error nothing is stored. `evaluate` stands for
        fitting on the training frame and scoring on the test frame. */
    method Train(trainColumns: seq<string>, testColumns: seq<string>, modelType: string,
                 target: string, featureColumns: seq<string>, hyperparameters: Option<Object>,
                 modelId: string, evaluate: Settings -> Evaluation)
      returns (r: Result<Object, string>)
      modifies this`models
      ensures var o := TrainOutcome(trainColumns, testColumns, modelType, target, featureColumns, hyperparameters);
        && (o.Err? ==> r == Err(o.error) && models == old(models))
        && (o.Ok? ==>
              var ev := evaluate(o.value);
              && r == Ok(Payload(modelId, modelType, ev))
              && models == old(models)[modelId := StoredModel(o.value, ev.encodedFeatures, modelType)])
    {
      var hp := hyperparameters.GetOr(map[]);
      var onTrain := PrepareColumns(trainColumns, target, featureColumns);
      if onTrain.Err? {
        return Err(onTrain.error);
      }
      var onTest := PrepareColumns(testColumns, target, featureColumns);
      if onTest.Err? {
        return Err(onTest.error);
      }
      var settings := ChooseModel(modelType, hp);
      if settings.Err? {
        return Err(settings.error);
      }
      var ev := evaluate(settings.value);
      models := models[modelId := StoredModel(settings.value, ev.encodedFeatures, modelType)];
      r := Ok(Payload(modelId, modelType, ev));
    }
  }
}
