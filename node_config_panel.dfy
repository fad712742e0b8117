// The side panel that edits one node's config: the commit gate, the
// Apply / Cancel sequence over the store's undo slot, the hyperparameter
// carry-over when the model type changes, and the statistics table rows.
module NodeConfigPanel {
  import opened Base
  import opened Json
  import opened Api
  import opened PipelineStore

  // ---------------------------------------------------------------------------
  // The commit gate
  // ---------------------------------------------------------------------------

  /** The draft as a JavaScript value: `null` before the panel has loaded one. */
  function DraftValue(draft: Option<Object>): Value {
    match draft
    case Some(o) => Obj(o)
    case None => Null
  }

  /** `Boolean(v?.length)`: the value has a non-zero length. */
  predicate HasLength(v: Value) {
    JsTruthy(LengthProp(v))
  }

  /** Why Apply is blocked, if it is. Upload nodes are judged on the
      COMMITTED config (or a pending file); preprocessing and model nodes on
      the draft; the other kinds are never blocked. */
  function ValidationError(cfg: NodeConfig, draft: Option<Object>, filePending: bool): (r: Option<string>)
    ensures cfg.kind == TrainTestSplit || cfg.kind == Results ==> r == None
    ensures cfg.kind == DataUpload ==>
      (r.Some? <==> !JsTruthy(Get(cfg.config, "dataset_id")) && !filePending)
    ensures cfg.kind == Preprocessing ==>
      (r.None? <==> (JsTruthy(Prop(DraftValue(draft), "standardization")) || JsTruthy(Prop(DraftValue(draft), "normalization")))
                    && HasLength(Prop(DraftValue(draft), "columns")))
    ensures cfg.kind == Model ==>
      (r.None? <==> JsTruthy(Prop(DraftValue(draft), "target_column")) && HasLength(Prop(DraftValue(draft), "feature_columns")))
  {
    var d := DraftValue(draft);
    match cfg.kind
    case DataUpload =>
      if !JsTruthy(Get(cfg.config, "dataset_id")) && !filePending then Some("Upload a CSV/XLSX file first.") else None
    case Preprocessing =>
      if !JsTruthy(JsOr(Prop(d, "standardization"), Prop(d, "normalization"))) then
        Some("Select at least one preprocessing operation.")
      else if !HasLength(Prop(d, "columns")) then Some("Select at least one column.")
      else None
    case Model =>
      if !JsTruthy(Prop(d, "target_column")) then Some("Select a target column.")
      else if !HasLength(Prop(d, "feature_columns")) then Some("Select at least one feature column.")
      else None
    case _ => None
  }

  /** The upload gate never looks at the draft: edits to the draft cannot
      unblock or block an upload node. */
  lemma UploadGateIgnoresDraft(cfg: NodeConfig, d1: Option<Object>, d2: Option<Object>, filePending: bool)
    requires cfg.kind == DataUpload
    ensures ValidationError(cfg, d1, filePending) == ValidationError(cfg, d2, filePending)
  {
  }

  /** Within a kind the errors come in a fixed order: a missing operation is
      reported even when the columns are missing too, and a missing target
      even when the features are missing too. */
  lemma {:induction false} GateErrorOrder(cfg: NodeConfig, d: Object)
    ensures cfg.kind == Preprocessing && !JsTruthy(Get(d, "standardization")) && !JsTruthy(Get(d, "normalization")) ==>
      ValidationError(cfg, Some(d), false) == Some("Select at least one preprocessing operation.")
    ensures cfg.kind == Model && !JsTruthy(Get(d, "target_column")) ==>
      ValidationError(cfg, Some(d), false) == Some("Select a target column.")
  {
  }

  /** A node fresh from the palette cannot be applied as it is, except the
      split and results nodes: their defaults pass the gate. */
  lemma {:induction false} DefaultsAgainstGate(kind: NodeKind)
    ensures var c := DefaultConfig(kind);
      (ValidationError(c, Some(c.config), false).None? <==> kind == TrainTestSplit || kind == Results)
  {
    var c := DefaultConfig(kind);
    match kind
    case DataUpload =>
    case Preprocessing =>
      assert Get(c.config, "standardization") == Bool(false);
    case TrainTestSplit =>
    case Model =>
      assert Get(c.config, "target_column") == Undefined;
    case Results =>
  }

  // ---------------------------------------------------------------------------
  // Model-type switch
  // ---------------------------------------------------------------------------

  /** The hyperparameters a model type starts from, given the draft's old
      ones: present values survive (`??` keeps 0 and ""), missing or null
      ones take the defaults. */
  function CarriedHyperparameters(prev: Value, modelType: string): (h: Object)
    ensures modelType == "logistic_regression" ==> h.Keys == {"max_iter", "C"}
    ensures modelType != "logistic_regression" ==> h.Keys == {"max_depth", "min_samples_split", "random_state"}
    ensures forall k :: k in h && Prop(prev, k) != Undefined && Prop(prev, k) != Null ==> h[k] == Prop(prev, k)
    ensures modelType == "logistic_regression" ==>
      (Prop(prev, "max_iter") in {Undefined, Null} ==> h["max_iter"] == Num(200.0))
      && (Prop(prev, "C") in {Undefined, Null} ==> h["C"] == Num(1.0))
    ensures modelType != "logistic_regression" ==>
      (Prop(prev, "max_depth") in {Undefined, Null} ==> h["max_depth"] == Undefined)
      && (Prop(prev, "min_samples_split") in {Undefined, Null} ==> h["min_samples_split"] == Num(2.0))
      && (Prop(prev, "random_state") in {Undefined, Null} ==> h["random_state"] == Num(42.0))
  {
    if modelType == "logistic_regression" then
      map["max_iter" := Coalesce(Prop(prev, "max_iter"), Num(200.0)), "C" := Coalesce(Prop(prev, "C"), Num(1.0))]
    else
      map[
        "max_depth" := Coalesce(Prop(prev, "max_depth"), Undefined),
        "min_samples_split" := Coalesce(Prop(prev, "min_samples_split"), Num(2.0)),
        "random_state" := Coalesce(Prop(prev, "random_state"), Num(42.0))]
  }

  /** The draft after picking a model type: every other field is kept. */
  function SwitchModelType(d: Object, v: string): (r: Object)
    ensures r.Keys == d.Keys + {"model_type", "hyperparameters"}
    ensures forall k :: k in d && k != "model_type" && k != "hyperparameters" ==> r[k] == d[k]
    ensures r["model_type"] == Str(v)
    ensures r["hyperparameters"] == Obj(CarriedHyperparameters(Get(d, "hyperparameters"), v))
  {
    d + map["model_type" := Str(v), "hyperparameters" := Obj(CarriedHyperparameters(Get(d, "hyperparameters"), v))]
  }

  /** Picking the same model type twice is the same as picking it once. */
  lemma {:induction false} SwitchModelTypeIdempotent(d: Object, v: string)
    ensures SwitchModelType(SwitchModelType(d, v), v) == SwitchModelType(d, v)
  {
    var once := SwitchModelType(d, v);
    var h := CarriedHyperparameters(Get(d, "hyperparameters"), v);
    assert Get(once, "hyperparameters") == Obj(h);
    assert CarriedHyperparameters(Obj(h), v) == h;
  }

  /** A zero hyperparameter survives a switch to a type that uses it. */
  lemma ZeroSurvivesSwitch(d: Object, hp: Object)
    requires Get(d, "hyperparameters") == Obj(hp) && Get(hp, "random_state") == Num(0.0)
    ensures Prop(SwitchModelType(d, "decision_tree")["hyperparameters"], "random_state") == Num(0.0)
  {
  }

  /** Switching away and back does not bring the old values back: the
      logistic hyperparameters are reset to their defaults. */
  lemma {:induction false} SwitchAwayAndBackResets(d: Object)
    ensures var back := SwitchModelType(SwitchModelType(d, "decision_tree"), "logistic_regression");
      back["hyperparameters"] == Obj(map["max_iter" := Num(200.0), "C" := Num(1.0)])
  {
    var away := SwitchModelType(d, "decision_tree");
    var h := CarriedHyperparameters(Get(d, "hyperparameters"), "decision_tree");
    assert Get(away, "hyperparameters") == Obj(h);
    assert "max_iter" !in h && "C" !in h;
  }

  // ---------------------------------------------------------------------------
  // Statistics rows and feature options
  // ---------------------------------------------------------------------------

  datatype StatRow = StatRow(column: string, mean: Value, std: Value)

  /** The rows of the statistics table. `meanEntries` are the entries of
      `describe.mean` in key order (none when it is missing or falsy); `std`
      is `describe.std`, looked up under the same column names. */
  function DescribeToRows(meanEntries: seq<(string, Value)>, std: Value): (rows: seq<StatRow>)
    ensures |rows| == if |meanEntries| < 8 then |meanEntries| else 8
    ensures forall i :: 0 <= i < |rows| ==>
      rows[i].column == meanEntries[i].0 && rows[i].mean == meanEntries[i].1
      && rows[i].std == Prop(std, meanEntries[i].0)
  {
    var cols := if |meanEntries| < 8 then meanEntries else meanEntries[..8];
    var stdObj := JsOr(std, Obj(map[]));
    seq(|cols|, i requires 0 <= i < |cols| => StatRow(cols[i].0, cols[i].1, Prop(stdObj, cols[i].0)))
  }

  /** The columns offered as features: every data column except the current target. */
  function FeatureOptions(columns: seq<string>, target: Value): (r: seq<string>)
    ensures forall i :: 0 <= i < |r| ==> Str(r[i]) != target && r[i] in columns
    ensures forall i :: 0 <= i < |columns| && Str(columns[i]) != target ==> columns[i] in r
    ensures Subsequence(r, columns)
  {
    var offered := (c: string) => Str(c) != target;
    FilterSubsequence(columns, offered);
    Filter(columns, offered)
  }

  /** With no target chosen every column is offered, in the original order. */
  lemma NoTargetOffersAll(columns: seq<string>)
    ensures FeatureOptions(columns, Undefined) == columns
  {
  }

  // ---------------------------------------------------------------------------
  // Apply and Cancel
  // ---------------------------------------------------------------------------

  /** The panel's local state: the draft being edited, the file picked for
      upload (by name), and whether an Apply is in flight. */
  class Panel {
    var draft: Option<Object>
    var file: Option<string>
    var busy: bool

    /** The panel as it loads a node: the draft is a copy of the committed
        payload and no file is pending. */
    constructor(committed: Object)
      ensures draft == Some(committed) && file == None && !busy
    {
      draft, file, busy := Some(committed), None, false;
    }

    /** The panel's effect on a new committed config of its node: the draft
        is reloaded from it and a pending file is dropped. It runs whenever
        the store writes the node's entry, whatever the writer. */
    method OnConfigChange(store: Store, nodeId: NodeId)
      requires nodeId in store.configs
      modifies this`draft, this`file
      ensures draft == Some(store.configs[nodeId].config) && file == None
    {
      draft := Some(store.configs[nodeId].config);
      file := None;
    }

    /** Commits the draft for the node the panel shows. Nothing happens
        while the gate reports an error. Otherwise the committed payload is
        snapshotted, then the draft is merged in (or, for an upload node
        with a file pending, the upload's response is). A failed upload
        puts the committed payload back and reports the error message. Each
        write to the node's entry reloads the draft and drops the pending
        file, so after a failed upload the file must be picked again. */
    method OnApply(store: Store, nodeId: NodeId, upload: Result<UploadResponse, Thrown>)
      returns (failure: Option<string>)
      requires nodeId in store.configs
      modifies this, store`configs, store`undo
      ensures var cfg := old(store.configs[nodeId]);
        ValidationError(cfg, old(draft), old(file).Some?).Some? ==>
          failure == None && store.configs == old(store.configs) && store.undo == old(store.undo)
          && draft == old(draft) && file == old(file) && busy == old(busy)
      ensures var cfg := old(store.configs[nodeId]);
        ValidationError(cfg, old(draft), old(file).Some?).None? ==>
          && !busy
          && store.undo == old(store.undo)[nodeId := Some(cfg.config)]
          && (cfg.kind != DataUpload ==>
                failure == None
                && store.configs == old(store.configs)[nodeId := MergeConfig(cfg, old(draft).GetOr(map[]))])
          && (cfg.kind == DataUpload && old(file).None? ==>
                failure == None && store.configs == old(store.configs)
                && draft == old(draft) && file == None)
          && (cfg.kind == DataUpload && old(file).Some? && upload.Ok? ==>
                failure == None
                && store.configs == old(store.configs)[nodeId := MergeConfig(cfg,
                     UploadPatch(Str(old(file).value), upload.value.datasetId, upload.value.info))])
          && (cfg.kind == DataUpload && old(file).Some? && upload.Err? ==>
                failure == Some(GetErrorMessage(upload.error)) && store.configs == old(store.configs))
          && (cfg.kind != DataUpload || old(file).Some? ==>
                draft == Some(store.configs[nodeId].config) && file == None)
    {
      var cfg := store.configs[nodeId];
      if ValidationError(cfg, draft, file.Some?).Some? {
        return None;
      }
      busy := true;
      failure := None;
      store.TakeUndoSnapshot(nodeId);
      if cfg.kind == DataUpload {
        if file.Some? {
          var r := store.UploadDataset(nodeId, file.value, upload);
          if r.Err? {
            store.ReplaceNodeConfig(nodeId, cfg.config);
            failure := Some(GetErrorMessage(r.error));
          }
          OnConfigChange(store, nodeId);
        }
      } else {
        store.UpdateNodeConfig(nodeId, draft.GetOr(map[]));
        OnConfigChange(store, nodeId);
      }
      busy := false;
    }

    /** Undoes the last Apply of the node, if any, and reloads the draft
        from the committed payload that results; a pending file is dropped. */
    method OnCancel(store: Store, nodeId: NodeId)
      requires nodeId in store.configs
      modifies this`draft, this`file, store`configs, store`undo
      ensures store.Configs() == UndoLastApply(old(store.Configs()), nodeId)
      ensures draft == Some(store.configs[nodeId].config) && file == None
    {
      store.UndoLastApplyOf(nodeId);
      draft := Some(store.configs[nodeId].config);
      file := None;
    }
  }

  /** Apply followed by Cancel on a node that passes the gate leaves its
      committed payload as it was before the Apply, and the draft shows it. */
  method ApplyThenCancel(store: Store, panel: Panel, nodeId: NodeId, upload: Result<UploadResponse, Thrown>)
    requires nodeId in store.configs
    requires ValidationError(store.configs[nodeId], panel.draft, panel.file.Some?).None?
    modifies panel, store`configs, store`undo
    ensures store.configs == old(store.configs)
    ensures nodeId in store.undo && store.undo[nodeId] == None
    ensures panel.draft == Some(old(store.configs[nodeId].config))
  {
    ghost var cfg := store.configs[nodeId];
    var failure := panel.OnApply(store, nodeId, upload);
    assert store.undo == old(store.undo)[nodeId := Some(cfg.config)];
    assert nodeId in store.configs && store.configs[nodeId].kind == cfg.kind;
    assert store.configs == old(store.configs)[nodeId := store.configs[nodeId]];
    panel.OnCancel(store, nodeId);
  }

  /** A failed upload on a node with no dataset yet drops the picked file,
      so pressing Apply again is blocked until a file is picked anew. */
  method RetryAfterFailedUpload(store: Store, panel: Panel, nodeId: NodeId, error: Thrown,
                                retry: Result<UploadResponse, Thrown>)
    returns (first: Option<string>, second: Option<string>)
    requires nodeId in store.configs && store.configs[nodeId].kind == DataUpload
    requires !JsTruthy(Get(store.configs[nodeId].config, "dataset_id")) && panel.file.Some?
    modifies panel, store`configs, store`undo
    ensures first == Some(GetErrorMessage(error)) && second == None
    ensures store.configs == old(store.configs) && panel.file == None
  {
    first := panel.OnApply(store, nodeId, Err(error));
    second := panel.OnApply(store, nodeId, retry);
  }
}
