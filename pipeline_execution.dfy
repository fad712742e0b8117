// The backend's execution of a submitted pipeline: an execution record per
// run, the node-status initialisation of `execute`, the sequential body of the
// worker's `run` (topological order, cancellation check, per-type input
// checks, status transitions), and `cancel`.
module PipelineExecution {
  import opened Base
  import opened Json
  import opened PipelineRoutes
  import PipelineStore

  /** The `type` of a submitted node: one of the five names `run` dispatches
      on, or anything else, kept as Python's `str()` of it. */
  datatype NodeType =
    | DataUploadType | PreprocessingType | SplitType | ModelType | ResultsType
    | OtherType(shown: string)

  /** Reading the `type` field (absent reads as `None`). */
  function ParseType(t: Option<string>): (r: NodeType)
    ensures t == Some("dataUpload") <==> r == DataUploadType
    ensures t == Some("preprocessing") <==> r == PreprocessingType
    ensures t == Some("trainTestSplit") <==> r == SplitType
    ensures t == Some("model") <==> r == ModelType
    ensures t == Some("results") <==> r == ResultsType
    ensures r.OtherType? ==> r.shown == (if t.None? then "None" else t.value)
  {
    if t == Some("dataUpload") then DataUploadType
    else if t == Some("preprocessing") then PreprocessingType
    else if t == Some("trainTestSplit") then SplitType
    else if t == Some("model") then ModelType
    else if t == Some("results") then ResultsType
    else OtherType(if t.None? then "None" else t.value)
  }

  /** Every node kind the editor submits, under the tag it writes, reaches
      its own stage of `run`: none is rejected as unknown. */
  lemma ClientKindsAreDispatched(k: PipelineStore.NodeKind)
    ensures ParseType(Some(PipelineStore.KindName(k))) ==
      match k
      case DataUpload => DataUploadType
      case Preprocessing => PreprocessingType
      case TrainTestSplit => SplitType
      case Model => ModelType
      case Results => ResultsType
  {
  }

  /** A submitted node: its id, its type and its config object. */
  datatype BNode = BNode(id: NodeId, nodeType: NodeType, config: Object)

  /** What the split service hands back: the two stored halves and their sizes. */
  datatype SplitOut = SplitOut(trainId: Value, testId: Value, trainSize: nat, testSize: nat)

  /** The arguments `run` passes to the model service. */
  datatype TrainRequest = TrainRequest(trainId: Value, testId: Value, modelType: Value,
                                       targetColumn: Value, featureColumns: Value, hyperparameters: Value)

  /** The services `run` calls, seen from outside: the dataset registry, the
      preprocessing, split and training work. A service that raises returns
      `Err` with the exception's text. */
  datatype Services = Services(
    hasDataset: Value -> bool,
    datasetInfo: Value -> Value,
    preprocess: (Value, Value) -> Result<Object, string>,
    split: (Value, Value, Value) -> Result<SplitOut, string>,
    train: TrainRequest -> Result<Value, string>)

  const UploadMissing := "Data Upload node is missing a valid dataset_id. Upload a file first."
  const PreprocessingNoInput := "Preprocessing node has no input dataset"
  const SplitNoInput := "Split node has no input dataset"
  const ModelNoInput := "Model node missing train/test inputs"
  const ResultsNoInput := "Results node has no model result"

  /** One node's work in `run`: the value recorded for the node and the updated
      run context, or the text of the exception it raises. */
  function Step(node: BNode, ctx: Object, svc: Services): Result<(Value, Object), string>
  {
    var config := node.config;
    match node.nodeType
    case DataUploadType =>
      var datasetId := Get(config, "dataset_id");
      if !PyTruthy(datasetId) || !svc.hasDataset(datasetId) then Err(UploadMissing)
      else
        Ok((Obj(map["dataset_id" := datasetId, "info" := svc.datasetInfo(datasetId)]),
            ctx["dataset_id" := datasetId]))
    case PreprocessingType =>
      var datasetId := Get(ctx, "dataset_id");
      if !PyTruthy(datasetId) then Err(PreprocessingNoInput)
      else
        (match svc.preprocess(datasetId, GetOr(config, "operations", Arr([])))
         case Err(m) => Err(m)
         case Ok(result) =>
           if "processed_dataset_id" !in result then Err("'processed_dataset_id'")
           else Ok((Obj(result), ctx["dataset_id" := result["processed_dataset_id"]])))
    case SplitType =>
      var datasetId := Get(ctx, "dataset_id");
      if !PyTruthy(datasetId) then Err(SplitNoInput)
      else
        (match svc.split(datasetId, GetOr(config, "test_size", Num(0.2)), GetOr(config, "random_state", Num(42.0)))
         case Err(m) => Err(m)
         case Ok(s) =>
           Ok((Obj(map["train_dataset_id" := s.trainId, "test_dataset_id" := s.testId,
                       "train_size" := Num(s.trainSize as real), "test_size" := Num(s.testSize as real)]),
               ctx["train_dataset_id" := s.trainId]["test_dataset_id" := s.testId])))
    case ModelType =>
      var trainId := Get(ctx, "train_dataset_id");
      var testId := Get(ctx, "test_dataset_id");
      if !PyTruthy(trainId) || !PyTruthy(testId) then Err(ModelNoInput)
      else
        var request := TrainRequest(trainId, testId,
          GetOr(config, "model_type", Str("logistic_regression")),
          Get(config, "target_column"),
          PyOr(Get(config, "feature_columns"), Arr([])),
          PyOr(Get(config, "hyperparameters"), Obj(map[])));
        (match svc.train(request)
         case Err(m) => Err(m)
         case Ok(result) => Ok((result, ctx["model_result" := result])))
    case ResultsType =>
      var modelResult := Get(ctx, "model_result");
      if !PyTruthy(modelResult) then Err(ResultsNoInput)
      else Ok((modelResult, ctx))
    case OtherType(shown) =>
      Err("Unknown node type: " + shown)
  }

  /** The input checks of each stage, with their messages; an unknown type is
      rejected; a stage that succeeds keeps what the context already held. */
  lemma StepChecks(node: BNode, ctx: Object, svc: Services)
    ensures var r := Step(node, ctx, svc);
      && (node.nodeType.OtherType? ==> r == Err("Unknown node type: " + node.nodeType.shown))
      && (node.nodeType == DataUploadType ==>
            (r.Ok? <==> PyTruthy(Get(node.config, "dataset_id")) && svc.hasDataset(Get(node.config, "dataset_id"))))
      && (node.nodeType == DataUploadType && r.Err? ==> r.error == UploadMissing)
      && (node.nodeType == PreprocessingType && !PyTruthy(Get(ctx, "dataset_id")) ==>
            r == Err(PreprocessingNoInput))
      && (node.nodeType == SplitType && !PyTruthy(Get(ctx, "dataset_id")) ==>
            r == Err(SplitNoInput))
      && ((node.nodeType == ModelType &&
            (!PyTruthy(Get(ctx, "train_dataset_id")) || !PyTruthy(Get(ctx, "test_dataset_id")))) ==>
            r == Err(ModelNoInput))
      && (node.nodeType == ResultsType ==> (r.Ok? <==> PyTruthy(Get(ctx, "model_result"))))
      && (node.nodeType == ResultsType && r.Ok? ==> r.value == (Get(ctx, "model_result"), ctx))
      && (node.nodeType == ResultsType && r.Err? ==> r.error == ResultsNoInput)
      && (r.Ok? ==> forall k :: k in ctx ==> k in r.value.1)
  {
  }

  /** At the head of a run the context is empty, so only a data-upload node
      can succeed there: every other stage finds its input missing. */
  lemma FirstNodeMustUpload(node: BNode, svc: Services)
    requires Step(node, map[], svc).Ok?
    ensures node.nodeType == DataUploadType
  {
  }

  /** Each stage that succeeds leaves in the context exactly the inputs the
      next stage of the chain checks for. */
  lemma StagesFeedTheNext(node: BNode, ctx: Object, svc: Services)
    requires Step(node, ctx, svc).Ok?
    ensures node.nodeType == DataUploadType ==> PyTruthy(Get(Step(node, ctx, svc).value.1, "dataset_id"))
    ensures node.nodeType == ModelType ==>
      Get(Step(node, ctx, svc).value.1, "model_result") == Step(node, ctx, svc).value.0
    ensures node.nodeType == PreprocessingType ==>
      "dataset_id" in Step(node, ctx, svc).value.1
    ensures node.nodeType == SplitType ==>
      "train_dataset_id" in Step(node, ctx, svc).value.1 && "test_dataset_id" in Step(node, ctx, svc).value.1
  {
  }

  // ---------------------------------------------------------------------------
  // The run loop, as a specification
  // ---------------------------------------------------------------------------

  /** The ids of the submitted nodes. */
  function Ids(nodes: seq<BNode>): set<NodeId> {
    set n | n in nodes :: n.id
  }

  /** `{n["id"]: n for n in nodes}`: a later node with the same id wins. */
  function NodeMap(nodes: seq<BNode>): (m: map<NodeId, BNode>)
    ensures m.Keys == Ids(nodes)
    ensures forall x :: x in m ==> m[x] in nodes && m[x].id == x
    decreases |nodes|
  {
    if nodes == [] then map[]
    else
      var init, last := nodes[..|nodes| - 1], nodes[|nodes| - 1];
      assert nodes == init + [last];
      IdsSnoc(init, last);
      NodeMap(init)[last.id := last]
  }

  lemma IdsSnoc(init: seq<BNode>, last: BNode)
    ensures Ids(init + [last]) == Ids(init) + {last.id}
    ensures forall n :: n in init ==> n in init + [last]
  {
    assert forall n :: n in init + [last] <==> n in init || n == last;
  }

  /** The last node with a given id is the one the map keeps. */
  lemma {:induction false} NodeMapLastWins(nodes: seq<BNode>, k: nat)
    requires k < |nodes|
    requires forall j :: k < j < |nodes| ==> nodes[j].id != nodes[k].id
    ensures NodeMap(nodes)[nodes[k].id] == nodes[k]
    decreases |nodes|
  {
    if k < |nodes| - 1 {
      assert nodes[..|nodes| - 1][k] == nodes[k];
      NodeMapLastWins(nodes[..|nodes| - 1], k);
    }
  }

  /** Where the run ended and what it left behind. */
  datatype RunOutcome = RunOutcome(status: string, error: Option<string>,
                                   nodeStatus: map<NodeId, string>, results: map<NodeId, Value>)

  /** The loop of `run` from position `i` of the topological order, with the
      cancellation flag first seen set before node `cancelAt`. */
  function RunFrom(ordered: seq<NodeId>, nodeMap: map<NodeId, BNode>, i: nat, ctx: Object,
                   svc: Services, cancelAt: nat,
                   nodeStatus: map<NodeId, string>, results: map<NodeId, Value>): (o: RunOutcome)
    requires i <= |ordered|
    requires forall t :: 0 <= t < |ordered| ==> ordered[t] in nodeMap
    ensures o.status == "success" || o.status == "cancelled" || o.status == "error"
    ensures o.error.Some? <==> o.status == "error"
    ensures nodeStatus.Keys <= o.nodeStatus.Keys && results.Keys <= o.results.Keys
    decreases |ordered| - i
  {
    if i == |ordered| then RunOutcome("success", None, nodeStatus, results)
    else
      var nid := ordered[i];
      if i >= cancelAt then RunOutcome("cancelled", None, nodeStatus[nid := "cancelled"], results)
      else
        var running := nodeStatus[nid := "running"];
        match Step(nodeMap[nid], ctx, svc)
        case Err(m) => RunOutcome("error", Some(m), running, results)
        case Ok((value, ctx')) =>
          RunFrom(ordered, nodeMap, i + 1, ctx', svc, cancelAt, running[nid := "success"], results[nid := value])
  }

  /** The position at which the run stops: the cancelled or failing node, or
      the end of the order when every node succeeds. */
  function StopAt(ordered: seq<NodeId>, nodeMap: map<NodeId, BNode>, i: nat, ctx: Object,
                  svc: Services, cancelAt: nat): (k: nat)
    requires i <= |ordered|
    requires forall t :: 0 <= t < |ordered| ==> ordered[t] in nodeMap
    ensures i <= k <= |ordered|
    decreases |ordered| - i
  {
    if i == |ordered| || i >= cancelAt then i
    else
      match Step(nodeMap[ordered[i]], ctx, svc)
      case Err(_) => i
      case Ok((_, ctx')) => StopAt(ordered, nodeMap, i + 1, ctx', svc, cancelAt)
  }

  /** How a run ends: "success" exactly when it reaches the end of the order;
      otherwise "cancelled" (that node too) exactly when the flag was seen at
      the stop, and "error" with the failing node left "running". */
  lemma {:induction false} RunStatus(ordered: seq<NodeId>, nodeMap: map<NodeId, BNode>, i: nat, ctx: Object,
                                     svc: Services, cancelAt: nat,
                                     nodeStatus: map<NodeId, string>, results: map<NodeId, Value>)
    requires i <= |ordered|
    requires forall t :: 0 <= t < |ordered| ==> ordered[t] in nodeMap
    ensures var o := RunFrom(ordered, nodeMap, i, ctx, svc, cancelAt, nodeStatus, results);
      var k := StopAt(ordered, nodeMap, i, ctx, svc, cancelAt);
      && (o.status == "success" <==> k == |ordered|)
      && (o.status == "success" ==> o.error.None?)
      && (k < |ordered| ==> ordered[k] in o.nodeStatus && (o.status == "cancelled" <==> k >= cancelAt))
      && (o.status == "cancelled" ==> o.nodeStatus[ordered[k]] == "cancelled" && o.error.None?)
      && (k < |ordered| && k < cancelAt ==>
            o.status == "error" && o.nodeStatus[ordered[k]] == "running" && o.error.Some?)
    decreases |ordered| - i
  {
    if i < |ordered| && i < cancelAt {
      var nid := ordered[i];
      var running := nodeStatus[nid := "running"];
      match Step(nodeMap[nid], ctx, svc)
      case Err(_) =>
      case Ok((value, ctx')) =>
        RunStatus(ordered, nodeMap, i + 1, ctx', svc, cancelAt, running[nid := "success"], results[nid := value]);
    }
  }

  /** Every node the run passes before its stop ends "success" with a result. */
  lemma {:induction false} RunPrefixSucceeds(ordered: seq<NodeId>, nodeMap: map<NodeId, BNode>, i: nat, ctx: Object,
                                             svc: Services, cancelAt: nat,
                                             nodeStatus: map<NodeId, string>, results: map<NodeId, Value>, t: nat)
    requires i <= |ordered| && Distinct(ordered)
    requires forall t :: 0 <= t < |ordered| ==> ordered[t] in nodeMap
    requires i <= t < StopAt(ordered, nodeMap, i, ctx, svc, cancelAt)
    ensures var o := RunFrom(ordered, nodeMap, i, ctx, svc, cancelAt, nodeStatus, results);
      ordered[t] in o.nodeStatus && o.nodeStatus[ordered[t]] == "success" && ordered[t] in o.results
    decreases |ordered| - i
  {
    var nid := ordered[i];
    var running := nodeStatus[nid := "running"];
    match Step(nodeMap[nid], ctx, svc)
    case Err(_) =>
    case Ok((value, ctx')) =>
      var ns, rs := running[nid := "success"], results[nid := value];
      if t == i {
        RunKeeps(ordered, nodeMap, i + 1, ctx', svc, cancelAt, ns, rs, nid);
      } else {
        RunPrefixSucceeds(ordered, nodeMap, i + 1, ctx', svc, cancelAt, ns, rs, t);
      }
  }

  /** A run from `i` leaves the status and result of every node outside
      `ordered[i..]` as it found them. */
  lemma {:induction false} RunKeeps(ordered: seq<NodeId>, nodeMap: map<NodeId, BNode>, i: nat, ctx: Object,
                                    svc: Services, cancelAt: nat,
                                    nodeStatus: map<NodeId, string>, results: map<NodeId, Value>, x: NodeId)
    requires i <= |ordered|
    requires forall t :: 0 <= t < |ordered| ==> ordered[t] in nodeMap
    requires x !in ordered[i..]
    ensures var o := RunFrom(ordered, nodeMap, i, ctx, svc, cancelAt, nodeStatus, results);
      && (x in o.nodeStatus <==> x in nodeStatus) && (x in nodeStatus ==> o.nodeStatus[x] == nodeStatus[x])
      && (x in o.results <==> x in results) && (x in results ==> o.results[x] == results[x])
    decreases |ordered| - i
  {
    if i < |ordered| && i < cancelAt {
      var nid := ordered[i];
      var running := nodeStatus[nid := "running"];
      assert ordered[i..] == [nid] + ordered[i + 1..];
      match Step(nodeMap[nid], ctx, svc)
      case Err(_) =>
      case Ok((value, ctx')) =>
        RunKeeps(ordered, nodeMap, i + 1, ctx', svc, cancelAt, running[nid := "success"], results[nid := value], x);
    }
  }

  /** Nothing after the stop changes: the nodes the run never reaches keep
      their status (a cancelled run marks only the node it stopped at). */
  lemma {:induction false} RunLeavesRest(ordered: seq<NodeId>, nodeMap: map<NodeId, BNode>, i: nat, ctx: Object,
                                         svc: Services, cancelAt: nat,
                                         nodeStatus: map<NodeId, string>, results: map<NodeId, Value>, t: nat)
    requires i <= |ordered| && Distinct(ordered)
    requires forall t :: 0 <= t < |ordered| ==> ordered[t] in nodeMap
    requires StopAt(ordered, nodeMap, i, ctx, svc, cancelAt) < t < |ordered|
    ensures var o := RunFrom(ordered, nodeMap, i, ctx, svc, cancelAt, nodeStatus, results);
      && (ordered[t] in o.nodeStatus <==> ordered[t] in nodeStatus)
      && (ordered[t] in nodeStatus ==> o.nodeStatus[ordered[t]] == nodeStatus[ordered[t]])
    decreases |ordered| - i
  {
    if i < |ordered| && i < cancelAt {
      var nid := ordered[i];
      var running := nodeStatus[nid := "running"];
      match Step(nodeMap[nid], ctx, svc)
      case Err(_) =>
      case Ok((value, ctx')) =>
        RunLeavesRest(ordered, nodeMap, i + 1, ctx', svc, cancelAt, running[nid := "success"], results[nid := value], t);
    }
  }

  // ---------------------------------------------------------------------------
  // The execution record
  // ---------------------------------------------------------------------------

  /** The node statuses `execute` starts with: every node with a truthy
      (non-empty) id is "queued". */
  function QueuedStatus(nodes: seq<BNode>): (m: map<NodeId, string>)
    ensures m.Keys == Ids(nodes) - {""}
    ensures forall x :: x in m ==> m[x] == "queued"
    decreases |nodes|
  {
    if nodes == [] then map[]
    else
      var last := nodes[|nodes| - 1];
      var m := QueuedStatus(nodes[..|nodes| - 1]);
      assert nodes == nodes[..|nodes| - 1] + [last];
      assert Ids(nodes) == Ids(nodes[..|nodes| - 1]) + {last.id};
      if last.id != "" then m[last.id := "queued"] else m
  }

  /** One run's record, shared between the request that started it, the
      worker that runs it and the requests that poll or cancel it. */
  class ExecutionState {
    var executionId: string
    var status: string
    var message: string
    var resultsPerNode: map<NodeId, Value>
    var nodeStatus: map<NodeId, string>
    var cancelRequested: bool

    /** `execute`: a queued record whose nodes with an id are all "queued". */
    constructor (executionId: string, nodes: seq<BNode>)
      ensures this.executionId == executionId && status == "queued" && message == ""
      ensures resultsPerNode == map[] && !cancelRequested
      ensures nodeStatus == QueuedStatus(nodes)
    {
      this.executionId := executionId;
      status := "queued";
      message := "";
      resultsPerNode := map[];
      cancelRequested := false;
      var statuses: map<NodeId, string> := map[];
      var k := 0;
      while k < |nodes|
        invariant 0 <= k <= |nodes|
        invariant statuses == QueuedStatus(nodes[..k])
      {
        assert nodes[..k + 1][..k] == nodes[..k];
        if nodes[k].id != "" {
          statuses := statuses[nodes[k].id := "queued"];
        }
        k := k + 1;
      }
      assert nodes[..|nodes|] == nodes;
      nodeStatus := statuses;
    }

    /** The loop of `run` over a topological order. The cancellation flag is
        set by another request while the loop runs; `cancelFrom` is the first
        position at which the loop sees it (a flag already set counts from 0). */
    method RunNodes(ordered: seq<NodeId>, nodeMap: map<NodeId, BNode>, svc: Services, cancelFrom: nat)
      requires forall t :: 0 <= t < |ordered| ==> ordered[t] in nodeMap
      modifies this`status, this`message, this`nodeStatus, this`resultsPerNode
      ensures var o := RunFrom(ordered, nodeMap, 0, map[], svc,
                               if cancelRequested then 0 else cancelFrom,
                               old(nodeStatus), old(resultsPerNode));
        && status == o.status && nodeStatus == o.nodeStatus && resultsPerNode == o.results
        && message == (if o.error.Some? then o.error.value else old(message))
    {
      var cancelAt := if cancelRequested then 0 else cancelFrom;
      ghost var goal := RunFrom(ordered, nodeMap, 0, map[], svc, cancelAt, nodeStatus, resultsPerNode);
      var context: Object := map[];
      var i := 0;
      while i < |ordered|
        invariant 0 <= i <= |ordered|
        invariant RunFrom(ordered, nodeMap, i, context, svc, cancelAt, nodeStatus, resultsPerNode) == goal
        invariant message == old(message)
      {
        var nid := ordered[i];
        if cancelRequested || i >= cancelFrom {
          status := "cancelled";
          nodeStatus := nodeStatus[nid := "cancelled"];
          return;
        }
        var node := nodeMap[nid];
        nodeStatus := nodeStatus[nid := "running"];
        var outcome := Step(node, context, svc);
        if outcome.Err? {
          status := "error";
          message := outcome.error;
          return;
        }
        var (value, context') := outcome.value;
        resultsPerNode := resultsPerNode[nid := value];
        context := context';
        nodeStatus := nodeStatus[nid := "success"];
        i := i + 1;
      }
      status := "success";
    }

    /** The worker's `run`: mark the record running, order the nodes, and run
        them; a cycle among the submitted nodes ends the run in "error" with
        the ordering's message. `order` is the iteration order of the set of
        submitted ids. */
    method Run(nodes: seq<BNode>, edges: seq<BEdge>, order: seq<NodeId>, svc: Services, cancelFrom: nat)
      requires Distinct(order)
      requires forall x :: x in order <==> x in Ids(nodes)
      modifies this`status, this`message, this`nodeStatus, this`resultsPerNode
      ensures HasCycle(Retained(order, edges)) ==>
        status == "error" && message == "Pipeline has cycles or disconnected nodes"
        && nodeStatus == old(nodeStatus) && resultsPerNode == old(resultsPerNode)
      ensures !HasCycle(Retained(order, edges)) ==>
        exists ordered ::
          && IsTopologicalOrder(ordered, order, edges)
          && (forall t :: 0 <= t < |ordered| ==> ordered[t] in NodeMap(nodes))
          && var o := RunFrom(ordered, NodeMap(nodes), 0, map[], svc,
                              if cancelRequested then 0 else cancelFrom,
                              old(nodeStatus), old(resultsPerNode));
             status == o.status && nodeStatus == o.nodeStatus && resultsPerNode == o.results
             && message == (if o.error.Some? then o.error.value else old(message))
    {
      status := "running";
      var sorted := Toposort(order, edges);
      if sorted.Err? {
        status := "error";
        message := sorted.error;
        return;
      }
      var nodeMap := NodeMap(nodes);
      assert forall t :: 0 <= t < |sorted.value| ==> sorted.value[t] in order;
      assert IsTopologicalOrder(sorted.value, order, edges);
      RunNodes(sorted.value, nodeMap, svc, cancelFrom);
    }
  }

  /** `ordered` lists the submitted ids once each, and every edge between
      submitted nodes goes forward in it. */
  ghost predicate IsTopologicalOrder(ordered: seq<NodeId>, order: seq<NodeId>, edges: seq<BEdge>) {
    && Distinct(ordered) && |ordered| == |order|
    && (forall x :: x in ordered <==> x in order)
    && (forall e :: e in edges && e.source in order && e.target in order ==> Precedes(ordered, e.source, e.target))
  }

  /** The shared registry of execution records. */
  class Executions {
    var records: map<string, ExecutionState>

    constructor ()
      ensures records == map[]
    {
      records := map[];
    }

    /** `execute`: register a fresh queued record under a fresh id and answer
        with that id and the record's status. */
    method Execute(nodes: seq<BNode>, freshId: string) returns (executionId: string, status: string)
      modifies this`records
      ensures executionId == freshId && status == "queued"
      ensures freshId in records && fresh(records[freshId])
      ensures records.Keys == old(records).Keys + {freshId}
      ensures var st := records[freshId];
        && st.executionId == freshId && st.status == "queued" && st.message == ""
        && st.resultsPerNode == map[] && !st.cancelRequested && st.nodeStatus == QueuedStatus(nodes)
      ensures forall id :: id in old(records) && id != freshId ==> id in records && records[id] == old(records)[id]
    {
      var st := new ExecutionState(freshId, nodes);
      records := records[freshId := st];
      executionId, status := freshId, st.status;
    }

    /** `cancel`: an unknown id is a 404 with "Execution not found"; otherwise
        the record's flag is raised and the answer is "cancelling". */
    method Cancel(executionId: string) returns (r: Result<(string, string), string>)
      modifies if executionId in records then {records[executionId]} else {}
      ensures executionId !in records ==> r == Err("Execution not found")
      ensures executionId in records ==>
        r == Ok((records[executionId].executionId, "cancelling")) && records[executionId].cancelRequested
      ensures executionId in records ==>
        records[executionId].status == old(records[executionId].status)
        && records[executionId].nodeStatus == old(records[executionId].nodeStatus)
        && records[executionId].message == old(records[executionId].message)
        && records[executionId].resultsPerNode == old(records[executionId].resultsPerNode)
        && records[executionId].executionId == old(records[executionId].executionId)
      ensures records == old(records)
    {
      if executionId !in records {
        return Err("Execution not found");
      }
      var st := records[executionId];
      st.cancelRequested := true;
      r := Ok((st.executionId, "cancelling"));
    }
  }

  /** A run registered by `execute` and cancelled before its worker starts:
      the record is still queued, with no message and no results, and its
      flag is raised, so the worker cancels at the first node. */
  method ExecuteThenCancel(ex: Executions, nodes: seq<BNode>, freshId: string)
    returns (answer: Result<(string, string), string>)
    modifies ex
    ensures answer == Ok((freshId, "cancelling"))
    ensures freshId in ex.records
    ensures var st := ex.records[freshId];
      && st.executionId == freshId && st.status == "queued" && st.message == ""
      && st.resultsPerNode == map[] && st.cancelRequested && st.nodeStatus == QueuedStatus(nodes)
  {
    var id, status := ex.Execute(nodes, freshId);
    answer := ex.Cancel(id);
  }
}
