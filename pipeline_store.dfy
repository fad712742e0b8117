// The client-side pipeline state engine: the node and edge lists, one tagged
// config per node with single-slot undo, the submission payload, and the
// execution state machine (submit, poll, cancel).
module PipelineStore {
  import opened Base
  import opened Json
  import opened Api

  type NodeId = string

  datatype NodeKind = DataUpload | Preprocessing | TrainTestSplit | Model | Results

  /** The string tag the source uses for a kind (node `type`, config `kind`). */
  function KindName(k: NodeKind): string {
    match k
    case DataUpload => "dataUpload"
    case Preprocessing => "preprocessing"
    case TrainTestSplit => "trainTestSplit"
    case Model => "model"
    case Results => "results"
  }

  datatype Position = Position(x: real, y: real)
  datatype NodeData = NodeData(kind: NodeKind, labelText: string)
  datatype Node = Node(id: NodeId, nodeType: NodeKind, position: Position, data: NodeData)
  datatype Edge = Edge(source: NodeId, target: NodeId)

  /** A config tagged with the kind of its node; the payload is an untyped object. */
  datatype NodeConfig = NodeConfig(kind: NodeKind, config: Object)

  // ---------------------------------------------------------------------------
  // Pure helpers
  // ---------------------------------------------------------------------------

  /** The config a freshly added node starts with. */
  function DefaultConfig(kind: NodeKind): (c: NodeConfig)
    ensures c.kind == kind
    ensures kind == DataUpload || kind == Results ==> c.config == map[]
    ensures kind == Preprocessing ==>
      Get(c.config, "standardization") == Bool(false) && Get(c.config, "normalization") == Bool(false)
      && Get(c.config, "columns") == Arr([])
    ensures kind == TrainTestSplit ==>
      Get(c.config, "test_size") == Num(0.2) && Get(c.config, "random_state") == Num(42.0)
    ensures kind == Model ==>
      Get(c.config, "model_type") == Str("logistic_regression") && Get(c.config, "target_column") == Undefined
      && Get(c.config, "feature_columns") == Arr([])
      && Get(c.config, "hyperparameters") == Obj(map["max_iter" := Num(200.0), "C" := Num(1.0)])
  {
    match kind
    case DataUpload => NodeConfig(kind, map[])
    case Preprocessing =>
      NodeConfig(kind, map["standardization" := Bool(false), "normalization" := Bool(false), "columns" := Arr([])])
    case TrainTestSplit => NodeConfig(kind, map["test_size" := Num(0.2), "random_state" := Num(42.0)])
    case Model =>
      NodeConfig(kind, map[
        "model_type" := Str("logistic_regression"),
        "feature_columns" := Arr([]),
        "hyperparameters" := Obj(map["max_iter" := Num(200.0), "C" := Num(1.0)])])
    case Results => NodeConfig(kind, map[])
  }

  /** The display label of a new node. */
  function LabelFor(kind: NodeKind): (r: string)
    ensures r != ""
  {
    match kind
    case DataUpload => "CSV / Excel Import"
    case Preprocessing => "Preprocessing"
    case TrainTestSplit => "Train / Test Split"
    case Model => "Model"
    case Results => "Results"
  }

  // ---------------------------------------------------------------------------
  // Submission payload
  // ---------------------------------------------------------------------------

  datatype SubmittedNode = SubmittedNode(id: NodeId, nodeType: string, config: Object)
  datatype WireEdge = WireEdge(source: NodeId, target: NodeId)
  datatype Submission = Submission(nodes: seq<SubmittedNode>, connections: seq<WireEdge>)

  function Operation(opType: string, columns: Value): Value {
    Obj(map["type" := Str(opType), "columns" := columns])
  }

  /** One operation per enabled flag, standardization before normalization. */
  function PreprocessingOperations(c: Object): (ops: seq<Value>)
    ensures |ops| == (if JsTruthy(Get(c, "standardization")) then 1 else 0)
                     + (if JsTruthy(Get(c, "normalization")) then 1 else 0)
    ensures JsTruthy(Get(c, "standardization")) ==> ops[0] == Operation("standardization", Get(c, "columns"))
    ensures JsTruthy(Get(c, "normalization")) ==> ops[|ops| - 1] == Operation("normalization", Get(c, "columns"))
  {
    (if JsTruthy(Get(c, "standardization")) then [Operation("standardization", Get(c, "columns"))] else [])
    + (if JsTruthy(Get(c, "normalization")) then [Operation("normalization", Get(c, "columns"))] else [])
  }

  /** The config fields that a node of each kind (other than preprocessing) submits. */
  function SubmittedFields(kind: NodeKind): set<string> {
    match kind
    case DataUpload => {"dataset_id"}
    case Preprocessing => {"operations"}
    case TrainTestSplit => {"test_size", "random_state"}
    case Model => {"model_type", "target_column", "feature_columns", "hyperparameters"}
    case Results => {}
  }

  /** The backend descriptor of one node: its id, its kind as a string, and
      its config projected onto the fields the backend reads. The shape
      follows the config's tag; preprocessing flags become `operations`. */
  function MakeBackendNodePayload(node: Node, cfg: NodeConfig): (r: SubmittedNode)
    ensures r.id == node.id && r.nodeType == KindName(node.data.kind)
    ensures r.config.Keys == SubmittedFields(cfg.kind)
    ensures cfg.kind != Preprocessing ==> forall k :: k in r.config ==> r.config[k] == Get(cfg.config, k)
    ensures cfg.kind == Preprocessing ==> r.config["operations"] == Arr(PreprocessingOperations(cfg.config))
  {
    var c := cfg.config;
    var payload :=
      match cfg.kind
      case DataUpload => map["dataset_id" := Get(c, "dataset_id")]
      case Preprocessing => map["operations" := Arr(PreprocessingOperations(c))]
      case TrainTestSplit => map["test_size" := Get(c, "test_size"), "random_state" := Get(c, "random_state")]
      case Model => map[
        "model_type" := Get(c, "model_type"),
        "target_column" := Get(c, "target_column"),
        "feature_columns" := Get(c, "feature_columns"),
        "hyperparameters" := Get(c, "hyperparameters")]
      case Results => map[];
    SubmittedNode(node.id, KindName(node.data.kind), payload)
  }

  /** The body of the execute request: one entry per node in node order
      (`{config: {}}` for a node without a config) and every edge as a
      (source, target) pair. */
  function SubmissionFor(nodes: seq<Node>, edges: seq<Edge>, configs: map<NodeId, NodeConfig>): (r: Submission)
    ensures |r.nodes| == |nodes| && |r.connections| == |edges|
    ensures forall i :: 0 <= i < |nodes| ==>
      r.nodes[i].id == nodes[i].id && r.nodes[i].nodeType == KindName(nodes[i].data.kind)
    ensures forall i :: 0 <= i < |nodes| && nodes[i].id !in configs ==> r.nodes[i].config == map[]
    ensures forall i :: 0 <= i < |nodes| && nodes[i].id in configs ==>
      r.nodes[i] == MakeBackendNodePayload(nodes[i], configs[nodes[i].id])
    ensures forall i :: 0 <= i < |edges| ==>
      r.connections[i].source == edges[i].source && r.connections[i].target == edges[i].target
  {
    var payloadNodes := seq(|nodes|, i requires 0 <= i < |nodes| =>
      if nodes[i].id in configs then MakeBackendNodePayload(nodes[i], configs[nodes[i].id])
      else SubmittedNode(nodes[i].id, KindName(nodes[i].data.kind), map[]));
    var connections := seq(|edges|, i requires 0 <= i < |edges| => WireEdge(edges[i].source, edges[i].target));
    Submission(payloadNodes, connections)
  }

  /** A preprocessing node with neither flag set submits no operations, so a
      freshly added preprocessing node is a no-op on the backend. */
  lemma DefaultPreprocessingSubmitsNoOperations(node: Node)
    ensures MakeBackendNodePayload(node, DefaultConfig(Preprocessing)).config["operations"] == Arr([])
  {
  }

  /** The scenario of a data node A feeding a preprocessing node B whose
      config has standardization on and columns ["x"]: B submits exactly one
      standardization operation over ["x"]. */
  lemma StandardizationOnlyScenario(a: Node, b: Node)
    requires a.id != b.id && a.data.kind == DataUpload && b.data.kind == Preprocessing
    ensures var cfgB := MergeConfig(DefaultConfig(Preprocessing),
                                    map["standardization" := Bool(true), "columns" := Arr([Str("x")])]);
      var sub := SubmissionFor([a, b], [Edge(a.id, b.id)],
                               map[a.id := DefaultConfig(DataUpload), b.id := cfgB]);
      sub.nodes[1].config == map["operations" := Arr([Operation("standardization", Arr([Str("x")]))])]
      && sub.connections == [WireEdge(a.id, b.id)]
  {
    var cfgB := MergeConfig(DefaultConfig(Preprocessing),
                            map["standardization" := Bool(true), "columns" := Arr([Str("x")])]);
    assert Get(cfgB.config, "normalization") == Bool(false);
    assert PreprocessingOperations(cfgB.config) == [Operation("standardization", Arr([Str("x")]))];
  }

  // ---------------------------------------------------------------------------
  // Configs with single-slot undo, as values
  // ---------------------------------------------------------------------------

  /** The config map and the undo map of the store. An undo slot holds the
      payload saved by the last snapshot, or nothing (`null`). */
  datatype ConfigStore = ConfigStore(configs: map<NodeId, NodeConfig>, undo: map<NodeId, Option<Object>>)

  /** `Object.assign(config, patch)` on a copy: a shallow merge. */
  function MergeConfig(c: NodeConfig, patch: Object): (r: NodeConfig)
    ensures r.kind == c.kind
    ensures r.config.Keys == c.config.Keys + patch.Keys
    ensures forall k :: k in patch ==> r.config[k] == patch[k]
    ensures forall k :: k in c.config && k !in patch ==> r.config[k] == c.config[k]
  {
    NodeConfig(c.kind, c.config + patch)
  }

  /** updateNodeConfig: merge the patch into one node's config, or do nothing
      when that node has no config. */
  function UpdateConfig(s: ConfigStore, id: NodeId, patch: Object): (r: ConfigStore)
    ensures r.undo == s.undo && r.configs.Keys == s.configs.Keys
    ensures forall n :: n in s.configs && n != id ==> r.configs[n] == s.configs[n]
    ensures id in s.configs ==> r.configs[id] == MergeConfig(s.configs[id], patch)
    ensures id !in s.configs ==> r == s
  {
    if id in s.configs then s.(configs := s.configs[id := MergeConfig(s.configs[id], patch)]) else s
  }

  /** replaceNodeConfig: swap one node's payload wholesale, keeping its kind. */
  function ReplaceConfig(s: ConfigStore, id: NodeId, payload: Object): (r: ConfigStore)
    ensures r.undo == s.undo && r.configs.Keys == s.configs.Keys
    ensures forall n :: n in s.configs ==> r.configs[n].kind == s.configs[n].kind
    ensures forall n :: n in s.configs && n != id ==> r.configs[n] == s.configs[n]
    ensures id in s.configs ==> r.configs[id].config == payload
    ensures id !in s.configs ==> r == s
  {
    if id in s.configs then s.(configs := s.configs[id := NodeConfig(s.configs[id].kind, payload)]) else s
  }

  /** takeUndoSnapshot: save the current payload in the node's slot,
      overwriting whatever was there. */
  function TakeSnapshot(s: ConfigStore, id: NodeId): (r: ConfigStore)
    ensures r.configs == s.configs
    ensures id in s.configs ==> r.undo.Keys == s.undo.Keys + {id} && r.undo[id] == Some(s.configs[id].config)
    ensures forall n :: n in s.undo && n != id ==> n in r.undo && r.undo[n] == s.undo[n]
    ensures id !in s.configs ==> r == s
  {
    if id in s.configs then s.(undo := s.undo[id := Some(s.configs[id].config)]) else s
  }

  predicate HasSnapshot(s: ConfigStore, id: NodeId) {
    id in s.undo && s.undo[id].Some?
  }

  /** undoLastApply: restore the saved payload and empty the slot; nothing
      happens when the slot is missing or empty. */
  function UndoLastApply(s: ConfigStore, id: NodeId): (r: ConfigStore)
    ensures !HasSnapshot(s, id) ==> r == s
    ensures HasSnapshot(s, id) ==> r.undo.Keys == s.undo.Keys && r.undo[id] == None && !HasSnapshot(r, id)
    ensures r.configs.Keys == s.configs.Keys
    ensures HasSnapshot(s, id) && id in s.configs ==> r.configs[id].config == s.undo[id].value
    ensures forall n :: n in s.configs ==> r.configs[n].kind == s.configs[n].kind
    ensures forall n :: n in s.configs && n != id ==> r.configs[n] == s.configs[n]
    ensures forall n :: n in s.undo && n != id ==> r.undo[n] == s.undo[n]
  {
    if HasSnapshot(s, id) then
      var restored := ReplaceConfig(s, id, s.undo[id].value);
      restored.(undo := restored.undo[id := None])
    else s
  }

  /** An edit of a committed config between a snapshot and an undo. */
  datatype Edit = Update(patch: Object) | Replace(payload: Object)

  function ApplyEdit(s: ConfigStore, id: NodeId, e: Edit): ConfigStore {
    match e
    case Update(p) => UpdateConfig(s, id, p)
    case Replace(p) => ReplaceConfig(s, id, p)
  }

  /** Any run of edits on one node leaves the undo slots, the other nodes'
      configs and every node's kind alone. */
  function ApplyEdits(s: ConfigStore, id: NodeId, edits: seq<Edit>): (r: ConfigStore)
    ensures r.undo == s.undo && r.configs.Keys == s.configs.Keys
    ensures forall n :: n in s.configs ==> r.configs[n].kind == s.configs[n].kind
    ensures forall n :: n in s.configs && n != id ==> r.configs[n] == s.configs[n]
    decreases |edits|
  {
    if edits == [] then s else ApplyEdits(ApplyEdit(s, id, edits[0]), id, edits[1..])
  }

  /** Snapshot, any edits, undo: the configs are back to what they were
      before the snapshot, and the slot is empty. */
  lemma {:induction false} UndoRevertsEdits(s: ConfigStore, id: NodeId, edits: seq<Edit>)
    requires id in s.configs
    ensures var u := UndoLastApply(ApplyEdits(TakeSnapshot(s, id), id, edits), id);
      u.configs == s.configs && u.undo == s.undo[id := None]
  {
    var t := TakeSnapshot(s, id);
    var e := ApplyEdits(t, id, edits);
    var u := UndoLastApply(e, id);
    assert HasSnapshot(e, id);
    assert u.configs[id] == NodeConfig(s.configs[id].kind, s.configs[id].config);
    assert u.configs == s.configs;
  }

  /** A second undo right after the first changes nothing. */
  lemma {:induction false} UndoIsOneShot(s: ConfigStore, id: NodeId)
    ensures UndoLastApply(UndoLastApply(s, id), id) == UndoLastApply(s, id)
  {
  }

  /** A second snapshot replaces the first: undo only reaches back one Apply. */
  lemma {:induction false} SnapshotOverwrites(s: ConfigStore, id: NodeId, edits: seq<Edit>)
    requires id in s.configs
    ensures var t := TakeSnapshot(ApplyEdits(TakeSnapshot(s, id), id, edits), id);
      t.undo[id] == Some(ApplyEdits(TakeSnapshot(s, id), id, edits).configs[id].config)
  {
  }

  // ---------------------------------------------------------------------------
  // Execution snapshots
  // ---------------------------------------------------------------------------

  /** The status document the backend returns for a poll. A missing
      `node_status` or `results_per_node` reads as `None`. */
  datatype ExecutionSnapshot = ExecutionSnapshot(
    status: string,
    message: Option<string>,
    nodeStatus: Option<map<NodeId, string>>,
    resultsPerNode: Option<map<NodeId, Value>>)

  /** Statuses under which the run is still in progress. */
  predicate IsActiveStatus(status: string) {
    status == "running" || status == "queued"
  }

  /** The payload that an upload merges into a data node's config. */
  datatype UploadResponse = UploadResponse(datasetId: Value, info: Value)
  datatype SampleResponse = SampleResponse(datasetId: Value, info: Value, fileName: Value)

  function UploadPatch(fileName: Value, datasetId: Value, info: Value): Object {
    map["fileName" := fileName, "dataset_id" := datasetId, "info" := info]
  }

  function NodeIdSet(nodes: seq<Node>): set<NodeId> {
    set n | n in nodes :: n.id
  }

  predicate UniqueIds(nodes: seq<Node>) {
    forall i, j :: 0 <= i < j < |nodes| ==> nodes[i].id != nodes[j].id
  }

  function WithoutNode(nodes: seq<Node>, id: NodeId): seq<Node> {
    Filter(nodes, (n: Node) => n.id != id)
  }

  function WithoutIncident(edges: seq<Edge>, id: NodeId): seq<Edge> {
    Filter(edges, (e: Edge) => e.source != id && e.target != id)
  }

  lemma {:induction false} WithoutNodeFacts(nodes: seq<Node>, id: NodeId)
    ensures forall n :: n in WithoutNode(nodes, id) <==> n in nodes && n.id != id
    ensures NodeIdSet(WithoutNode(nodes, id)) == NodeIdSet(nodes) - {id}
    ensures UniqueIds(nodes) ==> UniqueIds(WithoutNode(nodes, id))
  {
    var r := WithoutNode(nodes, id);
    forall n ensures n in r <==> n in nodes && n.id != id {
      if n in r {
        var i :| 0 <= i < |r| && r[i] == n;
      }
      if n in nodes && n.id != id {
        var i :| 0 <= i < |nodes| && nodes[i] == n;
      }
    }
    if UniqueIds(nodes) {
      UniqueIdsFilter(nodes, (n: Node) => n.id != id);
    }
  }

  lemma {:induction false} UniqueIdsFilter(nodes: seq<Node>, p: Node -> bool)
    requires UniqueIds(nodes)
    ensures UniqueIds(Filter(nodes, p))
  {
    if nodes != [] {
      UniqueIdsFilter(nodes[1..], p);
      var rest := Filter(nodes[1..], p);
      forall i | 0 <= i < |rest| ensures rest[i].id != nodes[0].id {
        var j :| 0 <= j < |nodes[1..]| && nodes[1..][j] == rest[i];
        assert nodes[j + 1] == rest[i];
      }
    }
  }

  lemma {:induction false} WithoutIncidentFacts(edges: seq<Edge>, id: NodeId)
    ensures forall e :: e in WithoutIncident(edges, id) <==> e in edges && e.source != id && e.target != id
  {
    var r := WithoutIncident(edges, id);
    forall e ensures e in r <==> e in edges && e.source != id && e.target != id {
      if e in r {
        var i :| 0 <= i < |r| && r[i] == e;
      }
      if e in edges && e.source != id && e.target != id {
        var i :| 0 <= i < |edges| && edges[i] == e;
      }
    }
  }

  // ---------------------------------------------------------------------------
  // The store
  // ---------------------------------------------------------------------------

  class Store {
    var nodes: seq<Node>
    var edges: seq<Edge>
    var configs: map<NodeId, NodeConfig>
    var undo: map<NodeId, Option<Object>>
    var selectedNodeId: Option<NodeId>

    var isExecuting: bool
    var executionId: Option<string>
    var nodeStatus: map<NodeId, string>
    var resultsPerNode: map<NodeId, Value>
    var executionStatus: Option<string>
    var executionMessage: Option<string>

    /** Every node has exactly one config and one undo slot, tagged with its
        kind; node ids are unique; edges join existing nodes. */
    ghost predicate Consistent()
      reads this
    {
      && UniqueIds(nodes)
      && configs.Keys == NodeIdSet(nodes)
      && undo.Keys == configs.Keys
      && (forall n :: n in nodes ==> n.id in configs && configs[n.id].kind == n.data.kind && n.nodeType == n.data.kind)
      && (forall e :: e in edges ==> e.source in configs && e.target in configs)
    }

    function Configs(): ConfigStore
      reads this
    {
      ConfigStore(configs, undo)
    }

    /** `!executionId` is false: an execution is being tracked. */
    predicate HasExecution()
      reads this
    {
      executionId.Some? && executionId.value != ""
    }

    /** The execution fields show exactly what the snapshot reported. */
    ghost predicate Shows(snap: ExecutionSnapshot)
      reads this
    {
      && nodeStatus == snap.nodeStatus.GetOr(map[])
      && resultsPerNode == snap.resultsPerNode.GetOr(map[])
      && isExecuting == IsActiveStatus(snap.status)
      && executionStatus == Some(snap.status)
      && executionMessage == snap.message
    }

    ghost predicate Idle()
      reads this
    {
      && !isExecuting && executionId == None && nodeStatus == map[] && resultsPerNode == map[]
      && executionStatus == None && executionMessage == None
    }

    constructor()
      ensures nodes == [] && edges == [] && configs == map[] && undo == map[] && selectedNodeId == None
      ensures Idle() && Consistent()
    {
      nodes, edges, configs, undo, selectedNodeId := [], [], map[], map[], None;
      isExecuting, executionId, nodeStatus, resultsPerNode := false, None, map[], map[];
      executionStatus, executionMessage := None, None;
    }

    method SetSelectedNodeId(id: Option<NodeId>)
      modifies this`selectedNodeId
      ensures selectedNodeId == id
    {
      selectedNodeId := id;
    }

    /** Removes the node, every edge touching it, its config and its undo
        slot in one step; clears the selection iff it was this node. */
    method DeleteNode(nodeId: NodeId)
      modifies this`nodes, this`edges, this`configs, this`undo, this`selectedNodeId
      ensures nodes == WithoutNode(old(nodes), nodeId)
      ensures edges == WithoutIncident(old(edges), nodeId)
      ensures configs == old(configs) - {nodeId} && undo == old(undo) - {nodeId}
      ensures selectedNodeId == if old(selectedNodeId) == Some(nodeId) then None else old(selectedNodeId)
      ensures forall n :: n in nodes ==> n.id != nodeId
      ensures forall e :: e in edges ==> e.source != nodeId && e.target != nodeId
      ensures old(Consistent()) ==> Consistent()
    {
      WithoutNodeFacts(nodes, nodeId);
      WithoutIncidentFacts(edges, nodeId);
      nodes := WithoutNode(nodes, nodeId);
      edges := WithoutIncident(edges, nodeId);
      configs := configs - {nodeId};
      undo := undo - {nodeId};
      selectedNodeId := if selectedNodeId == Some(nodeId) then None else selectedNodeId;
    }

    /** Removes only the edges that touch the node. */
    method DisconnectNode(nodeId: NodeId)
      modifies this`edges
      ensures edges == WithoutIncident(old(edges), nodeId)
      ensures forall e :: e in edges ==> e.source != nodeId && e.target != nodeId
      ensures old(Consistent()) ==> Consistent()
    {
      WithoutIncidentFacts(edges, nodeId);
      edges := WithoutIncident(edges, nodeId);
    }

    method ResetPipeline()
      modifies this
      ensures nodes == [] && edges == [] && configs == map[] && undo == map[] && selectedNodeId == None
      ensures Idle() && Consistent()
    {
      nodes, edges, configs, undo, selectedNodeId := [], [], map[], map[], None;
      isExecuting, executionId, nodeStatus, resultsPerNode := false, None, map[], map[];
      executionStatus, executionMessage := None, None;
    }

    /** Appends one node of the given kind under the id the id supply hands
        out, with the kind's default config and an empty undo slot. */
    method AddNode(kind: NodeKind, position: Position, freshId: NodeId)
      modifies this`nodes, this`configs, this`undo
      ensures nodes == old(nodes) + [Node(freshId, kind, position, NodeData(kind, LabelFor(kind)))]
      ensures configs == old(configs)[freshId := DefaultConfig(kind)]
      ensures undo == old(undo)[freshId := None]
      ensures old(Consistent()) && freshId !in old(configs) ==> Consistent()
    {
      var node := Node(freshId, kind, position, NodeData(kind, LabelFor(kind)));
      nodes := nodes + [node];
      configs := configs[freshId := DefaultConfig(kind)];
      undo := undo[freshId := None];
    }

    method UpdateNodeConfig(nodeId: NodeId, patch: Object)
      modifies this`configs
      ensures Configs() == UpdateConfig(old(Configs()), nodeId, patch)
      ensures old(Consistent()) ==> Consistent()
    {
      if nodeId in configs {
        configs := configs[nodeId := MergeConfig(configs[nodeId], patch)];
      }
    }

    method ReplaceNodeConfig(nodeId: NodeId, nextConfig: Object)
      modifies this`configs
      ensures Configs() == ReplaceConfig(old(Configs()), nodeId, nextConfig)
      ensures old(Consistent()) ==> Consistent()
    {
      if nodeId in configs {
        configs := configs[nodeId := NodeConfig(configs[nodeId].kind, nextConfig)];
      }
    }

    method TakeUndoSnapshot(nodeId: NodeId)
      modifies this`undo
      ensures Configs() == TakeSnapshot(old(Configs()), nodeId)
      ensures old(Consistent()) ==> Consistent()
    {
      if nodeId in configs {
        undo := undo[nodeId := Some(configs[nodeId].config)];
      }
    }

    method UndoLastApplyOf(nodeId: NodeId)
      modifies this`configs, this`undo
      ensures Configs() == UndoLastApply(old(Configs()), nodeId)
      ensures old(Consistent()) ==> Consistent()
    {
      if nodeId !in undo || undo[nodeId].None? {
        return;
      }
      ReplaceNodeConfig(nodeId, undo[nodeId].value);
      undo := undo[nodeId := None];
    }

    /** uploadDataset after the request: on success the response is merged
        into the node's config; a failed request propagates and changes nothing. */
    method UploadDataset(nodeId: NodeId, fileName: string, response: Result<UploadResponse, Thrown>)
      returns (r: Result<(), Thrown>)
      modifies this`configs
      ensures response.Err? ==> r == Err(response.error) && configs == old(configs)
      ensures response.Ok? ==> r == Ok(()) && Configs() == UpdateConfig(old(Configs()), nodeId,
        UploadPatch(Str(fileName), response.value.datasetId, response.value.info))
      ensures old(Consistent()) ==> Consistent()
    {
      if response.Err? {
        return Err(response.error);
      }
      UpdateNodeConfig(nodeId, UploadPatch(Str(fileName), response.value.datasetId, response.value.info));
      r := Ok(());
    }

    /** loadSampleDataset after the request: the response's file name wins
        over the requested one unless it is missing. */
    method LoadSampleDataset(nodeId: NodeId, filename: string, response: Result<SampleResponse, Thrown>)
      returns (r: Result<(), Thrown>)
      modifies this`configs
      ensures response.Err? ==> r == Err(response.error) && configs == old(configs)
      ensures response.Ok? ==> r == Ok(()) && Configs() == UpdateConfig(old(Configs()), nodeId,
        UploadPatch(Coalesce(response.value.fileName, Str(filename)), response.value.datasetId, response.value.info))
      ensures old(Consistent()) ==> Consistent()
    {
      if response.Err? {
        return Err(response.error);
      }
      var s := response.value;
      UpdateNodeConfig(nodeId, UploadPatch(Coalesce(s.fileName, Str(filename)), s.datasetId, s.info));
      r := Ok(());
    }

    /** One status poll. Without an execution id nothing happens; a failed
        fetch propagates and changes nothing; otherwise the execution fields
        are replaced wholesale by the snapshot. */
    method PollExecutionOnce(fetched: Result<ExecutionSnapshot, Thrown>) returns (r: Result<(), Thrown>)
      modifies this`nodeStatus, this`resultsPerNode, this`isExecuting, this`executionStatus, this`executionMessage
      ensures !HasExecution() ==> r == Ok(()) && unchanged(this)
      ensures HasExecution() && fetched.Err? ==> r == Err(fetched.error) && unchanged(this)
      ensures HasExecution() && fetched.Ok? ==> r == Ok(()) && Shows(fetched.value)
    {
      if !HasExecution() {
        return Ok(());
      }
      if fetched.Err? {
        return Err(fetched.error);
      }
      var snap := fetched.value;
      nodeStatus := snap.nodeStatus.GetOr(map[]);
      resultsPerNode := snap.resultsPerNode.GetOr(map[]);
      isExecuting := IsActiveStatus(snap.status);
      executionStatus := Some(snap.status);
      executionMessage := snap.message;
      r := Ok(());
    }

    /** Starts a run. With no nodes it fails before touching anything.
        Otherwise it clears the execution fields and marks the run queued,
        submits the payload (`server` answers with the response's
        `execution_id`, or throws), stores the id and polls once. A failed
        submit or poll unlocks `isExecuting` and rethrows as a message. */
    method RunPipeline(server: Submission -> Result<Option<string>, Thrown>, firstPoll: Result<ExecutionSnapshot, Thrown>)
      returns (r: Result<(), string>)
      modifies this`isExecuting, this`executionId, this`nodeStatus, this`resultsPerNode,
               this`executionStatus, this`executionMessage
      ensures old(nodes) == [] ==> r == Err("Add nodes to the canvas first") && unchanged(this)
      ensures old(nodes) != [] ==>
        var resp := server(SubmissionFor(nodes, edges, configs));
        match resp
        case Err(t) =>
          && r == Err(GetErrorMessage(t)) && !isExecuting && executionId == None
          && nodeStatus == map[] && resultsPerNode == map[]
          && executionStatus == Some("queued") && executionMessage == None
        case Ok(id) =>
          && executionId == id
          && (!HasExecution() ==>
                r == Ok(()) && isExecuting && nodeStatus == map[] && resultsPerNode == map[]
                && executionStatus == Some("queued") && executionMessage == None)
          && (HasExecution() && firstPoll.Err? ==>
                r == Err(GetErrorMessage(firstPoll.error)) && !isExecuting && nodeStatus == map[]
                && resultsPerNode == map[] && executionStatus == Some("queued") && executionMessage == None)
          && (HasExecution() && firstPoll.Ok? ==> r == Ok(()) && Shows(firstPoll.value))
    {
      if nodes == [] {
        return Err("Add nodes to the canvas first");
      }
      var payload := SubmissionFor(nodes, edges, configs);
      isExecuting, executionId, nodeStatus, resultsPerNode := true, None, map[], map[];
      executionStatus, executionMessage := Some("queued"), None;

      var resp := server(payload);
      if resp.Err? {
        isExecuting := false;
        return Err(GetErrorMessage(resp.error));
      }
      executionId := resp.value;
      var polled := PollExecutionOnce(firstPoll);
      if polled.Err? {
        isExecuting := false;
        return Err(GetErrorMessage(polled.error));
      }
      r := Ok(());
    }

    /** Requests cancellation. Without an execution id nothing happens.
        Otherwise the run is shown as cancelled and unlocked whether or not
        the request succeeded; a failed request still propagates. */
    method StopPipeline(cancel: Result<(), Thrown>) returns (r: Result<(), Thrown>)
      modifies this`isExecuting, this`executionStatus
      ensures !HasExecution() ==> r == Ok(()) && unchanged(this)
      ensures HasExecution() ==> r == cancel && !isExecuting && executionStatus == Some("cancelled")
    {
      if !HasExecution() {
        return Ok(());
      }
      isExecuting, executionStatus := false, Some("cancelled");
      r := cancel;
    }
  }

  // ---------------------------------------------------------------------------
  // Scenarios
  // ---------------------------------------------------------------------------

  /** Two polls, the first reporting a running run and the second a finished
      one: the store ends unlocked and shows exactly the second report (the
      node list is not checked against the reported statuses). */
  method TwoPollsScenario() returns (s: Store)
    ensures !s.isExecuting && s.nodeStatus == map["A" := "success", "B" := "success"]
    ensures s.executionStatus == Some("success")
  {
    s := new Store();
    s.AddNode(DataUpload, Position(0.0, 0.0), "A");
    var first := ExecutionSnapshot("running", None, Some(map["A" := "success", "B" := "running"]), None);
    var second := ExecutionSnapshot("success", None, Some(map["A" := "success", "B" := "success"]), Some(map[]));
    var started := s.RunPipeline((sub: Submission) => Ok(Some("exec_1")), Ok(first));
    var polled := s.PollExecutionOnce(Ok(second));
  }

  /** Stopping while the cancel request throws still unlocks the store and
      shows it as cancelled; the failure reaches the caller. */
  method StopDespiteFailedCancelScenario(t: Thrown) returns (s: Store, r: Result<(), Thrown>)
    ensures !s.isExecuting && s.executionStatus == Some("cancelled") && r == Err(t)
  {
    s := new Store();
    s.AddNode(Model, Position(0.0, 0.0), "M");
    var running := ExecutionSnapshot("running", None, None, None);
    var started := s.RunPipeline((sub: Submission) => Ok(Some("exec_2")), Ok(running));
    r := s.StopPipeline(Err(t));
  }
}
