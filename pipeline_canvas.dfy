// The canvas's connection rule: edges may only follow the fixed stage chain
// dataUpload -> preprocessing -> trainTestSplit -> model -> results.
module PipelineCanvas {
  import opened Base
  import opened PipelineStore

  /** The position of each stage in the chain. */
  function Rank(k: NodeKind): nat {
    match k
    case DataUpload => 0
    case Preprocessing => 1
    case TrainTestSplit => 2
    case Model => 3
    case Results => 4
  }

  /** The one stage each stage may feed, or none for results. */
  function Allowed(k: NodeKind): Option<NodeKind> {
    match k
    case DataUpload => Some(Preprocessing)
    case Preprocessing => Some(TrainTestSplit)
    case TrainTestSplit => Some(Model)
    case Model => Some(Results)
    case Results => None
  }

  /** A connection being drawn; either handle may be unset (`null`). */
  datatype Connection = Connection(source: Option<NodeId>, target: Option<NodeId>)

  /** `nodes.find(n => n.id === id)`: the first node with that id. */
  function FindNode(nodes: seq<Node>, id: Option<NodeId>): (r: Option<Node>)
    ensures r.None? <==> id.None? || forall i :: 0 <= i < |nodes| ==> nodes[i].id != id.value
    ensures r.Some? ==> r.value in nodes && r.value.id == id.value
    ensures r.Some? ==> exists i :: (0 <= i < |nodes| && nodes[i] == r.value
      && forall j :: 0 <= j < i ==> nodes[j].id != id.value)
  {
    if id.None? || nodes == [] then None
    else if nodes[0].id == id.value then Some(nodes[0])
    else
      var rest := FindNode(nodes[1..], id);
      if rest.Some? then
        ghost var i :| 0 <= i < |nodes[1..]| && nodes[1..][i] == rest.value
          && forall j :: 0 <= j < i ==> nodes[1..][j].id != id.value;
        assert nodes[i + 1] == rest.value;
        rest
      else rest
  }

  /** The source's check, as written: both endpoints must exist, the target
      must be the source's one allowed successor, and the ranks must increase. */
  predicate IsValidConnection(conn: Connection, nodes: seq<Node>) {
    var src := FindNode(nodes, conn.source);
    var tgt := FindNode(nodes, conn.target);
    src.Some? && tgt.Some?
    && Allowed(src.value.nodeType) == Some(tgt.value.nodeType)
    && Rank(src.value.nodeType) < Rank(tgt.value.nodeType)
  }

  /** Kind-level form of the rule: `allowed[s] === t && rank[s] < rank[t]`. */
  predicate KindsMayConnect(s: NodeKind, t: NodeKind) {
    Allowed(s) == Some(t) && Rank(s) < Rank(t)
  }

  /** The chain, stated independently: exactly the four adjacent pairs. */
  predicate IsChainStep(s: NodeKind, t: NodeKind) {
    || (s == DataUpload && t == Preprocessing)
    || (s == Preprocessing && t == TrainTestSplit)
    || (s == TrainTestSplit && t == Model)
    || (s == Model && t == Results)
  }

  /** The rule admits exactly the chain's four pairs. */
  lemma KindsMayConnectIffChainStep(s: NodeKind, t: NodeKind)
    ensures KindsMayConnect(s, t) <==> IsChainStep(s, t)
  {
  }

  /** The rank comparison adds nothing: every allowed pair is one rank apart. */
  lemma RankCheckIsRedundant(s: NodeKind, t: NodeKind)
    ensures Allowed(s) == Some(t) ==> Rank(t) == Rank(s) + 1
    ensures KindsMayConnect(s, t) <==> Allowed(s) == Some(t)
  {
  }

  /** No stage may feed itself, an earlier stage, or skip a stage; nothing leaves results. */
  lemma RejectedShapes(s: NodeKind, t: NodeKind)
    ensures Rank(t) != Rank(s) + 1 ==> !KindsMayConnect(s, t)
    ensures !KindsMayConnect(s, s)
    ensures KindsMayConnect(s, t) ==> !KindsMayConnect(t, s)
    ensures !KindsMayConnect(Results, t)
  {
  }

  /** On the node list: a connection is valid iff both endpoints are found
      and the target's kind is the source's allowed successor. */
  lemma {:induction false} ValidConnectionCharacterised(conn: Connection, nodes: seq<Node>)
    ensures IsValidConnection(conn, nodes) <==>
      var src := FindNode(nodes, conn.source);
      var tgt := FindNode(nodes, conn.target);
      src.Some? && tgt.Some? && IsChainStep(src.value.nodeType, tgt.value.nodeType)
  {
    var src := FindNode(nodes, conn.source);
    var tgt := FindNode(nodes, conn.target);
    if src.Some? && tgt.Some? {
      KindsMayConnectIffChainStep(src.value.nodeType, tgt.value.nodeType);
    }
  }

  /** An unset handle or an id that names no node makes the connection invalid. */
  lemma MissingEndpointRejected(conn: Connection, nodes: seq<Node>)
    requires conn.source.None? || conn.target.None?
      || (forall i :: 0 <= i < |nodes| ==> nodes[i].id != conn.source.value)
      || (forall i :: 0 <= i < |nodes| ==> nodes[i].id != conn.target.value)
    ensures !IsValidConnection(conn, nodes)
  {
  }

  /** Joining a node to itself is never valid, whatever the list holds. */
  lemma {:induction false} SelfConnectionRejected(id: NodeId, nodes: seq<Node>)
    ensures !IsValidConnection(Connection(Some(id), Some(id)), nodes)
  {
    var f := FindNode(nodes, Some(id));
    if f.Some? {
      RejectedShapes(f.value.nodeType, f.value.nodeType);
    }
  }

  /** onConnect: an invalid connection leaves the edge list alone; a valid one
      replaces it with what the graph library's `addEdge` returns (opaque
      here) for the connection marked animated iff a run is executing. */
  method OnConnect(store: PipelineStore.Store, conn: Connection,
                   addEdge: (Connection, bool, seq<Edge>) -> seq<Edge>)
    modifies store`edges
    ensures !IsValidConnection(conn, store.nodes) ==> store.edges == old(store.edges)
    ensures IsValidConnection(conn, store.nodes) ==>
      store.edges == addEdge(conn, store.isExecuting, old(store.edges))
  {
    if !IsValidConnection(conn, store.nodes) {
      return;
    }
    store.edges := addEdge(conn, store.isExecuting, store.edges);
  }
}
