// The backend pipeline runner: ordering the submitted graph (Kahn's
// algorithm with a FIFO queue), the execution record, the sequential run
// over the ordered nodes, and cancellation.
module PipelineRoutes {
  import opened Base
  import opened Json

  type NodeId = string

  /** A submitted connection. A missing `source` or `target` behaves like an
      id that names no node. */
  datatype BEdge = BEdge(source: NodeId, target: NodeId)

  // ---------------------------------------------------------------------------
  // Graph vocabulary for the ordering proof
  // ---------------------------------------------------------------------------

  /** The edges whose two endpoints are both submitted nodes, in order. */
  function Retained(ids: seq<NodeId>, edges: seq<BEdge>): (E: seq<BEdge>)
    ensures forall e :: e in E ==> e.source in ids && e.target in ids && e in edges
    ensures forall e :: e in edges && e.source in ids && e.target in ids ==> e in E
  {
    RetainedPrefixMembers((set x | x in ids), edges, |edges|);
    RetainedPrefix((set x | x in ids), edges, |edges|)
  }

  /** `_toposort` keeps an edge only when both of its endpoints are submitted nodes. */
  predicate Known(ids: set<NodeId>, e: BEdge) {
    e.source in ids && e.target in ids
  }

  /** The edges among the first `k` whose endpoints are both in `ids`. */
  function RetainedPrefix(ids: set<NodeId>, edges: seq<BEdge>, k: nat): seq<BEdge>
    requires k <= |edges|
  {
    if k == 0 then []
    else
      var last := edges[k - 1];
      RetainedPrefix(ids, edges, k - 1) + (if Known(ids, last) then [last] else [])
  }

  lemma {:induction false} RetainedPrefixMembers(ids: set<NodeId>, edges: seq<BEdge>, k: nat)
    requires k <= |edges|
    ensures forall e :: e in RetainedPrefix(ids, edges, k) ==> e.source in ids && e.target in ids && e in edges
    ensures forall i :: 0 <= i < k && edges[i].source in ids && edges[i].target in ids ==>
      edges[i] in RetainedPrefix(ids, edges, k)
  {
    if k > 0 {
      RetainedPrefixMembers(ids, edges, k - 1);
    }
  }

  /** The number of edges into `v` whose source is not in `done`: the
      in-degree that Kahn's algorithm keeps once `done` has been emitted. */
  function CountIn(E: seq<BEdge>, v: NodeId, done: set<NodeId>): nat
    decreases |E|
  {
    if E == [] then 0
    else
      var last := E[|E| - 1];
      CountIn(E[..|E| - 1], v, done) + (if last.target == v && last.source !in done then 1 else 0)
  }

  /** The targets of the edges out of `u`, in edge order (duplicates kept). */
  function Out(E: seq<BEdge>, u: NodeId): seq<NodeId>
    decreases |E|
  {
    if E == [] then []
    else
      var last := E[|E| - 1];
      Out(E[..|E| - 1], u) + (if last.source == u then [last.target] else [])
  }

  /** A closed walk: every node has an edge to the next, and the last to the first. */
  ghost predicate IsCycle(E: seq<BEdge>, c: seq<NodeId>) {
    && |c| >= 1
    && (forall i :: 0 <= i < |c| - 1 ==> BEdge(c[i], c[i + 1]) in E)
    && BEdge(c[|c| - 1], c[0]) in E
  }

  ghost predicate HasCycle(E: seq<BEdge>) {
    exists c :: IsCycle(E, c)
  }

  /** Every edge of E goes from an earlier to a later position of s. */
  ghost predicate EdgesForward(E: seq<BEdge>, s: seq<NodeId>) {
    forall i, j :: 0 <= i < |s| && 0 <= j < |s| && BEdge(s[i], s[j]) in E ==> i < j
  }

  predicate Precedes(s: seq<NodeId>, a: NodeId, b: NodeId) {
    exists i, j :: 0 <= i < j < |s| && s[i] == a && s[j] == b
  }

  // ---------------------------------------------------------------------------
  // Lemmas about the vocabulary
  // ---------------------------------------------------------------------------

  /** Emitting `u` removes from the count of `v` exactly the edges u -> v. */
  lemma {:induction false} CountSplit(E: seq<BEdge>, v: NodeId, done: set<NodeId>, u: NodeId)
    requires u !in done
    ensures CountIn(E, v, done) == CountIn(E, v, done + {u}) + multiset(Out(E, u))[v]
    decreases |E|
  {
    if E != [] {
      CountSplit(E[..|E| - 1], v, done, u);
    }
  }

  /** A zero count means every edge into `v` starts in `done`. */
  lemma {:induction false} CountZero(E: seq<BEdge>, v: NodeId, done: set<NodeId>)
    requires CountIn(E, v, done) == 0
    ensures forall e :: e in E && e.target == v ==> e.source in done
    decreases |E|
  {
    if E != [] {
      CountZero(E[..|E| - 1], v, done);
      assert E == E[..|E| - 1] + [E[|E| - 1]];
    }
  }

  /** A positive count is witnessed by an edge into `v` from outside `done`. */
  lemma {:induction false} CountPositive(E: seq<BEdge>, v: NodeId, done: set<NodeId>) returns (e: BEdge)
    requires CountIn(E, v, done) > 0
    ensures e in E && e.target == v && e.source !in done
    decreases |E|
  {
    var last := E[|E| - 1];
    if last.target == v && last.source !in done {
      e := last;
    } else {
      e := CountPositive(E[..|E| - 1], v, done);
    }
  }

  lemma {:induction false} OutIsEdges(E: seq<BEdge>, u: NodeId)
    ensures forall x :: x in Out(E, u) ==> BEdge(u, x) in E
    decreases |E|
  {
    if E != [] {
      OutIsEdges(E[..|E| - 1], u);
      assert E == E[..|E| - 1] + [E[|E| - 1]];
    }
  }

  /** A duplicate-free sequence drawn from another is no longer than it. */
  lemma DistinctWithin(a: seq<NodeId>, b: seq<NodeId>)
    requires Distinct(a) && Distinct(b) && forall x :: x in a ==> x in b
    ensures |a| <= |b|
    ensures |a| == |b| ==> forall x :: x in b ==> x in a
  {
    DistinctCard(a);
    DistinctCard(b);
    var sa := set x | x in a;
    var sb := set x | x in b;
    assert sa <= sb;
    assert sb == sa + (sb - sa);
    assert sa * (sb - sa) == {};
    assert |sb| == |sa| + |sb - sa|;
    if |a| == |b| {
      assert sb - sa == {};
      forall x | x in b ensures x in a {
        assert x in sb;
      }
    }
  }

  /** Appending a node whose predecessors are all emitted keeps edges forward. */
  lemma AppendKeepsForward(E: seq<BEdge>, ordered: seq<NodeId>, queue: seq<NodeId>, done: set<NodeId>, x: NodeId)
    requires forall y :: y in done <==> y in ordered
    requires Distinct(ordered + queue + [x])
    requires EdgesForward(E, ordered + queue)
    requires forall e :: e in E && e.target == x ==> e.source in done
    requires forall w, e :: w in ordered + queue && e in E && e.target == w ==> e.source in done
    ensures EdgesForward(E, ordered + queue + [x])
  {
    var oq := ordered + queue;
    var s := oq + [x];
    forall k | 0 <= k < |ordered| ensures ordered[k] != x {
      assert s[k] == ordered[k] && s[|oq|] == x;
    }
    assert x !in done;
    forall j | 0 <= j < |oq| ensures BEdge(x, oq[j]) !in E {
      assert oq[j] in ordered + queue;
    }
    forall i | 0 <= i < |s| && BEdge(s[i], x) in E ensures i < |oq| {
      assert s[i] in done;
      var k :| 0 <= k < |ordered| && ordered[k] == s[i];
      assert s[k] == s[i];
    }
    forall i, j | 0 <= i < |oq| && 0 <= j < |oq| && BEdge(s[i], s[j]) in E ensures i < j {
      assert s[i] == oq[i] && s[j] == oq[j];
    }
  }

  lemma DistinctSnoc(s: seq<NodeId>, x: NodeId)
    requires Distinct(s) && x !in s
    ensures Distinct(s + [x])
  {
  }

  /** A shorter duplicate-free sequence misses an element of a longer one. */
  lemma DistinctMissing(a: seq<NodeId>, b: seq<NodeId>) returns (x: NodeId)
    requires Distinct(a) && Distinct(b) && |a| < |b|
    ensures x in b && x !in a
  {
    if forall y :: y in b ==> y in a {
      DistinctWithin(b, a);
      assert false;
    }
    x :| x in b && x !in a;
  }

  lemma SubsetCard(a: set<NodeId>, b: set<NodeId>)
    requires a <= b
    ensures |a| <= |b|
  {
    assert b == a + (b - a);
    assert a * (b - a) == {};
  }

  ghost function IndexOf(s: seq<NodeId>, x: NodeId): (k: nat)
    requires x in s
    ensures k < |s| && s[k] == x
  {
    var k :| 0 <= k < |s| && s[k] == x; k
  }

  /** A list in which every edge goes forward admits no cycle. */
  lemma {:induction false} ForwardMeansAcyclic(E: seq<BEdge>, s: seq<NodeId>)
    requires EdgesForward(E, s)
    requires forall e :: e in E ==> e.source in s && e.target in s
    ensures !HasCycle(E)
  {
    if HasCycle(E) {
      var c :| IsCycle(E, c);
      forall u | 0 <= u < |c| ensures c[u] in s {
        if u < |c| - 1 {
          assert BEdge(c[u], c[u + 1]) in E;
        }
      }
      var t := 1;
      while t < |c|
        invariant 1 <= t <= |c|
        invariant forall u :: 1 <= u < t ==> IndexOf(s, c[0]) < IndexOf(s, c[u])
      {
        assert BEdge(c[t - 1], c[t]) in E;
        assert s[IndexOf(s, c[t - 1])] == c[t - 1] && s[IndexOf(s, c[t])] == c[t];
        t := t + 1;
      }
      assert false;
    }
  }

  /** Some edge of E enters x from a node of U. */
  ghost predicate HasPredIn(E: seq<BEdge>, x: NodeId, U: set<NodeId>) {
    exists e :: e in E && e.target == x && e.source in U
  }

  /** Walking backwards along edges inside U, starting from v. */
  lemma {:induction false} BackWalk(E: seq<BEdge>, U: set<NodeId>, v: NodeId, k: nat) returns (w: seq<NodeId>)
    requires v in U
    requires forall x {:trigger HasPredIn(E, x, U)} :: x in U ==> HasPredIn(E, x, U)
    ensures |w| == k + 1 && w[0] == v
    ensures forall t :: 0 <= t < |w| ==> w[t] in U
    ensures forall t :: 0 <= t < k ==> BEdge(w[t + 1], w[t]) in E
  {
    if k == 0 {
      w := [v];
    } else {
      var prev := BackWalk(E, U, v, k - 1);
      assert HasPredIn(E, prev[k - 1], U);
      var e :| e in E && e.target == prev[k - 1] && e.source in U;
      w := prev + [e.source];
      assert BEdge(w[k], w[k - 1]) == e;
    }
  }

  /** A backward walk that revisits a node closes a cycle. */
  lemma {:induction false} RepeatClosesCycle(E: seq<BEdge>, w: seq<NodeId>, i: nat, j: nat)
    requires i < j < |w| && w[i] == w[j]
    requires forall t :: 0 <= t < |w| - 1 ==> BEdge(w[t + 1], w[t]) in E
    ensures HasCycle(E)
  {
    var c := seq(j - i, t requires 0 <= t < j - i => w[j - t]);
    forall t | 0 <= t < |c| - 1 ensures BEdge(c[t], c[t + 1]) in E {
      assert c[t] == w[(j - t - 1) + 1] && c[t + 1] == w[j - t - 1];
    }
    assert c[|c| - 1] == w[i + 1] && w[i] == c[0];
    assert IsCycle(E, c);
  }

  /** If every node of a non-empty set has a predecessor in the set, the
      edges contain a cycle. */
  lemma {:induction false} StuckNodesHaveCycle(E: seq<BEdge>, U: set<NodeId>, v: NodeId)
    requires v in U
    requires forall x {:trigger HasPredIn(E, x, U)} :: x in U ==> HasPredIn(E, x, U)
    ensures HasCycle(E)
  {
    var w := BackWalk(E, U, v, |U|);
    if Distinct(w) {
      DistinctCard(w);
      SubsetCard((set x | x in w), U);
      assert false;
    }
    var i, j :| 0 <= i < j < |w| && w[i] == w[j];
    RepeatClosesCycle(E, w, i, j);
  }

  /** Counts and successor lists after one more edge. */
  lemma SnocCounts(E: seq<BEdge>, e: BEdge, v: NodeId)
    ensures CountIn(E + [e], v, {}) == CountIn(E, v, {}) + (if e.target == v then 1 else 0)
    ensures Out(E + [e], v) == Out(E, v) + (if e.source == v then [e.target] else [])
  {
    assert (E + [e])[..|E|] == E;
  }

  /** The predecessor counts after reading the first `k` edges: every node
      starts at zero and each edge between known nodes adds one to its target. */
  function InTable(ids: set<NodeId>, edges: seq<BEdge>, k: nat): (m: map<NodeId, int>)
    requires k <= |edges|
    ensures m.Keys == ids
  {
    if k == 0 then map x | x in ids :: 0
    else
      var m := InTable(ids, edges, k - 1);
      var e := edges[k - 1];
      if Known(ids, e) then m[e.target := m[e.target] + 1] else m
  }

  /** The successor lists after reading the first `k` edges: each edge between
      known nodes appends its target to its source's list. */
  function OutTable(ids: set<NodeId>, edges: seq<BEdge>, k: nat): (m: map<NodeId, seq<NodeId>>)
    requires k <= |edges|
    ensures m.Keys == ids
  {
    if k == 0 then map x | x in ids :: []
    else
      var m := OutTable(ids, edges, k - 1);
      var e := edges[k - 1];
      if Known(ids, e) then m[e.source := m[e.source] + [e.target]] else m
  }

  /** The predecessor table holds, for every node, the number of retained
      edges into it. */
  lemma {:induction false} InTableCounts(ids: set<NodeId>, edges: seq<BEdge>, k: nat)
    requires k <= |edges|
    ensures forall v :: v in ids ==> InTable(ids, edges, k)[v] == CountIn(RetainedPrefix(ids, edges, k), v, {})
  {
    if k > 0 {
      InTableCounts(ids, edges, k - 1);
      var R := RetainedPrefix(ids, edges, k - 1);
      var e := edges[k - 1];
      var inc := InTable(ids, edges, k - 1);
      if Known(ids, e) {
        assert RetainedPrefix(ids, edges, k) == R + [e];
        assert InTable(ids, edges, k) == inc[e.target := inc[e.target] + 1];
        forall v | v in ids ensures InTable(ids, edges, k)[v] == CountIn(R + [e], v, {}) {
          SnocCounts(R, e, v);
        }
      } else {
        assert RetainedPrefix(ids, edges, k) == R + [];
        assert R + [] == R;
      }
    }
  }

  /** The successor table holds, for every node, the targets of the retained
      edges out of it, in edge order. */
  lemma {:induction false} OutTableLists(ids: set<NodeId>, edges: seq<BEdge>, k: nat)
    requires k <= |edges|
    ensures forall u :: u in ids ==> OutTable(ids, edges, k)[u] == Out(RetainedPrefix(ids, edges, k), u)
  {
    if k > 0 {
      OutTableLists(ids, edges, k - 1);
      var R := RetainedPrefix(ids, edges, k - 1);
      var e := edges[k - 1];
      var outs := OutTable(ids, edges, k - 1);
      if Known(ids, e) {
        assert RetainedPrefix(ids, edges, k) == R + [e];
        assert OutTable(ids, edges, k) == outs[e.source := outs[e.source] + [e.target]];
        forall u | u in ids ensures OutTable(ids, edges, k)[u] == Out(R + [e], u) {
          SnocCounts(R, e, u);
        }
      } else {
        assert RetainedPrefix(ids, edges, k) == R + [];
        assert R + [] == R;
      }
    }
  }

  // ---------------------------------------------------------------------------
  // The state of Kahn's algorithm
  // ---------------------------------------------------------------------------

  /** What holds of the in-degree map, the emitted prefix and the FIFO queue
      at every step. `pending` are the successors of the last emitted node
      still to be decremented; `done` is the set of emitted nodes. The
      sequence `ordered + queue` only ever grows at its end. */
  ghost predicate KahnInv(E: seq<BEdge>, order: seq<NodeId>, incoming: map<NodeId, int>,
                          ordered: seq<NodeId>, queue: seq<NodeId>, done: set<NodeId>, pending: seq<NodeId>)
  {
    && Distinct(order)
    && Distinct(ordered + queue) && |ordered + queue| <= |order|
    && (forall x :: x in ordered + queue ==> x in order)
    && (forall x :: x in pending ==> x in order)
    && (forall x :: x in done <==> x in ordered)
    && (forall x :: x in incoming <==> x in order)
    && (forall v :: v in order ==> incoming[v] == CountIn(E, v, done) + multiset(pending)[v])
    && (forall v :: v in ordered + queue ==> incoming[v] == 0)
    && (forall v :: v in order && v !in ordered + queue ==> incoming[v] > 0)
    && EdgesForward(E, ordered + queue)
  }

  ghost predicate EndpointsIn(E: seq<BEdge>, order: seq<NodeId>) {
    forall e :: e in E ==> e.source in order && e.target in order
  }

  /** The initial queue (the in-degree-0 nodes) satisfies the invariant. */
  lemma KahnStart(E: seq<BEdge>, order: seq<NodeId>, incoming: map<NodeId, int>, queue: seq<NodeId>)
    requires Distinct(order) && Distinct(queue)
    requires forall x :: x in incoming <==> x in order
    requires forall v :: v in order ==> incoming[v] == CountIn(E, v, {})
    requires forall x :: x in queue <==> x in order && incoming[x] == 0
    ensures KahnInv(E, order, incoming, [], queue, {}, [])
  {
    assert [] + queue == queue;
    DistinctWithin(queue, order);
    forall i, j | 0 <= i < |queue| && 0 <= j < |queue|
      ensures BEdge(queue[i], queue[j]) !in E
    {
      CountZero(E, queue[j], {});
    }
  }

  /** Popping the head of the queue and emitting it. */
  lemma KahnPop(E: seq<BEdge>, order: seq<NodeId>, incoming: map<NodeId, int>,
                ordered: seq<NodeId>, queue: seq<NodeId>, done: set<NodeId>,
                ordered': seq<NodeId>, queue': seq<NodeId>, done': set<NodeId>)
    requires EndpointsIn(E, order)
    requires KahnInv(E, order, incoming, ordered, queue, done, []) && queue != []
    requires ordered' == ordered + [queue[0]] && queue' == queue[1..] && done' == done + {queue[0]}
    ensures KahnInv(E, order, incoming, ordered', queue', done', Out(E, queue[0]))
    ensures |ordered'| <= |order|
  {
    var nid := queue[0];
    assert ordered' + queue' == ordered + queue;
    forall k | 0 <= k < |ordered| ensures ordered[k] != nid {
      assert (ordered + queue)[k] == ordered[k] && (ordered + queue)[|ordered|] == nid;
    }
    forall v | v in order
      ensures incoming[v] == CountIn(E, v, done') + multiset(Out(E, nid))[v]
    {
      CountSplit(E, v, done, nid);
    }
    OutIsEdges(E, nid);
  }

  /** The next pending successor is a node whose count is still positive. */
  lemma KahnPending(E: seq<BEdge>, order: seq<NodeId>, incoming: map<NodeId, int>,
                    ordered: seq<NodeId>, queue: seq<NodeId>, done: set<NodeId>, pending: seq<NodeId>)
    requires KahnInv(E, order, incoming, ordered, queue, done, pending) && pending != []
    ensures pending[0] in incoming && incoming[pending[0]] >= 1
  {
    assert pending == [pending[0]] + pending[1..];
  }

  /** One pass of the inner loop: the next pending successor's count drops
      by one, and it joins the queue when it reaches zero. */
  lemma KahnDecrement(E: seq<BEdge>, order: seq<NodeId>, incoming: map<NodeId, int>,
                      ordered: seq<NodeId>, queue: seq<NodeId>, done: set<NodeId>, pending: seq<NodeId>)
    requires KahnInv(E, order, incoming, ordered, queue, done, pending) && pending != []
    ensures pending[0] in incoming
    ensures var nxt := pending[0];
      var incoming' := incoming[nxt := incoming[nxt] - 1];
      KahnInv(E, order, incoming', ordered, if incoming'[nxt] == 0 then queue + [nxt] else queue, done, pending[1..])
  {
    KahnPending(E, order, incoming, ordered, queue, done, pending);
    var nxt := pending[0];
    var incoming' := incoming[nxt := incoming[nxt] - 1];
    if incoming'[nxt] == 0 {
      KahnDecrementReleased(E, order, incoming, ordered, queue, done, pending, incoming');
    } else {
      KahnDecrementStill(E, order, incoming, ordered, queue, done, pending, incoming');
    }
  }

  /** Decrementing the count of the next pending successor when it still
      has other predecessors left to emit. */
  lemma KahnDecrementStill(E: seq<BEdge>, order: seq<NodeId>, incoming: map<NodeId, int>,
                           ordered: seq<NodeId>, queue: seq<NodeId>, done: set<NodeId>, pending: seq<NodeId>,
                           incoming': map<NodeId, int>)
    requires KahnInv(E, order, incoming, ordered, queue, done, pending) && pending != []
    requires pending[0] in incoming && incoming' == incoming[pending[0] := incoming[pending[0]] - 1]
    requires incoming'[pending[0]] != 0
    ensures KahnInv(E, order, incoming', ordered, queue, done, pending[1..])
  {
    assert pending == [pending[0]] + pending[1..];
  }

  /** Decrementing the count of the next pending successor to zero, which
      sends it to the back of the queue. */
  lemma KahnDecrementReleased(E: seq<BEdge>, order: seq<NodeId>, incoming: map<NodeId, int>,
                              ordered: seq<NodeId>, queue: seq<NodeId>, done: set<NodeId>, pending: seq<NodeId>,
                              incoming': map<NodeId, int>)
    requires KahnInv(E, order, incoming, ordered, queue, done, pending) && pending != []
    requires pending[0] in incoming && incoming' == incoming[pending[0] := incoming[pending[0]] - 1]
    requires incoming'[pending[0]] == 0
    ensures KahnInv(E, order, incoming', ordered, queue + [pending[0]], done, pending[1..])
  {
    var nxt := pending[0];
    assert pending == [nxt] + pending[1..];
    assert nxt !in ordered + queue;
    assert ordered + (queue + [nxt]) == (ordered + queue) + [nxt];
    assert CountIn(E, nxt, done) == 0;
    QueueReleased(E, order, incoming, ordered, queue, done, nxt);
  }

  /** A node whose last predecessor has been emitted can join the queue. */
  lemma QueueReleased(E: seq<BEdge>, order: seq<NodeId>, incoming: map<NodeId, int>,
                      ordered: seq<NodeId>, queue: seq<NodeId>, done: set<NodeId>, nxt: NodeId)
    requires Distinct(order) && Distinct(ordered + queue) && nxt in order && nxt !in ordered + queue
    requires forall x :: x in ordered + queue ==> x in order
    requires forall x :: x in done <==> x in ordered
    requires forall v :: v in ordered + queue ==> CountIn(E, v, done) == 0
    requires CountIn(E, nxt, done) == 0
    requires EdgesForward(E, ordered + queue)
    ensures Distinct(ordered + queue + [nxt]) && |ordered + queue + [nxt]| <= |order|
    ensures EdgesForward(E, ordered + queue + [nxt])
  {
    DistinctSnoc(ordered + queue, nxt);
    DistinctWithin(ordered + queue + [nxt], order);
    CountZero(E, nxt, done);
    forall w | w in ordered + queue
      ensures forall e :: e in E && e.target == w ==> e.source in done
    {
      CountZero(E, w, done);
    }
    AppendKeepsForward(E, ordered, queue, done, nxt);
  }

  /** When the queue runs dry: every node emitted means the order is a
      topological order; a node left over means the graph has a cycle. */
  lemma KahnFinish(E: seq<BEdge>, order: seq<NodeId>, incoming: map<NodeId, int>,
                   ordered: seq<NodeId>, done: set<NodeId>)
    requires Distinct(order) && EndpointsIn(E, order)
    requires KahnInv(E, order, incoming, ordered, [], done, [])
    ensures Distinct(ordered) && forall x :: x in ordered ==> x in order
    ensures |ordered| == |order| ==> forall x :: x in order ==> x in ordered
    ensures |ordered| == |order| <==> !HasCycle(E)
    ensures |ordered| == |order| ==> forall e :: e in E ==> Precedes(ordered, e.source, e.target)
  {
    assert ordered + [] == ordered;
    DistinctWithin(ordered, order);
    if |ordered| == |order| {
      ForwardMeansAcyclic(E, ordered);
      forall e | e in E ensures Precedes(ordered, e.source, e.target) {
        var i := IndexOf(ordered, e.source);
        var j := IndexOf(ordered, e.target);
      }
    } else {
      var missing := DistinctMissing(ordered, order);
      var U := set x | x in order && x !in ordered;
      forall x | x in U ensures HasPredIn(E, x, U) {
        var e := CountPositive(E, x, done);
      }
      StuckNodesHaveCycle(E, U, missing);
    }
  }

  // ---------------------------------------------------------------------------
  // _toposort
  // ---------------------------------------------------------------------------

  /** The first pass of `_toposort`: every node starts with no predecessors
      and no successors, then each edge whose endpoints are both known adds
      one to its target's count and appends its target to its source's list. */
  method CountEdges(order: seq<NodeId>, edges: seq<BEdge>)
    returns (incoming: map<NodeId, int>, outgoing: map<NodeId, seq<NodeId>>)
    ensures forall x :: x in incoming <==> x in order
    ensures forall x :: x in outgoing <==> x in order
    ensures forall v :: v in incoming ==> incoming[v] == CountIn(Retained(order, edges), v, {})
    ensures forall u :: u in outgoing ==> outgoing[u] == Out(Retained(order, edges), u)
  {
    var ids := set x | x in order;
    incoming := map x | x in ids :: 0;
    outgoing := map x | x in ids :: [];
    var k := 0;
    while k < |edges|
      invariant 0 <= k <= |edges|
      invariant incoming == InTable(ids, edges, k) && outgoing == OutTable(ids, edges, k)
    {
      var e := edges[k];
      if Known(ids, e) {
        outgoing := outgoing[e.source := outgoing[e.source] + [e.target]];
        incoming := incoming[e.target := incoming[e.target] + 1];
      }
      k := k + 1;
    }
    InTableCounts(ids, edges, |edges|);
    OutTableLists(ids, edges, |edges|);
  }

  /** The inner loop of `_toposort`: each successor of the emitted node loses
      one predecessor and joins the back of the queue when it has none left. */
  method Release(ghost E: seq<BEdge>, ghost order: seq<NodeId>, incoming: map<NodeId, int>,
                 ghost ordered: seq<NodeId>, queue: seq<NodeId>, ghost done: set<NodeId>,
                 outs: seq<NodeId>)
    returns (incoming': map<NodeId, int>, queue': seq<NodeId>)
    requires KahnInv(E, order, incoming, ordered, queue, done, outs)
    ensures KahnInv(E, order, incoming', ordered, queue', done, [])
  {
    incoming', queue' := incoming, queue;
    var j := 0;
    while j < |outs|
      invariant 0 <= j <= |outs|
      invariant KahnInv(E, order, incoming', ordered, queue', done, outs[j..])
    {
      var nxt := outs[j];
      KahnDecrement(E, order, incoming', ordered, queue', done, outs[j..]);
      incoming' := incoming'[nxt := incoming'[nxt] - 1];
      if incoming'[nxt] == 0 {
        queue' := queue' + [nxt];
      }
      assert outs[j..][1..] == outs[j + 1..];
      j := j + 1;
    }
  }

  /** Orders the submitted nodes so that every retained edge goes forward.
      `order` is the iteration order of the set of node ids (hence no
      duplicates); an edge naming an unknown id is ignored. It fails exactly
      when the retained edges contain a cycle; isolated nodes are emitted. */
  method Toposort(order: seq<NodeId>, edges: seq<BEdge>) returns (r: Result<seq<NodeId>, string>)
    requires Distinct(order)
    ensures r.Ok? <==> !HasCycle(Retained(order, edges))
    ensures r.Err? ==> r.error == "Pipeline has cycles or disconnected nodes"
    ensures r.Ok? ==> Distinct(r.value) && |r.value| == |order| && forall x :: x in r.value <==> x in order
    ensures r.Ok? ==> forall e :: e in edges && e.source in order && e.target in order ==>
      Precedes(r.value, e.source, e.target)
  {
    var incoming, outgoing := CountEdges(order, edges);
    ghost var E := Retained(order, edges);

    var queue := Filter(order, (x: NodeId) => x in incoming && incoming[x] == 0);
    FilterDistinct(order, (x: NodeId) => x in incoming && incoming[x] == 0);
    KahnStart(E, order, incoming, queue);
    var ordered: seq<NodeId> := [];
    ghost var done: set<NodeId> := {};

    while queue != []
      invariant KahnInv(E, order, incoming, ordered, queue, done, [])
      invariant forall u :: u in outgoing ==> outgoing[u] == Out(E, u)
      decreases |order| - |ordered|
    {
      var nid := queue[0];
      ghost var ordered0, queue0, done0 := ordered, queue, done;
      queue := queue[1..];
      ordered := ordered + [nid];
      done := done + {nid};
      KahnPop(E, order, incoming, ordered0, queue0, done0, ordered, queue, done);

      var outs := if nid in outgoing then outgoing[nid] else [];
      incoming, queue := Release(E, order, incoming, ordered, queue, done, outs);
    }

    KahnFinish(E, order, incoming, ordered, done);
    if |ordered| != |order| {
      return Err("Pipeline has cycles or disconnected nodes");
    }
    r := Ok(ordered);
  }
}
