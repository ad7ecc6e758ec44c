/** Background non-interference: two runs that differ only in what background nodes do agree on
    everything the run's outcome is made of. */
module Background {
  import opened Prelude
  import opened Kernel

  predicate InBackground(g: Graph, id: string) {
    Lookup(g.nodes, id).Some? && Lookup(g.nodes, id).value.background
  }

  predicate IsForeground(g: Graph, id: string) {
    Lookup(g.nodes, id).Some? && !Lookup(g.nodes, id).value.background
  }

  /** Outputs that agree outside background nodes. */
  ghost predicate SameView<T>(g: Graph, m1: map<string, T>, m2: map<string, T>) {
    && m1.Keys == m2.Keys
    && forall id :: id in m1 && !InBackground(g, id) ==> m1[id] == m2[id]
  }

  /** Foreground nodes and edge conditions do not read background outputs; background nodes may
      be denied, unregistered, failed or green differently in the two worlds. */
  ghost predicate DifferInBackground(g: Graph, w1: World, w2: World) {
    && (forall k, id, m1, m2 :: IsForeground(g, id) && SameView(g, m1, m2) ==>
          Decide(w1, k, Lookup(g.nodes, id).value, m1) == Decide(w2, k, Lookup(g.nodes, id).value, m2))
    && (forall e, m1, m2 :: e in g.edges && IsForeground(g, e.from) && SameView(g, m1, m2) ==>
          w1.cond(e.when, m1) == w2.cond(e.when, m2))
  }

  ghost predicate SameVisit(g: Graph, v1: Visit, v2: Visit) {
    && v1.id == v2.id && v1.node == v2.node && Lookup(g.nodes, v1.id) == Some(v1.node)
    && (!v1.node.background ==> v1 == v2)
  }

  /** The two runs are at the same point: same queue, counters and verdict; the same nodes
      dequeued in the same order; foreground visits and results identical. */
  ghost predicate InStep(g: Graph, s1: State, s2: State) {
    && s1.queue == s2.queue && s1.counts == s2.counts && s1.verdict == s2.verdict
    && SameView(g, s1.results, s2.results)
    && |s1.trace| == |s2.trace|
    && forall k :: 0 <= k < |s1.trace| ==> SameVisit(g, s1.trace[k], s2.trace[k])
  }

  // ------------------------------------------------------ the authoring check at work

  lemma {:induction false} LookupIs(nodes: seq<Node>, id: string)
    requires Lookup(nodes, id).Some?
    ensures Lookup(nodes, id).value.id == id && Lookup(nodes, id).value in nodes
  {
    if nodes[|nodes| - 1].id != id { LookupIs(nodes[..|nodes| - 1], id); }
  }

  lemma {:induction false} AllLeaves(g: Graph, k: nat, i: int)
    requires 0 <= i < k <= |g.nodes| && FirstNotLeaf(g, k) == None
    ensures !NotLeaf(g, g.nodes[i])
  {
    if i < k - 1 { AllLeaves(g, k - 1, i); }
  }

  lemma BackgroundEdgesAreExternal(g: Graph, id: string)
    requires FirstNotLeaf(g, |g.nodes|) == None && InBackground(g, id)
    ensures forall e :: e in OutEdges(g.edges, id) ==> IsExternal(g.nodes, e.to)
  {
    LookupIs(g.nodes, id);
    var i :| 0 <= i < |g.nodes| && g.nodes[i] == Lookup(g.nodes, id).value;
    AllLeaves(g, |g.nodes|, i);
    OutEdgesIn(g.edges, id);
  }

  lemma {:induction false} RouteToExternal(nodes: seq<Node>, w: World, out: seq<Edge>, r: NodeResult, outputs: map<string, Outputs>, rt: Routing)
    requires forall e :: e in out ==> IsExternal(nodes, e.to)
    ensures var rt' := Route(nodes, w, out, r, outputs, rt); rt'.queue == rt.queue && rt'.counts == rt.counts
  {
    if out != [] { RouteToExternal(nodes, w, out[..|out| - 1], r, outputs, rt); }
  }

  lemma {:induction false} RouteSame(g: Graph, w1: World, w2: World, out: seq<Edge>, r: NodeResult, m1: map<string, Outputs>, m2: map<string, Outputs>, rt: Routing)
    requires DifferInBackground(g, w1, w2) && SameView(g, m1, m2)
    requires forall e :: e in out ==> e in g.edges && IsForeground(g, e.from)
    ensures Route(g.nodes, w1, out, r, m1, rt) == Route(g.nodes, w2, out, r, m2, rt)
  {
    if out != [] { RouteSame(g, w1, w2, out[..|out| - 1], r, m1, m2, rt); }
  }

  // -------------------------------------------------------------------- simulation

  lemma SnapshotSame(g: Graph, m1: map<string, NodeResult>, m2: map<string, NodeResult>)
    requires SameView(g, m1, m2)
    ensures SameView(g, Snapshot(m1), Snapshot(m2))
  {
  }

  lemma ForegroundTurn(g: Graph, w1: World, w2: World, s1: State, s2: State, node: Node)
    requires DifferInBackground(g, w1, w2) && InStep(g, s1, s2) && s1.queue != []
    requires Lookup(g.nodes, s1.queue[0]) == Some(node) && !node.background
    ensures InStep(g, Process(g, w1, s1, node), Process(g, w2, s2, node))
  {
    var id := s1.queue[0];
    SnapshotSame(g, s1.results, s2.results);
    var o := Decide(w1, |s1.trace|, node, Snapshot(s1.results));
    assert o == Decide(w2, |s2.trace|, node, Snapshot(s2.results));
    var r1, r2 := s1.results[id := o.Result()], s2.results[id := o.Result()];
    SnapshotSame(g, r1, r2);
    OutEdgesIn(g.edges, id);
    RouteSame(g, w1, w2, OutEdges(g.edges, id), o.Result(), Snapshot(r1), Snapshot(r2), Routing(s1.queue[1..], s1.counts, [], []));
  }

  lemma BackgroundTurn(g: Graph, w1: World, w2: World, s1: State, s2: State, node: Node)
    requires FirstNotLeaf(g, |g.nodes|) == None && InStep(g, s1, s2) && s1.queue != []
    requires Lookup(g.nodes, s1.queue[0]) == Some(node) && node.background
    ensures InStep(g, Process(g, w1, s1, node), Process(g, w2, s2, node))
  {
    BackgroundRouting(g, w1, s1, node);
    BackgroundRouting(g, w2, s2, node);
  }

  lemma BackgroundRouting(g: Graph, w: World, s: State, node: Node)
    requires FirstNotLeaf(g, |g.nodes|) == None && s.queue != []
    requires Lookup(g.nodes, s.queue[0]) == Some(node) && node.background
    ensures var s' := Process(g, w, s, node);
      s'.queue == s.queue[1..] && s'.counts == s.counts && s'.verdict == None
  {
    var id, o := s.queue[0], Decide(w, |s.trace|, node, Snapshot(s.results));
    BackgroundEdgesAreExternal(g, id);
    RouteToExternal(g.nodes, w, OutEdges(g.edges, id), o.Result(), Snapshot(s.results[id := o.Result()]), Routing(s.queue[1..], s.counts, [], []));
  }

  ghost predicate PastLeafCheck(g: Graph, s: State) {
    s.verdict == None ==> FirstNotLeaf(g, |g.nodes|) == None
  }

  lemma StartInStep(g: Graph)
    ensures InStep(g, Start(g), Start(g)) && PastLeafCheck(g, Start(g))
  {
  }

  lemma StepInStep(g: Graph, w1: World, w2: World, limit: nat, s1: State, s2: State)
    requires DifferInBackground(g, w1, w2) && InStep(g, s1, s2) && PastLeafCheck(g, s1)
    ensures InStep(g, Step(g, w1, limit, s1), Step(g, w2, limit, s2)) && PastLeafCheck(g, Step(g, w1, limit, s1))
  {
    hide Process, FirstNotLeaf, SameView, DifferInBackground;
    if s1.verdict == None && s1.queue != [] && |s1.trace| < limit {
      var node := Lookup(g.nodes, s1.queue[0]);
      if node.Some? {
        if node.value.background { BackgroundTurn(g, w1, w2, s1, s2, node.value); }
        else { ForegroundTurn(g, w1, w2, s1, s2, node.value); }
      }
    }
  }

  lemma {:induction false} RunsInStep(g: Graph, w1: World, w2: World, limit: nat, n: nat)
    requires DifferInBackground(g, w1, w2)
    ensures InStep(g, StateAt(g, w1, limit, n), StateAt(g, w2, limit, n))
    ensures PastLeafCheck(g, StateAt(g, w1, limit, n))
  {
    hide *;
    if n == 0 {
      AtStart(g, w1, limit);
      AtStart(g, w2, limit);
      StartInStep(g);
    } else {
      RunsInStep(g, w1, w2, limit, n - 1);
      NextTurn(g, w1, limit, n);
      NextTurn(g, w2, limit, n);
      StepInStep(g, w1, w2, limit, StateAt(g, w1, limit, n - 1), StateAt(g, w2, limit, n - 1));
    }
  }

  /** Changing any background node's outcome changes neither the dequeue order, nor any
      foreground result, nor the run's status and message. */
  lemma SideWorkDoesNotInterfere(g: Graph, w1: World, w2: World, limit: nat)
    requires DifferInBackground(g, w1, w2)
    ensures var f1, f2 := Final(g, w1, limit), Final(g, w2, limit);
      && f1.verdict == f2.verdict
      && |f1.trace| == |f2.trace| && (forall k :: 0 <= k < |f1.trace| ==> f1.trace[k].id == f2.trace[k].id)
      && f1.results.Keys == f2.results.Keys
      && forall id :: id in f1.results && !InBackground(g, id) ==> f1.results[id] == f2.results[id]
  {
    RunsInStep(g, w1, w2, limit, limit + 1);
  }
}
