/** The graph executor itself (internal/graph/executor.go): the imperative queue walk, proved to
    compute exactly the run the state machine of module Kernel describes. */
module Executor {
  import opened Prelude
  import opened Kernel
  import opened Trust
  import Capability

  datatype ExecutionResult = ExecutionResult(
    status: NodeStatus, results: map<string, NodeResult>, envelopes: map<string, Envelope>, message: Message)

  function ResultOf(s: State): ExecutionResult
    requires s.verdict.Some?
  {
    ExecutionResult(s.verdict.value.status, s.results, s.envelopes, s.verdict.value.message)
  }

  // ----------------------------------------------------------------- graph indexes

  ghost predicate IndexesNodes(m: map<string, Node>, nodes: seq<Node>) {
    forall id :: Lookup(nodes, id) == if id in m then Some(m[id]) else None
  }

  predicate ExternalIn(m: map<string, Node>, id: string) { id in m && m[id].typ == EXTERNAL }

  ghost predicate IndexesEdges(m: map<string, seq<Edge>>, edges: seq<Edge>) {
    forall id :: OutEdges(edges, id) == if id in m then m[id] else []
  }

  method IndexNodes(nodes: seq<Node>) returns (m: map<string, Node>)
    ensures IndexesNodes(m, nodes)
  {
    m := map[];
    for i := 0 to |nodes|
      invariant IndexesNodes(m, nodes[..i])
    {
      assert nodes[..i + 1][..i] == nodes[..i];
      m := m[nodes[i].id := nodes[i]];
    }
    assert nodes[..|nodes|] == nodes;
  }

  ghost predicate CountsAwaited(inDegree: map<string, nat>, nodes: seq<Node>, edges: seq<Edge>) {
    forall id :: Awaited(nodes, edges, id) <==> id in inDegree && inDegree[id] > 0
  }

  lemma AwaitedAppend(nodes: seq<Node>, edges: seq<Edge>, e: Edge, id: string)
    ensures Awaited(nodes, edges + [e], id) <==>
      Awaited(nodes, edges, id) || (e.to == id && e.maxRetries == 0 && !IsExternal(nodes, e.from))
  {
    var more := edges + [e];
    assert more[|edges|] == e;
    forall i | 0 <= i < |edges| ensures more[i] == edges[i] {}
  }

  method IndexEdges(g: Graph, nodeMap: map<string, Node>) returns (outEdges: map<string, seq<Edge>>, inDegree: map<string, nat>)
    requires IndexesNodes(nodeMap, g.nodes)
    ensures IndexesEdges(outEdges, g.edges) && CountsAwaited(inDegree, g.nodes, g.edges)
  {
    outEdges, inDegree := map[], map[];
    for i := 0 to |g.edges|
      invariant IndexesEdges(outEdges, g.edges[..i]) && CountsAwaited(inDegree, g.nodes, g.edges[..i])
    {
      var e := g.edges[i];
      assert g.edges[..i + 1] == g.edges[..i] + [e];
      forall id ensures OutEdges(g.edges[..i + 1], id) == if e.from == id then OutEdges(g.edges[..i], id) + [e] else OutEdges(g.edges[..i], id) {
        OutEdgesAppend(g.edges[..i], e, id);
      }
      forall id ensures Awaited(g.nodes, g.edges[..i + 1], id) <==>
        Awaited(g.nodes, g.edges[..i], id) || (e.to == id && e.maxRetries == 0 && !IsExternal(g.nodes, e.from))
      {
        AwaitedAppend(g.nodes, g.edges[..i], e, id);
      }
      outEdges := outEdges[e.from := (if e.from in outEdges then outEdges[e.from] else []) + [e]];
      if e.maxRetries == 0 && !ExternalIn(nodeMap, e.from) {
        inDegree := inDegree[e.to := (if e.to in inDegree then inDegree[e.to] else 0) + 1];
      }
    }
    assert g.edges[..|g.edges|] == g.edges;
  }

  lemma NotLeafByIndex(g: Graph, n: Node, out: seq<Edge>)
    requires out == OutEdges(g.edges, n.id)
    ensures NotLeaf(g, n) <==> n.background && exists e :: e in out && !IsExternal(g.nodes, e.to)
  {
    OutEdgesIn(g.edges, n.id);
    if e :| e in out && !IsExternal(g.nodes, e.to) {
      var i :| 0 <= i < |g.edges| && g.edges[i] == e;
    }
  }

  /** The first background node with an edge that would be executed, if any. */
  method FindNonLeaf(g: Graph, nodeMap: map<string, Node>, outEdges: map<string, seq<Edge>>) returns (bad: Option<string>)
    requires IndexesNodes(nodeMap, g.nodes) && IndexesEdges(outEdges, g.edges)
    ensures bad == FirstNotLeaf(g, |g.nodes|)
  {
    for i := 0 to |g.nodes|
      invariant FirstNotLeaf(g, i) == None
    {
      var n := g.nodes[i];
      var out := if n.id in outEdges then outEdges[n.id] else [];
      NotLeafByIndex(g, n, out);
      if n.background {
        for j := 0 to |out|
          invariant forall k :: 0 <= k < j ==> IsExternal(g.nodes, out[k].to)
        {
          if !ExternalIn(nodeMap, out[j].to) {
            assert out[j] in out;
            FirstStays(g, i + 1, |g.nodes|);
            return Some(n.id);
          }
        }
      }
    }
    return None;
  }

  lemma {:induction false} FirstStays(g: Graph, k: nat, l: nat)
    requires k <= l <= |g.nodes| && FirstNotLeaf(g, k).Some?
    ensures FirstNotLeaf(g, l) == FirstNotLeaf(g, k)
  {
    if k < l { FirstStays(g, k, l - 1); }
  }

  method CollectEntries(g: Graph, inDegree: map<string, nat>) returns (queue: seq<string>)
    requires CountsAwaited(inDegree, g.nodes, g.edges)
    ensures queue == Entries(g)
  {
    queue := [];
    for i := 0 to |g.nodes|
      invariant queue == EntriesAmong(g, g.nodes[..i])
    {
      var n := g.nodes[i];
      assert g.nodes[..i + 1][..i] == g.nodes[..i];
      if (n.id !in inDegree || inDegree[n.id] == 0) && n.typ != EXTERNAL { queue := queue + [n.id]; }
    }
    assert g.nodes[..|g.nodes|] == g.nodes;
  }

  // ----------------------------------------------------------------- one node's turn

  function Pow2(n: nat): nat { if n == 0 then 1 else 2 * Pow2(n - 1) }

  /** Exponential backoff: the initial delay doubled per failed attempt, capped. */
  method DelayFor(p: RetryPolicy, attempt: nat) returns (d: nat)
    requires attempt >= 1 && p.initialDelay <= p.maxDelay
    ensures d == if p.initialDelay * Pow2(attempt - 1) < p.maxDelay then p.initialDelay * Pow2(attempt - 1) else p.maxDelay
  {
    d := p.initialDelay;
    var i := 1;
    while i < attempt && d < p.maxDelay
      invariant 1 <= i <= attempt && d == p.initialDelay * Pow2(i - 1)
      decreases attempt - i
    {
      d := d * 2;
      i := i + 1;
    }
    DoublingGrows(p.initialDelay, i - 1, attempt - 1);
    if d > p.maxDelay { d := p.maxDelay; }
  }

  lemma {:induction false} DoublingGrows(x: nat, m: nat, n: nat)
    requires m <= n
    ensures x * Pow2(m) <= x * Pow2(n)
    decreases n - m
  {
    if m < n {
      assert x * Pow2(m + 1) == 2 * (x * Pow2(m));
      DoublingGrows(x, m + 1, n);
    }
  }

  /** The transient-fault retry loop; the third deadline reading is the one after the backoff. */
  method ExecuteWithRetry(w: World, k: nat, node: Node, inputs: map<string, Outputs>) returns (r: NodeResult)
    ensures r == Attempts(w, k, node, inputs, 1, RetryPolicyOf(node.retry).maxAttempts)
    ensures 1 <= r.attempt <= MAX_RETRY_ATTEMPTS
  {
    var policy := RetryPolicyOf(node.retry);
    var attempt := 1;
    hide Settle, RetryPolicyOf;
    r := Settle(w, k, node, inputs, attempt);
    SettledAttempt(w, k, node, inputs, attempt);
    while r.transient && attempt < policy.maxAttempts && !w.ended(k, attempt, 1) && !w.ended(k, attempt, 2)
      invariant 1 <= attempt <= policy.maxAttempts && r == Settle(w, k, node, inputs, attempt) && r.attempt == attempt
      invariant Attempts(w, k, node, inputs, 1, policy.maxAttempts) == Attempts(w, k, node, inputs, attempt, policy.maxAttempts)
      decreases policy.maxAttempts - attempt
    {
      attempt := attempt + 1;
      r := Settle(w, k, node, inputs, attempt);
      SettledAttempt(w, k, node, inputs, attempt);
    }
  }

  lemma SettledAttempt(w: World, k: nat, node: Node, inputs: map<string, Outputs>, a: nat)
    ensures Settle(w, k, node, inputs, a).attempt == a
  {
  }

  method RunNode(w: World, k: nat, node: Node, inputs: map<string, Outputs>) returns (o: Outcome)
    ensures o == Decide(w, k, node, inputs)
  {
    var violations := Capability.AuthorizeNode(w.bindings, node.id, node.requires_);
    if |violations| > 0 { return Denied(w.denial(violations)); }
    var exec := w.registered(node.typ);
    if exec.None? { return Unregistered(w.missing(node.typ)); }
    var r := ExecuteWithRetry(w, k, node, inputs);
    return Ran(r, exec.value);
  }

  /** Claim promotion, scope after scope. */
  method ApplyPromotions(envelopes: map<string, Envelope>, id: string, node: Node) returns (promoted: map<string, Envelope>)
    ensures promoted == PromoteBy(envelopes, id, ScopesOf(node))
  {
    var scopes := ScopesOf(node);
    promoted := envelopes;
    NoScopes(envelopes, id);
    for i := 0 to |scopes|
      invariant promoted == PromoteBy(envelopes, id, scopes[..i])
    {
      PromoteScopeByScope(envelopes, id, scopes[..i], scopes[i]);
      assert scopes[..i + 1] == scopes[..i] + [scopes[i]];
      var promotions;
      promoted, promotions := Promote(promoted, id, scopes[i]);
    }
    assert scopes[..|scopes|] == scopes;
  }

  lemma NoScopes(envelopes: map<string, Envelope>, id: string)
    ensures PromoteBy(envelopes, id, []) == envelopes
  {
    var p := PromoteBy(envelopes, id, []);
    forall n | n in envelopes ensures p[n] == envelopes[n] { assert p[n].claims == envelopes[n].claims; }
  }

  method RecordEnvelope(w: World, envelopes: map<string, Envelope>, id: string, node: Node, o: Outcome) returns (after: map<string, Envelope>)
    ensures after == var e := envelopes[id := Recorded(w, id, o)]; if Promotes(o) then PromoteBy(e, id, ScopesOf(node)) else e
  {
    var env := Envelope0(w, id, o.Result());
    if o.Ran? {
      var demoted;
      env, demoted := Enforce(o.deterministic, env);
    }
    after := envelopes[id := env];
    if o.Ran? && o.result.status == Green && o.deterministic {
      after := ApplyPromotions(after, id, node);
    }
  }

  /** Appends the edge's target unless it is display-only or its retries are used up. */
  method EnqueueEdge(nodeMap: map<string, Node>, ghost nodes: seq<Node>, queue: seq<string>, counts: Counts, e: Edge)
    returns (queue': seq<string>, counts': Counts, handled: bool)
    requires IndexesNodes(nodeMap, nodes)
    ensures forall held, taken ::
      (Enqueue(nodes, Routing(queue, counts, held, taken), e)
       == Routing(queue', counts', held + [e], if handled then taken + [e] else taken))
  {
    queue', counts' := queue, counts;
    if ExternalIn(nodeMap, e.to) { return queue, counts, true; }
    var key := (e.from, e.to);
    counts' := counts[key := (if key in counts then counts[key] else 0) + 1];
    if e.maxRetries > 0 && counts'[key] > e.maxRetries { return queue, counts', false; }
    return queue + [e.to], counts', true;
  }

  method FollowEdges(nodeMap: map<string, Node>, ghost nodes: seq<Node>, w: World, out: seq<Edge>, r: NodeResult, outputs: map<string, Outputs>, queue: seq<string>, counts: Counts)
    returns (queue': seq<string>, counts': Counts, handled: bool)
    requires IndexesNodes(nodeMap, nodes)
    ensures var rt := Route(nodes, w, out, r, outputs, Routing(queue, counts, [], []));
      queue' == rt.queue && counts' == rt.counts && (handled <==> rt.taken != [])
  {
    queue', counts', handled := queue, counts, false;
    ghost var rt0 := Routing(queue, counts, [], []);
    for i := 0 to |out|
      invariant var rt := Route(nodes, w, out[..i], r, outputs, rt0);
        queue' == rt.queue && counts' == rt.counts && (handled <==> rt.taken != [])
    {
      var e := out[i];
      assert out[..i + 1][..i] == out[..i];
      ghost var before := Route(nodes, w, out[..i], r, outputs, rt0);
      if Holds(w, e, r, outputs) {
        var taken;
        queue', counts', taken := EnqueueEdge(nodeMap, nodes, queue', counts', e);
        assert Enqueue(nodes, Routing(before.queue, before.counts, before.held, before.taken), e)
          == Routing(queue', counts', before.held + [e], if taken then before.taken + [e] else before.taken);
        if taken { handled := true; }
      }
    }
    assert out[..|out|] == out;
  }

  // ---------------------------------------------------------------------- the walk

  /** One iteration for a known node; failed is the run's message when its failure is fatal. */
  method Turn(g: Graph, w: World, nodeMap: map<string, Node>, outEdges: map<string, seq<Edge>>, ghost s: State, node: Node,
              id: string, rest: seq<string>, counts: Counts, results: map<string, NodeResult>, envelopes: map<string, Envelope>, iteration: nat)
    returns (queue': seq<string>, counts': Counts, results': map<string, NodeResult>, envelopes': map<string, Envelope>, failed: Option<Message>)
    requires IndexesNodes(nodeMap, g.nodes) && IndexesEdges(outEdges, g.edges)
    requires s.queue == [id] + rest && s.counts == counts && s.results == results && s.envelopes == envelopes && |s.trace| == iteration
    ensures var s' := Process(g, w, s, node);
      && s'.queue == queue' && s'.counts == counts' && s'.results == results' && s'.envelopes == envelopes'
      && s'.verdict == if failed.Some? then Some(Verdict(Failed, failed.value)) else None
  {
    assert s.queue[0] == id && s.queue[1..] == rest;
    var o := RunNode(w, iteration, node, Snapshot(results));
    var r := o.Result();
    results' := results[id := r];
    envelopes' := RecordEnvelope(w, envelopes, id, node, o);
    queue', counts', failed := rest, counts, None;
    var handled := false;
    if !o.Unregistered? {
      var out := if id in outEdges then outEdges[id] else [];
      queue', counts', handled := FollowEdges(nodeMap, g.nodes, w, out, r, Snapshot(results'), rest, counts);
    }
    if r.status == Failed && !handled && !node.background { failed := Some(FailureMessage(id, o)); }
  }

  /** Indexes, the authoring check and the entry nodes; refused carries the message of a run that
      ends before any node executes. */
  method Prepare(g: Graph)
    returns (nodeMap: map<string, Node>, outEdges: map<string, seq<Edge>>, queue: seq<string>, refused: Option<Message>)
    ensures IndexesNodes(nodeMap, g.nodes) && IndexesEdges(outEdges, g.edges)
    ensures Start(g) == State(queue, map[], map[], map[], [], if refused.Some? then Some(Verdict(Failed, refused.value)) else None)
  {
    nodeMap := IndexNodes(g.nodes);
    var inDegree;
    outEdges, inDegree := IndexEdges(g, nodeMap);
    var bad := FindNonLeaf(g, nodeMap, outEdges);
    queue := CollectEntries(g, inDegree);
    refused := if bad.Some? then Some(BackgroundNotLeaf(bad.value)) else if |queue| == 0 then Some(NoEntries) else None;
  }

  method Execute(g: Graph, w: World) returns (result: ExecutionResult)
    ensures Final(g, w, MAX_ITERATIONS).verdict.Some? && result == ResultOf(Final(g, w, MAX_ITERATIONS))
  {
    hide Process, Start, StateAt, Final, IndexesNodes, IndexesEdges;
    RunEnds(g, w, MAX_ITERATIONS);
    AtStart(g, w, MAX_ITERATIONS);
    var nodeMap, outEdges, queue, refused := Prepare(g);
    if refused.Some? {
      FinalIsStart(g, w);
      return ExecutionResult(Failed, map[], map[], refused.value);
    }
    ghost var s, n := Start(g), 0;
    var counts: Counts := map[];
    var results: map<string, NodeResult> := map[];
    var envelopes: map<string, Envelope> := map[];
    var iterations := 0;
    while |queue| > 0
      invariant s == StateAt(g, w, MAX_ITERATIONS, n) && s.verdict == None && |s.trace| == iterations == n <= MAX_ITERATIONS
      invariant s.queue == queue && s.counts == counts && s.results == results && s.envelopes == envelopes
      decreases MAX_ITERATIONS - iterations
    {
      if iterations >= MAX_ITERATIONS {
        FinalIs(g, w, MAX_ITERATIONS, n);
        return ExecutionResult(Failed, results, envelopes, TooManyIterations);
      }
      iterations := iterations + 1;
      var id, rest := queue[0], queue[1..];
      LookupByIndex(nodeMap, g.nodes, id);
      if id !in nodeMap {
        FinalIs(g, w, MAX_ITERATIONS, n);
        return ExecutionResult(Failed, results, envelopes, UnknownNode(id));
      }
      var failed;
      queue, counts, results, envelopes, failed := Turn(g, w, nodeMap, outEdges, s, nodeMap[id], id, rest, counts, results, envelopes, iterations - 1);
      NextTurn(g, w, MAX_ITERATIONS, n + 1);
      TraceGrows(g, w, s, nodeMap[id]);
      if failed.Some? {
        FinalIs(g, w, MAX_ITERATIONS, n);
        return ExecutionResult(Failed, results, envelopes, failed.value);
      }
      s, n := Step(g, w, MAX_ITERATIONS, s), n + 1;
    }
    FinalIs(g, w, MAX_ITERATIONS, n);
    return ExecutionResult(Green, results, envelopes, Completed);
  }

  lemma FinalIsStart(g: Graph, w: World)
    requires Start(g).verdict.Some?
    ensures Final(g, w, MAX_ITERATIONS) == Start(g)
  {
    AtStart(g, w, MAX_ITERATIONS);
    VerdictStays(g, w, MAX_ITERATIONS, 0, MAX_ITERATIONS + 1);
  }

  lemma LookupByIndex(m: map<string, Node>, nodes: seq<Node>, id: string)
    requires IndexesNodes(m, nodes)
    ensures Lookup(nodes, id) == if id in m then Some(m[id]) else None
  {
  }

  lemma TraceGrows(g: Graph, w: World, s: State, node: Node)
    requires s.queue != []
    ensures |Process(g, w, s, node).trace| == |s.trace| + 1
  {
  }
}
