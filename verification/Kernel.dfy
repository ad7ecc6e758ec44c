/** The graph kernel (internal/graph/executor.go) as a state machine over dequeued nodes:
    what one iteration of the queue walk does to the run. */
module Kernel {
  import opened Prelude
  import opened Trust
  import Capability

  const MAX_ITERATIONS: nat := 1000
  const EXTERNAL := "external"

  // ------------------------------------------------------------- graph data

  datatype Value = Bool(b: bool) | Str(s: string) | OtherValue

  type Outputs = map<string, Value>

  /** NodeStatus is an open string in the source; anything but green and failed routes alike. */
  datatype NodeStatus = Green | Failed | Skipped | OtherStatus(name: string)

  datatype Node = Node(
    id: string, typ: string, requires_: seq<Capability.Requirement>,
    validates: Option<seq<Scope>>,   // the parsed gate config; None when it does not parse
    timeout: string, background: bool, retry: Option<RetrySpec>)

  /** Delays as parsed, in nanoseconds; None when the text is not a duration. */
  datatype RetrySpec = RetrySpec(maxAttempts: int, initialDelay: Option<int>, maxDelay: Option<int>)

  datatype Edge = Edge(from: string, to: string, when: string, maxRetries: int)

  datatype Graph = Graph(nodes: seq<Node>, edges: seq<Edge>)

  datatype NodeResult = NodeResult(
    status: NodeStatus, outputs: Outputs, feedback: string,
    enrichment: Option<(string, seq<Claim>)>,   // executor-provided summary and claims
    transient: bool, attempt: nat)

  /** What a node executor hands back: an unset status, and possibly an error text. */
  datatype ExecReturn = ExecReturn(
    status: Option<NodeStatus>, outputs: Outputs, feedback: string,
    enrichment: Option<(string, seq<Claim>)>, transient: bool, err: Option<string>)

  /** Everything the kernel consults but does not decide.  The first argument of run, ended and
      is the iteration; ended(k, a, p) is the p-th reading of the execution context's deadline
      during attempt a. */
  datatype World = World(
    bindings: seq<Capability.Binding>,
    runId: string,
    registered: string -> Option<bool>,           // deterministic?  None: no executor of that type
    missing: string -> string,                    // the registry's error text
    denial: seq<Capability.Violation> -> string,  // rendered violations
    run: (nat, nat, Node, map<string, Outputs>) -> ExecReturn,
    ended: (nat, nat, nat) -> bool,
    validTimeout: string -> bool,
    cond: (string, map<string, Outputs>) -> bool)

  // ---------------------------------------------------------- static structure

  /** Later declarations of an id replace earlier ones. */
  function Lookup(nodes: seq<Node>, id: string): Option<Node> {
    if nodes == [] then None
    else if nodes[|nodes| - 1].id == id then Some(nodes[|nodes| - 1])
    else Lookup(nodes[..|nodes| - 1], id)
  }

  predicate IsExternal(nodes: seq<Node>, id: string) {
    Lookup(nodes, id).Some? && Lookup(nodes, id).value.typ == EXTERNAL
  }

  function OutEdges(edges: seq<Edge>, id: string): seq<Edge> {
    if edges == [] then []
    else
      var rest, last := OutEdges(edges[..|edges| - 1], id), edges[|edges| - 1];
      if last.from == id then rest + [last] else rest
  }

  lemma {:induction false} OutEdgesIn(edges: seq<Edge>, id: string)
    ensures forall e :: e in OutEdges(edges, id) <==> e in edges && e.from == id
  {
    if edges != [] {
      OutEdgesIn(edges[..|edges| - 1], id);
      assert edges == edges[..|edges| - 1] + [edges[|edges| - 1]];
    }
  }

  lemma OutEdgesAppend(edges: seq<Edge>, e: Edge, id: string)
    ensures OutEdges(edges + [e], id) == if e.from == id then OutEdges(edges, id) + [e] else OutEdges(edges, id)
  {
    assert (edges + [e])[..|edges|] == edges;
  }

  /** Loop-backs and edges out of display-only nodes do not make their target wait. */
  predicate Awaited(nodes: seq<Node>, edges: seq<Edge>, id: string) {
    exists i :: 0 <= i < |edges| && edges[i].to == id && edges[i].maxRetries == 0 && !IsExternal(nodes, edges[i].from)
  }

  function EntriesAmong(g: Graph, nodes: seq<Node>): seq<string> {
    if nodes == [] then []
    else
      var rest, last := EntriesAmong(g, nodes[..|nodes| - 1]), nodes[|nodes| - 1];
      if !Awaited(g.nodes, g.edges, last.id) && last.typ != EXTERNAL then rest + [last.id] else rest
  }

  function Entries(g: Graph): seq<string> { EntriesAmong(g, g.nodes) }

  /** A background node with an out-edge that would be executed. */
  predicate NotLeaf(g: Graph, n: Node) {
    n.background && exists i :: 0 <= i < |g.edges| && g.edges[i].from == n.id && !IsExternal(g.nodes, g.edges[i].to)
  }

  /** The first declared background node, among the first k, that is not a leaf. */
  function FirstNotLeaf(g: Graph, k: nat): Option<string>
    requires k <= |g.nodes|
  {
    if k == 0 then None
    else
      var earlier := FirstNotLeaf(g, k - 1);
      if earlier.Some? then earlier else if NotLeaf(g, g.nodes[k - 1]) then Some(g.nodes[k - 1].id) else None
  }

  // ------------------------------------------------------------ one node's turn

  predicate IsTrueText(s: string) {
    && |s| == 4
    && s[0] in {'t', 'T'} && s[1] in {'r', 'R'} && s[2] in {'u', 'U'} && s[3] in {'e', 'E'}
  }

  predicate Flag(outputs: Outputs, key: string) {
    key in outputs && match outputs[key]
      case Bool(b) => b
      case Str(s) => IsTrueText(s)
      case OtherValue => false
  }

  predicate Holds(w: World, e: Edge, r: NodeResult, outputs: map<string, Outputs>) {
    if e.when == "always" then true
    else if e.when == "" || e.when == "green" then r.status == Green
    else if e.when == "failed" then r.status == Failed
    else if e.when == "changed" then Flag(r.outputs, "changed")
    else if e.when == "unchanged" then !Flag(r.outputs, "changed")
    else w.cond(e.when, outputs)
  }

  function Snapshot(results: map<string, NodeResult>): map<string, Outputs> {
    map id | id in results :: results[id].outputs
  }

  /** One execution, with the kernel's corrections applied. */
  function Settle(w: World, k: nat, node: Node, inputs: map<string, Outputs>, a: nat): NodeResult {
    var r := w.run(k, a, node, inputs);
    var status := if r.err.Some? then Some(Failed) else r.status;
    var feedback := if r.err.Some? && r.feedback == "" then r.err.value else r.feedback;
    var feedback := if node.timeout != "" && w.validTimeout(node.timeout) && w.ended(k, a, 0) && status == Some(Failed)
      then "timed out after " + node.timeout + (if feedback != "" then " — last output: " + feedback else "")
      else feedback;
    NodeResult(if status == None then Green else status.value, r.outputs, feedback, r.enrichment, r.transient, a)
  }

  datatype RetryPolicy = RetryPolicy(maxAttempts: nat, initialDelay: nat, maxDelay: nat)

  const DEFAULT_INITIAL_DELAY: nat := 5_000_000_000   // nanoseconds
  const DEFAULT_MAX_DELAY: nat := 60_000_000_000
  const MAX_RETRY_ATTEMPTS: nat := 5

  /** A delay that does not parse or is not positive falls back to its default. */
  function DelayOr(parsed: Option<int>, default: nat): nat {
    if parsed.Some? && parsed.value > 0 then parsed.value else default
  }

  function RetryPolicyOf(spec: Option<RetrySpec>): (p: RetryPolicy)
    ensures 1 <= p.maxAttempts <= MAX_RETRY_ATTEMPTS && p.initialDelay <= p.maxDelay
    ensures p.maxAttempts > 1 ==> p.initialDelay > 0
  {
    if spec == None || spec.value.maxAttempts <= 1 then RetryPolicy(1, 0, 0)
    else
      var initial, most := DelayOr(spec.value.initialDelay, DEFAULT_INITIAL_DELAY), DelayOr(spec.value.maxDelay, DEFAULT_MAX_DELAY);
      RetryPolicy(if spec.value.maxAttempts > MAX_RETRY_ATTEMPTS then MAX_RETRY_ATTEMPTS else spec.value.maxAttempts,
        initial, if most < initial then initial else most)
  }

  predicate StopsAfter(w: World, k: nat, r: NodeResult, a: nat, limit: nat) {
    !r.transient || a >= limit || w.ended(k, a, 1) || w.ended(k, a, 2)
  }

  /** The result kept by the retry loop, starting with attempt a. */
  function Attempts(w: World, k: nat, node: Node, inputs: map<string, Outputs>, a: nat, limit: nat): NodeResult
    decreases limit - a
  {
    var r := Settle(w, k, node, inputs, a);
    if StopsAfter(w, k, r, a, limit) then r else Attempts(w, k, node, inputs, a + 1, limit)
  }

  datatype Outcome =
    | Denied(feedback: string)
    | Unregistered(error: string)
    | Ran(result: NodeResult, deterministic: bool)
  {
    function Result(): NodeResult {
      match this
      case Denied(f) => NodeResult(Failed, map[], f, None, false, 0)
      case Unregistered(f) => NodeResult(Failed, map[], f, None, false, 0)
      case Ran(r, _) => r
    }
    predicate DidFail() { Result().status == Failed }
  }

  function Decide(w: World, k: nat, node: Node, inputs: map<string, Outputs>): Outcome {
    var violations := Capability.Violations(node.id, w.bindings, node.requires_);
    if violations != [] then Denied(w.denial(violations))
    else match w.registered(node.typ)
      case None => Unregistered(w.missing(node.typ))
      case Some(det) => Ran(Attempts(w, k, node, inputs, 1, RetryPolicyOf(node.retry).maxAttempts), det)
  }

  /** The loop keeps the first attempt that is not transient, is the last of the policy, or ran out
      of time; every attempt before it was transient, with time and attempts left. */
  lemma {:induction false} RetriesOnlyTransients(w: World, k: nat, node: Node, inputs: map<string, Outputs>, a: nat, limit: nat)
    requires 1 <= a <= limit
    ensures var r := Attempts(w, k, node, inputs, a, limit);
      && a <= r.attempt <= limit && r == Settle(w, k, node, inputs, r.attempt)
      && (r.transient ==> r.attempt == limit || w.ended(k, r.attempt, 1) || w.ended(k, r.attempt, 2))
      && forall b :: a <= b < r.attempt ==> Settle(w, k, node, inputs, b).transient && !w.ended(k, b, 1) && !w.ended(k, b, 2)
    decreases limit - a
  {
    var r := Settle(w, k, node, inputs, a);
    if !StopsAfter(w, k, r, a, limit) { RetriesOnlyTransients(w, k, node, inputs, a + 1, limit); }
  }

  /** A node ends green only if every capability it requires is granted, its type has an executor,
      and the attempt kept returned no error and no other status. */
  lemma GreenWasAuthorized(w: World, k: nat, node: Node, inputs: map<string, Outputs>)
    requires Decide(w, k, node, inputs).Result().status == Green
    ensures forall q :: q in node.requires_ ==> Capability.Granted(w.bindings, q)
    ensures w.registered(node.typ).Some?
    ensures var r := Decide(w, k, node, inputs).Result();
      w.run(k, r.attempt, node, inputs).err.None? && w.run(k, r.attempt, node, inputs).status in {None, Some(Green)}
  {
    Capability.NoViolationIffAllGranted(node.id, w.bindings, node.requires_);
    RetriesOnlyTransients(w, k, node, inputs, 1, RetryPolicyOf(node.retry).maxAttempts);
  }

  function EnvelopeStatus(s: NodeStatus): string {
    match s case Green => "ok" case Skipped => "skipped" case _ => "failed"
  }

  function Envelope0(w: World, id: string, r: NodeResult): Envelope {
    var summary := if r.enrichment.Some? then r.enrichment.value.0 else "";
    Envelope(id, w.runId, EnvelopeStatus(r.status), r.attempt,
      if summary == "" then r.feedback else summary,
      if r.enrichment.Some? then r.enrichment.value.1 else [])
  }

  /** The envelope recorded for a node, after the trust boundary. */
  function Recorded(w: World, id: string, o: Outcome): Envelope {
    var env := Envelope0(w, id, o.Result());
    if o.Ran? then env.(claims := Enforced(o.deterministic, env.claims)) else env
  }

  function ScopesOf(node: Node): seq<Scope> {
    if node.typ == "gate" && node.validates.Some? then node.validates.value else []
  }

  predicate Promotes(o: Outcome) {
    o.Ran? && o.deterministic && o.result.status == Green
  }

  // ------------------------------------------------------------------- routing

  type Counts = map<(string, string), nat>

  function Count(counts: Counts, e: Edge): nat {
    if (e.from, e.to) in counts then counts[(e.from, e.to)] else 0
  }

  /** Parallel edges share one counter. */
  predicate Admits(counts: Counts, e: Edge) {
    e.maxRetries <= 0 || Count(counts, e) + 1 <= e.maxRetries
  }

  datatype Routing = Routing(queue: seq<string>, counts: Counts, held: seq<Edge>, taken: seq<Edge>)

  function Enqueue(nodes: seq<Node>, rt: Routing, e: Edge): Routing {
    if IsExternal(nodes, e.to) then rt.(held := rt.held + [e], taken := rt.taken + [e])
    else
      var counts := rt.counts[(e.from, e.to) := Count(rt.counts, e) + 1];
      if Admits(rt.counts, e) then Routing(rt.queue + [e.to], counts, rt.held + [e], rt.taken + [e])
      else rt.(counts := counts, held := rt.held + [e])
  }

  /** Following the out-edges of a node in order. */
  function Route(nodes: seq<Node>, w: World, out: seq<Edge>, r: NodeResult, outputs: map<string, Outputs>, rt: Routing): Routing {
    if out == [] then rt
    else
      var before, last := Route(nodes, w, out[..|out| - 1], r, outputs, rt), out[|out| - 1];
      if Holds(w, last, r, outputs) then Enqueue(nodes, before, last) else before
  }

  // ------------------------------------------------------------- whole run state

  datatype Message =
    | Completed
    | NodeFailed(id: string, feedback: string)
    | NodeDenied(id: string, feedback: string)
    | NodeUnregistered(id: string, error: string)
    | UnknownNode(id: string)
    | TooManyIterations
    | NoEntries
    | BackgroundNotLeaf(id: string)

  datatype Verdict = Verdict(status: NodeStatus, message: Message)

  /** One dequeued node: what it did, which out-edges' conditions held, which were taken. */
  datatype Visit = Visit(node: Node, id: string, outcome: Outcome, held: seq<Edge>, taken: seq<Edge>)

  datatype State = State(
    queue: seq<string>, counts: Counts,
    results: map<string, NodeResult>, envelopes: map<string, Envelope>,
    trace: seq<Visit>, verdict: Option<Verdict>)

  function Start(g: Graph): State {
    var s := State(Entries(g), map[], map[], map[], [], None);
    var bad := FirstNotLeaf(g, |g.nodes|);
    if bad.Some? then s.(verdict := Some(Verdict(Failed, BackgroundNotLeaf(bad.value))))
    else if Entries(g) == [] then s.(verdict := Some(Verdict(Failed, NoEntries)))
    else s
  }

  function FailureMessage(id: string, o: Outcome): Message {
    match o
    case Denied(f) => NodeDenied(id, f)
    case Unregistered(f) => NodeUnregistered(id, f)
    case Ran(r, _) => NodeFailed(id, r.feedback)
  }

  function Routed(g: Graph, w: World, s: State, o: Outcome): Routing
    requires s.queue != []
  {
    var id, rt := s.queue[0], Routing(s.queue[1..], s.counts, [], []);
    if o.Unregistered? then rt   // a registry miss goes straight to the failure decision
    else Route(g.nodes, w, OutEdges(g.edges, id), o.Result(), Snapshot(s.results[id := o.Result()]), rt)
  }

  function RecordedEnvelopes(w: World, s: State, node: Node, o: Outcome): map<string, Envelope>
    requires s.queue != []
  {
    var id := s.queue[0];
    var envelopes := s.envelopes[id := Recorded(w, id, o)];
    if Promotes(o) then PromoteBy(envelopes, id, ScopesOf(node)) else envelopes
  }

  /** One iteration for a known node. */
  function Process(g: Graph, w: World, s: State, node: Node): State
    requires s.queue != []
  {
    var id := s.queue[0];
    var o := Decide(w, |s.trace|, node, Snapshot(s.results));
    var rt := Routed(g, w, s, o);
    var fatal := o.DidFail() && rt.taken == [] && !node.background;
    State(rt.queue, rt.counts, s.results[id := o.Result()], RecordedEnvelopes(w, s, node, o),
      s.trace + [Visit(node, id, o, rt.held, rt.taken)],
      if fatal then Some(Verdict(Failed, FailureMessage(id, o))) else None)
  }

  /** One turn of the walk; a run that has a verdict stays as it is. */
  function Step(g: Graph, w: World, limit: nat, s: State): State {
    if s.verdict.Some? then s
    else if s.queue == [] then s.(verdict := Some(Verdict(Green, Completed)))
    else if |s.trace| >= limit then s.(verdict := Some(Verdict(Failed, TooManyIterations)))
    else match Lookup(g.nodes, s.queue[0])
      case None => s.(verdict := Some(Verdict(Failed, UnknownNode(s.queue[0]))))
      case Some(node) => Process(g, w, s, node)
  }

  /** The run after n turns.  Every reachable state of a run is one of these. */
  function StateAt(g: Graph, w: World, limit: nat, n: nat): State {
    if n == 0 then Start(g) else Step(g, w, limit, StateAt(g, w, limit, n - 1))
  }

  /** The finished run. */
  function Final(g: Graph, w: World, limit: nat): State { StateAt(g, w, limit, limit + 1) }

  lemma AtStart(g: Graph, w: World, limit: nat)
    ensures StateAt(g, w, limit, 0) == Start(g)
  {
  }

  lemma NextTurn(g: Graph, w: World, limit: nat, n: nat)
    requires n > 0
    ensures StateAt(g, w, limit, n) == Step(g, w, limit, StateAt(g, w, limit, n - 1))
  {
  }

  lemma NothingRunYet(g: Graph)
    ensures Start(g).trace == []
  {
  }

  lemma StepCounts(g: Graph, w: World, limit: nat, s: State)
    requires |s.trace| <= limit
    ensures var s' := Step(g, w, limit, s);
      |s'.trace| <= limit && (s'.verdict == None ==> s.verdict == None && |s'.trace| == |s.trace| + 1)
  {
    hide Decide, Routed, RecordedEnvelopes, Snapshot, Lookup;
  }

  lemma {:induction false} TurnsCounted(g: Graph, w: World, limit: nat, n: nat)
    ensures var s := StateAt(g, w, limit, n);
      |s.trace| <= limit && (s.verdict == None ==> |s.trace| == n)
  {
    hide *;
    if n == 0 {
      AtStart(g, w, limit);
      NothingRunYet(g);
    } else {
      TurnsCounted(g, w, limit, n - 1);
      NextTurn(g, w, limit, n);
      StepCounts(g, w, limit, StateAt(g, w, limit, n - 1));
    }
  }

  /** Every run ends, with a verdict. */
  lemma RunEnds(g: Graph, w: World, limit: nat)
    ensures Final(g, w, limit).verdict.Some?
  {
    TurnsCounted(g, w, limit, limit);
    TurnsCounted(g, w, limit, limit + 1);
  }

  lemma {:induction false} VerdictStays(g: Graph, w: World, limit: nat, n: nat, m: nat)
    requires n <= m && StateAt(g, w, limit, n).verdict.Some?
    ensures StateAt(g, w, limit, m) == StateAt(g, w, limit, n)
    decreases m
  {
    if n < m { VerdictStays(g, w, limit, n, m - 1); }
  }

  /** A turn that reaches a verdict is the last. */
  lemma FinalIs(g: Graph, w: World, limit: nat, n: nat)
    requires n <= limit && Step(g, w, limit, StateAt(g, w, limit, n)).verdict.Some?
    ensures Final(g, w, limit) == Step(g, w, limit, StateAt(g, w, limit, n))
  {
    VerdictStays(g, w, limit, n + 1, limit + 1);
  }
}
