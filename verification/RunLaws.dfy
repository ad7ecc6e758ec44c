/** Laws of whole runs of the graph kernel: who ran and why, how often an edge was taken, and
    exactly when a run is green. */
module RunLaws {
  import opened Prelude
  import opened Kernel
  import opened Termination

  // ---------------------------------------------------------------- views of a trace

  function Targets(nodes: seq<Node>, edges: seq<Edge>): seq<string> {
    if edges == [] then []
    else
      var rest, last := Targets(nodes, edges[..|edges| - 1]), edges[|edges| - 1];
      if IsExternal(nodes, last.to) then rest else rest + [last.to]
  }

  /** Every node enqueued by a taken edge, in order. */
  function Enqueued(nodes: seq<Node>, trace: seq<Visit>): seq<string> {
    if trace == [] then []
    else Enqueued(nodes, trace[..|trace| - 1]) + Targets(nodes, trace[|trace| - 1].taken)
  }

  function Ids(trace: seq<Visit>): seq<string> {
    seq(|trace|, i requires 0 <= i < |trace| => trace[i].id)
  }

  /** The latest result of each node that ran. */
  function Latest(trace: seq<Visit>): map<string, NodeResult> {
    if trace == [] then map[]
    else Latest(trace[..|trace| - 1])[trace[|trace| - 1].id := trace[|trace| - 1].outcome.Result()]
  }

  predicate Absorbed(v: Visit) { v.outcome.DidFail() && !v.node.background ==> v.taken != [] }

  // --------------------------------------------------------------- routing, one visit

  lemma TargetsAppend(nodes: seq<Node>, edges: seq<Edge>, e: Edge)
    ensures Targets(nodes, edges + [e]) == Targets(nodes, edges) + if IsExternal(nodes, e.to) then [] else [e.to]
  {
    assert (edges + [e])[..|edges|] == edges;
  }

  lemma NoTargets(nodes: seq<Node>, queue: seq<string>)
    ensures queue == queue + Targets(nodes, [])
  {
  }

  lemma EnqueueTargets(nodes: seq<Node>, rt: Routing, e: Edge, queue: seq<string>)
    requires rt.queue == queue + Targets(nodes, rt.taken)
    ensures Enqueue(nodes, rt, e).queue == queue + Targets(nodes, Enqueue(nodes, rt, e).taken)
  {
    TargetsAppend(nodes, rt.taken, e);
  }

  lemma {:induction false} RouteQueue(nodes: seq<Node>, w: World, out: seq<Edge>, r: NodeResult, outputs: map<string, Outputs>, queue: seq<string>, counts: Counts)
    ensures var rt := Route(nodes, w, out, r, outputs, Routing(queue, counts, [], []));
      rt.queue == queue + Targets(nodes, rt.taken)
  {
    hide Enqueue, Targets, Holds;
    if out == [] {
      NoTargets(nodes, queue);
    } else {
      var init, last := out[..|out| - 1], out[|out| - 1];
      RouteQueue(nodes, w, init, r, outputs, queue, counts);
      EnqueueTargets(nodes, Route(nodes, w, init, r, outputs, Routing(queue, counts, [], [])), last, queue);
    }
  }

  /** The conditions that held are exactly the out-edges whose condition holds; taken ones are among them. */
  lemma {:induction false} RouteHeld(nodes: seq<Node>, w: World, out: seq<Edge>, r: NodeResult, outputs: map<string, Outputs>, queue: seq<string>, counts: Counts)
    ensures var rt := Route(nodes, w, out, r, outputs, Routing(queue, counts, [], []));
      && (forall e :: e in rt.held <==> e in out && Holds(w, e, r, outputs))
      && (forall e :: e in rt.taken ==> e in rt.held)
  {
    if out != [] {
      var init, last := out[..|out| - 1], out[|out| - 1];
      RouteHeld(nodes, w, init, r, outputs, queue, counts);
      assert out == init + [last];
    }
  }

  // --------------------------------------------------------------- one turn of the walk

  /** What any turn that runs a node does to the queue, the trace and the results. */
  ghost predicate Turn(g: Graph, w: World, s: State, s': State, v: Visit) {
    && s.queue != [] && v.id == s.queue[0] && s'.trace == s.trace + [v]
    && s'.queue == s.queue[1..] + Targets(g.nodes, v.taken)
    && s'.results == s.results[v.id := v.outcome.Result()]
    && forall e :: e in v.taken ==>
         e in g.edges && e.from == v.id && Holds(w, e, v.outcome.Result(), Snapshot(s'.results))
  }

  ghost predicate Halted(s: State, s': State) { s' == s.(verdict := s'.verdict) }

  lemma ProcessIsTurn(g: Graph, w: World, s: State, node: Node)
    requires s.queue != []
    ensures Turn(g, w, s, Process(g, w, s, node), Process(g, w, s, node).trace[|s.trace|])
  {
    var id, o := s.queue[0], Decide(w, |s.trace|, node, Snapshot(s.results));
    RouteQueue(g.nodes, w, OutEdges(g.edges, id), o.Result(), Snapshot(s.results[id := o.Result()]), s.queue[1..], s.counts);
    RouteHeld(g.nodes, w, OutEdges(g.edges, id), o.Result(), Snapshot(s.results[id := o.Result()]), s.queue[1..], s.counts);
    OutEdgesIn(g.edges, id);
  }

  lemma StepTurnsOrHalts(g: Graph, w: World, limit: nat, s: State)
    ensures var s' := Step(g, w, limit, s);
      Halted(s, s') || (s'.trace != [] && Turn(g, w, s, s', s'.trace[|s.trace|]))
  {
    if s.queue != [] && Lookup(g.nodes, s.queue[0]).Some? {
      ProcessIsTurn(g, w, s, Lookup(g.nodes, s.queue[0]).value);
    }
  }

  // ------------------------------------------------------- first in, first out: who runs

  lemma EnqueuedAppend(nodes: seq<Node>, trace: seq<Visit>, v: Visit)
    ensures Enqueued(nodes, trace + [v]) == Enqueued(nodes, trace) + Targets(nodes, v.taken)
    ensures Ids(trace + [v]) == Ids(trace) + [v.id]
    ensures Latest(trace + [v]) == Latest(trace)[v.id := v.outcome.Result()]
  {
    assert (trace + [v])[..|trace|] == trace;
  }

  ghost predicate QueueLaw(g: Graph, s: State) {
    && Entries(g) + Enqueued(g.nodes, s.trace) == Ids(s.trace) + s.queue
    && s.results == Latest(s.trace)
  }

  lemma Reassociate<T>(a: seq<T>, e: seq<T>, ids: seq<T>, x: T, q: seq<T>, t: seq<T>)
    requires a + e == ids + ([x] + q)
    ensures a + (e + t) == (ids + [x]) + (q + t)
  {
    assert a + (e + t) == (a + e) + t;
  }

  lemma TurnKeepsQueueLaw(g: Graph, w: World, s: State, s': State, v: Visit)
    requires QueueLaw(g, s) && Turn(g, w, s, s', v)
    ensures QueueLaw(g, s')
  {
    hide Enqueued, Ids, Targets, Entries, Latest;
    EnqueuedAppend(g.nodes, s.trace, v);
    var t, e, q, ids := Targets(g.nodes, v.taken), Enqueued(g.nodes, s.trace), s.queue[1..], Ids(s.trace);
    assert s.queue == [v.id] + q;
    Reassociate(Entries(g), e, ids, v.id, q, t);
  }

  lemma StartQueueLaw(g: Graph)
    ensures QueueLaw(g, Start(g))
  {
    assert Ids([]) == [];
  }

  lemma StepKeepsQueueLaw(g: Graph, w: World, limit: nat, s: State)
    requires QueueLaw(g, s)
    ensures QueueLaw(g, Step(g, w, limit, s))
  {
    hide Step;
    StepTurnsOrHalts(g, w, limit, s);
    var s' := Step(g, w, limit, s);
    if !Halted(s, s') { TurnKeepsQueueLaw(g, w, s, s', s'.trace[|s.trace|]); }
  }

  /** Conservation: entries and taken edges on one side, nodes run and still queued on the other. */
  lemma {:induction false} EveryEnqueuedNodeRunsOnce(g: Graph, w: World, limit: nat, n: nat)
    ensures QueueLaw(g, StateAt(g, w, limit, n))
  {
    hide *;
    if n == 0 {
      AtStart(g, w, limit);
      StartQueueLaw(g);
    } else {
      EveryEnqueuedNodeRunsOnce(g, w, limit, n - 1);
      NextTurn(g, w, limit, n);
      StepKeepsQueueLaw(g, w, limit, StateAt(g, w, limit, n - 1));
    }
  }

  /** In a completed run a node ran exactly once per entry listing and per taken in-edge: there
      is no visited set. */
  lemma CompletedRunVisits(g: Graph, w: World, limit: nat)
    requires Final(g, w, limit).verdict == Some(Verdict(Green, Completed))
    ensures var s := Final(g, w, limit);
      multiset(Ids(s.trace)) == multiset(Entries(g)) + multiset(Enqueued(g.nodes, s.trace))
  {
    hide *;
    FinalIsLast(g, w, limit);
    EveryEnqueuedNodeRunsOnce(g, w, limit, limit + 1);
    CompletedMeansDrained(g, w, limit, limit + 1);
    DrainedVisits(g, Final(g, w, limit));
  }

  lemma FinalIsLast(g: Graph, w: World, limit: nat)
    ensures Final(g, w, limit) == StateAt(g, w, limit, limit + 1)
  {
  }

  lemma DrainedVisits(g: Graph, s: State)
    requires QueueLaw(g, s) && s.queue == []
    ensures multiset(Ids(s.trace)) == multiset(Entries(g)) + multiset(Enqueued(g.nodes, s.trace))
  {
    assert Ids(s.trace) + s.queue == Ids(s.trace);
  }

  lemma StartNotCompleted(g: Graph)
    ensures Start(g).verdict != Some(Verdict(Green, Completed))
  {
  }

  lemma CompletedStep(g: Graph, w: World, limit: nat, s: State)
    requires Step(g, w, limit, s).verdict == Some(Verdict(Green, Completed))
    ensures if s.verdict.Some? then Step(g, w, limit, s) == s else Step(g, w, limit, s).queue == []
  {
  }

  lemma {:induction false} CompletedMeansDrained(g: Graph, w: World, limit: nat, n: nat)
    requires StateAt(g, w, limit, n).verdict == Some(Verdict(Green, Completed))
    ensures StateAt(g, w, limit, n).queue == []
  {
    hide *;
    if n == 0 {
      AtStart(g, w, limit);
      StartNotCompleted(g);
    } else {
      var s := StateAt(g, w, limit, n - 1);
      NextTurn(g, w, limit, n);
      CompletedStep(g, w, limit, s);
      if s.verdict.Some? { CompletedMeansDrained(g, w, limit, n - 1); }
    }
  }

  // ----------------------------------------------------------- why a node ran

  /** Visit k has a cause: it is the k-th entry, or an earlier visit took an edge to it whose
      condition held against the results recorded up to then. */
  ghost predicate Caused(g: Graph, w: World, trace: seq<Visit>, k: int)
    requires 0 <= k < |trace|
  {
    || (k < |Entries(g)| && trace[k].id == Entries(g)[k])
    || exists j, e :: TookEdge(g, w, trace, j, e) && j < k && e.to == trace[k].id
  }

  ghost predicate TookEdge(g: Graph, w: World, trace: seq<Visit>, j: int, e: Edge) {
    && 0 <= j < |trace| && e in trace[j].taken
    && Executable(g, e) && e.from == trace[j].id
    && Holds(w, e, trace[j].outcome.Result(), Snapshot(Latest(trace[..j + 1])))
  }

  /** One taken edge of one visit held against the results known then. */
  ghost predicate HeldAt(g: Graph, w: World, trace: seq<Visit>, j: nat, e: Edge)
    requires j < |trace|
  {
    e in g.edges && e.from == trace[j].id && Holds(w, e, trace[j].outcome.Result(), Snapshot(Latest(trace[..j + 1])))
  }

  /** Every taken edge is an out-edge of its visit's node whose condition held. */
  ghost predicate EdgesHeld(g: Graph, w: World, trace: seq<Visit>) {
    forall j, e :: 0 <= j < |trace| && e in trace[j].taken ==> HeldAt(g, w, trace, j, e)
  }

  lemma {:induction false} TargetOf(nodes: seq<Node>, edges: seq<Edge>, i: int) returns (e: Edge)
    requires 0 <= i < |Targets(nodes, edges)|
    ensures e in edges && e.to == Targets(nodes, edges)[i] && !IsExternal(nodes, e.to)
  {
    var init, last := edges[..|edges| - 1], edges[|edges| - 1];
    if i < |Targets(nodes, init)| { e := TargetOf(nodes, init, i); } else { e := last; }
  }

  lemma {:induction false} EnqueuerOf(nodes: seq<Node>, trace: seq<Visit>, i: int) returns (j: int, e: Edge)
    requires 0 <= i < |Enqueued(nodes, trace)|
    ensures 0 <= j < |trace| && e in trace[j].taken && e.to == Enqueued(nodes, trace)[i] && !IsExternal(nodes, e.to)
  {
    var init, last := trace[..|trace| - 1], trace[|trace| - 1];
    if i < |Enqueued(nodes, init)| {
      j, e := EnqueuerOf(nodes, init, i);
    } else {
      j := |trace| - 1;
      e := TargetOf(nodes, last.taken, i - |Enqueued(nodes, init)|);
    }
  }

  lemma TurnLatest(g: Graph, w: World, s: State, s': State, v: Visit)
    requires QueueLaw(g, s) && Turn(g, w, s, s', v)
    ensures Latest(s'.trace) == s'.results
  {
    hide Holds, Targets, Enqueued, Entries;
    assert s'.trace[..|s.trace|] == s.trace;
  }

  lemma TurnKeepsEdgesHeld(g: Graph, w: World, s: State, s': State, v: Visit)
    requires QueueLaw(g, s) && EdgesHeld(g, w, s.trace) && Turn(g, w, s, s', v)
    ensures EdgesHeld(g, w, s'.trace)
  {
    TurnLatest(g, w, s, s', v);
    hide Holds, QueueLaw, Latest, Targets, HeldAt;
    forall j, e | 0 <= j < |s'.trace| && e in s'.trace[j].taken ensures HeldAt(g, w, s'.trace, j, e) {
      if j < |s.trace| { HeldBefore(g, w, s.trace, v, j, e); } else { HeldNow(g, w, s, s', v, e); }
    }
  }

  lemma HeldBefore(g: Graph, w: World, trace: seq<Visit>, v: Visit, j: nat, e: Edge)
    requires EdgesHeld(g, w, trace) && j < |trace| && e in trace[j].taken
    ensures HeldAt(g, w, trace + [v], j, e)
  {
    hide Holds, Latest;
    assert (trace + [v])[..j + 1] == trace[..j + 1] && (trace + [v])[j] == trace[j];
  }

  lemma HeldNow(g: Graph, w: World, s: State, s': State, v: Visit, e: Edge)
    requires Turn(g, w, s, s', v) && Latest(s'.trace) == s'.results && e in v.taken
    ensures HeldAt(g, w, s'.trace, |s.trace|, e)
  {
    hide Holds, Latest, Targets;
    assert s'.trace[..|s.trace| + 1] == s'.trace && s'.trace[|s.trace|] == v;
  }

  lemma TurnIsCaused(g: Graph, w: World, s: State, s': State, v: Visit)
    requires QueueLaw(g, s) && AllCaused(g, w, s.trace) && Turn(g, w, s, s', v)
    ensures AllCaused(g, w, s'.trace)
  {
    TurnKeepsEdgesHeld(g, w, s, s', v);
    NextIsCaused(g, w, s, s'.trace);
    forall k | 0 <= k < |s.trace| ensures Caused(g, w, s'.trace, k) {
      StillCaused(g, w, s.trace, v, k);
    }
  }

  lemma NextIsCaused(g: Graph, w: World, s: State, trace: seq<Visit>)
    requires QueueLaw(g, s) && s.queue != [] && EdgesHeld(g, w, s.trace)
    requires |trace| == |s.trace| + 1 && trace[..|s.trace|] == s.trace && trace[|s.trace|].id == s.queue[0]
    ensures Caused(g, w, trace, |s.trace|)
  {
    var k, entries := |s.trace|, Entries(g);
    assert (Ids(s.trace) + s.queue)[k] == s.queue[0];
    if k >= |entries| {
      var j, e := EnqueuerOf(g.nodes, s.trace, k - |entries|);
      assert trace[j] == s.trace[j] && trace[..j + 1] == s.trace[..j + 1];
      assert TookEdge(g, w, trace, j, e);
    }
  }

  lemma StillCaused(g: Graph, w: World, trace: seq<Visit>, v: Visit, k: int)
    requires 0 <= k < |trace| && Caused(g, w, trace, k)
    ensures Caused(g, w, trace + [v], k)
  {
    if j, e :| TookEdge(g, w, trace, j, e) && j < k && e.to == trace[k].id {
      assert (trace + [v])[..j + 1] == trace[..j + 1];
      assert TookEdge(g, w, trace + [v], j, e);
    }
  }

  ghost predicate AllCaused(g: Graph, w: World, trace: seq<Visit>) {
    EdgesHeld(g, w, trace) && forall k :: 0 <= k < |trace| ==> Caused(g, w, trace, k)
  }

  lemma StepIsCaused(g: Graph, w: World, limit: nat, s: State)
    requires QueueLaw(g, s) && AllCaused(g, w, s.trace)
    ensures AllCaused(g, w, Step(g, w, limit, s).trace)
  {
    hide Step;
    StepTurnsOrHalts(g, w, limit, s);
    var s' := Step(g, w, limit, s);
    if !Halted(s, s') { TurnIsCaused(g, w, s, s', s'.trace[|s.trace|]); }
  }

  lemma NothingToCause(g: Graph, w: World)
    ensures AllCaused(g, w, Start(g).trace)
  {
  }

  /** Nothing runs without a cause, in any reachable state of any run. */
  lemma {:induction false} EveryVisitIsCaused(g: Graph, w: World, limit: nat, n: nat)
    ensures AllCaused(g, w, StateAt(g, w, limit, n).trace)
  {
    hide *;
    if n == 0 {
      AtStart(g, w, limit);
      NothingToCause(g, w);
    } else {
      EveryVisitIsCaused(g, w, limit, n - 1);
      EveryEnqueuedNodeRunsOnce(g, w, limit, n - 1);
      NextTurn(g, w, limit, n);
      StepIsCaused(g, w, limit, StateAt(g, w, limit, n - 1));
    }
  }

  // ------------------------------------------------------------ retry limits are kept

  function Times(e: Edge, edges: seq<Edge>): nat {
    if edges == [] then 0 else Times(e, edges[..|edges| - 1]) + if edges[|edges| - 1] == e then 1 else 0
  }

  function TimesTaken(e: Edge, trace: seq<Visit>): nat {
    if trace == [] then 0 else TimesTaken(e, trace[..|trace| - 1]) + Times(e, trace[|trace| - 1].taken)
  }

  ghost predicate WithinLimit(e: Edge, taken: nat, counts: Counts) {
    taken <= Count(counts, e) && taken <= e.maxRetries
  }

  lemma {:induction false} RouteKeepsLimit(nodes: seq<Node>, w: World, out: seq<Edge>, r: NodeResult, outputs: map<string, Outputs>, rt: Routing, e: Edge, before: nat)
    requires Limited(e) && !IsExternal(nodes, e.to)
    requires WithinLimit(e, before + Times(e, rt.taken), rt.counts)
    ensures var rt' := Route(nodes, w, out, r, outputs, rt);
      WithinLimit(e, before + Times(e, rt'.taken), rt'.counts)
  {
    if out != [] {
      var init, last := out[..|out| - 1], out[|out| - 1];
      RouteKeepsLimit(nodes, w, init, r, outputs, rt, e, before);
      var mid := Route(nodes, w, init, r, outputs, rt);
      assert (mid.taken + [last])[..|mid.taken|] == mid.taken;
    }
  }

  lemma ProcessKeepsLimit(g: Graph, w: World, s: State, node: Node, e: Edge)
    requires Limited(e) && !IsExternal(g.nodes, e.to) && s.queue != []
    requires WithinLimit(e, TimesTaken(e, s.trace), s.counts)
    ensures var s' := Process(g, w, s, node);
      WithinLimit(e, TimesTaken(e, s'.trace), s'.counts)
  {
    var s' := Process(g, w, s, node);
    assert s'.trace[..|s.trace|] == s.trace;
    var id, o := s.queue[0], Decide(w, |s.trace|, node, Snapshot(s.results));
    RouteKeepsLimit(g.nodes, w, OutEdges(g.edges, id), o.Result(), Snapshot(s.results[id := o.Result()]),
      Routing(s.queue[1..], s.counts, [], []), e, TimesTaken(e, s.trace));
  }

  lemma StepKeepsLimit(g: Graph, w: World, limit: nat, s: State, e: Edge)
    requires Limited(e) && !IsExternal(g.nodes, e.to)
    requires WithinLimit(e, TimesTaken(e, s.trace), s.counts)
    ensures var s' := Step(g, w, limit, s); WithinLimit(e, TimesTaken(e, s'.trace), s'.counts)
  {
    hide Process;
    if s.queue != [] && Lookup(g.nodes, s.queue[0]).Some? {
      ProcessKeepsLimit(g, w, s, Lookup(g.nodes, s.queue[0]).value, e);
    }
  }

  lemma StartWithinLimit(g: Graph, e: Edge)
    requires Limited(e)
    ensures WithinLimit(e, TimesTaken(e, Start(g).trace), Start(g).counts)
  {
  }

  /** A limited edge is taken at most maxRetries times in a run, however its parallel edges and
      the rest of the run behave. */
  lemma {:induction false} RetryLimitKept(g: Graph, w: World, limit: nat, n: nat, e: Edge)
    requires Limited(e) && !IsExternal(g.nodes, e.to)
    ensures var s := StateAt(g, w, limit, n);
      WithinLimit(e, TimesTaken(e, s.trace), s.counts)
  {
    hide *;
    if n == 0 {
      AtStart(g, w, limit);
      StartWithinLimit(g, e);
    } else {
      RetryLimitKept(g, w, limit, n - 1, e);
      NextTurn(g, w, limit, n);
      StepKeepsLimit(g, w, limit, StateAt(g, w, limit, n - 1), e);
    }
  }

  // --------------------------------------------------------- exactly when a run is green

  /** Stopped before or beside the nodes' own results: a malformed graph or the safety valve. */
  predicate Guarded(m: Message) {
    m.NoEntries? || m.BackgroundNotLeaf? || m.UnknownNode? || m.TooManyIterations?
  }

  ghost predicate FailuresAbsorbed(trace: seq<Visit>) {
    forall k :: 0 <= k < |trace| ==> Absorbed(trace[k])
  }

  ghost predicate VerdictExplained(s: State) {
    match s.verdict
    case None => FailuresAbsorbed(s.trace)
    case Some(v) =>
      if v.message == Completed then v.status == Green && FailuresAbsorbed(s.trace)
      else if Guarded(v.message) then v.status == Failed && FailuresAbsorbed(s.trace)
      else
        && v.status == Failed && s.trace != []
        && FailuresAbsorbed(s.trace[..|s.trace| - 1])
        && var last := s.trace[|s.trace| - 1];
           !Absorbed(last) && v.message == FailureMessage(last.id, last.outcome)
  }

  lemma StartIsExplained(g: Graph)
    ensures VerdictExplained(Start(g))
  {
  }

  lemma StepIsExplained(g: Graph, w: World, limit: nat, s: State)
    requires VerdictExplained(s)
    ensures VerdictExplained(Step(g, w, limit, s))
  {
    hide Process;
    if s.verdict.None? && s.queue != [] && Lookup(g.nodes, s.queue[0]).Some? {
      ProcessIsExplained(g, w, s, Lookup(g.nodes, s.queue[0]).value);
    }
  }

  lemma ProcessIsExplained(g: Graph, w: World, s: State, node: Node)
    requires FailuresAbsorbed(s.trace) && s.queue != [] && s.verdict.None?
    ensures VerdictExplained(Process(g, w, s, node))
  {
    hide Decide, Routed, RecordedEnvelopes;
    assert Process(g, w, s, node).trace[..|s.trace|] == s.trace;
  }

  lemma {:induction false} VerdictIsExplained(g: Graph, w: World, limit: nat, n: nat)
    ensures VerdictExplained(StateAt(g, w, limit, n))
  {
    hide *;
    if n == 0 {
      AtStart(g, w, limit);
      StartIsExplained(g);
    } else {
      VerdictIsExplained(g, w, limit, n - 1);
      NextTurn(g, w, limit, n);
      StepIsExplained(g, w, limit, StateAt(g, w, limit, n - 1));
    }
  }

  /** Past the pre-checks and guards, a run is green exactly when every foreground failure was
      taken by some edge; otherwise it fails on the first one that was not. */
  lemma GreenIffFailuresAbsorbed(g: Graph, w: World, limit: nat)
    requires Final(g, w, limit).verdict.Some? && !Guarded(Final(g, w, limit).verdict.value.message)
    ensures var s := Final(g, w, limit);
      && (s.verdict.value.status == Green <==> FailuresAbsorbed(s.trace))
      && (s.verdict.value.status == Failed <==> !FailuresAbsorbed(s.trace))
      && (s.verdict.value.status == Failed ==>
        s.trace != [] && FailuresAbsorbed(s.trace[..|s.trace| - 1])
        && s.verdict.value.message == FailureMessage(s.trace[|s.trace| - 1].id, s.trace[|s.trace| - 1].outcome))
  {
    VerdictIsExplained(g, w, limit, limit + 1);
  }
}
