/** The graph-native feedback loop: worker -> gate, with a when:failed loop-back of r retries. */
module FeedbackLoop {
  import opened Prelude
  import opened Kernel
  import opened RunLaws

  function Forth(a: Node, b: Node): Edge { Edge(a.id, b.id, "", 0) }

  function Back(a: Node, b: Node, r: int): Edge { Edge(b.id, a.id, "failed", r) }

  function LoopGraph(a: Node, b: Node, r: int): Graph { Graph([a, b], [Forth(a, b), Back(a, b, r)]) }

  predicate Loops(a: Node, b: Node, r: int) {
    && r >= 1 && a.id != b.id && !a.background && !b.background
    && a.typ != EXTERNAL && b.typ != EXTERNAL
  }

  ghost predicate AlwaysGreen(w: World, a: Node) {
    forall k, inputs :: Decide(w, k, a, inputs).Result().status == Green
  }

  /** The gate ran, or was denied, and failed: its when:failed edges are followed. */
  ghost predicate AlwaysRed(w: World, b: Node) {
    forall k, inputs :: Decide(w, k, b, inputs).DidFail() && !Decide(w, k, b, inputs).Unregistered?
  }

  ghost predicate Alternates(trace: seq<Visit>, a: Node, b: Node) {
    forall i :: 0 <= i < |trace| ==> trace[i].id == if i % 2 == 0 then a.id else b.id
  }

  /** n visits done, with the next node queued and each edge tried as often as it was reached. */
  ghost predicate InLoop(s: State, a: Node, b: Node, r: int, n: nat) {
    && s.verdict == None && |s.trace| == n && Alternates(s.trace, a, b)
    && s.queue == [if n % 2 == 0 then a.id else b.id]
    && Count(s.counts, Back(a, b, r)) == n / 2 <= r
  }

  lemma LoopStructure(a: Node, b: Node, r: int)
    requires Loops(a, b, r)
    ensures var g := LoopGraph(a, b, r);
      && Lookup(g.nodes, a.id) == Some(a) && Lookup(g.nodes, b.id) == Some(b)
      && OutEdges(g.edges, a.id) == [Forth(a, b)] && OutEdges(g.edges, b.id) == [Back(a, b, r)]
  {
    var g := LoopGraph(a, b, r);
    assert g.nodes[..1] == [a] && g.edges[..1] == [Forth(a, b)];
    assert g.edges[..1][..0] == [] && OutEdges(g.edges[..1], b.id) == [];
    assert OutEdges(g.edges[..1], a.id) == [Forth(a, b)];
  }

  /** The worker's only in-edge is a loop-back, so it is an entry; the gate is not. */
  lemma LoopStart(a: Node, b: Node, r: int)
    requires Loops(a, b, r)
    ensures InLoop(Start(LoopGraph(a, b, r)), a, b, r, 0)
  {
    var g := LoopGraph(a, b, r);
    LoopStructure(a, b, r);
    assert g.nodes[..1] == [a] && g.nodes[..1][..0] == [];
    assert Awaited(g.nodes, g.edges, b.id) by { assert g.edges[0].to == b.id; }
    assert EntriesAmong(g, g.nodes[..1]) == [a.id];
    assert FirstNotLeaf(g, 1) == None;
  }

  lemma RoutedAlong(g: Graph, w: World, s: State, id: string, e: Edge, o: Outcome)
    requires s.queue == [id] && OutEdges(g.edges, id) == [e] && !o.Unregistered?
    requires Holds(w, e, o.Result(), Snapshot(s.results[id := o.Result()]))
    ensures Routed(g, w, s, o) == Enqueue(g.nodes, Routing([], s.counts, [], []), e)
  {
    var out, rt, outputs := OutEdges(g.edges, id), Routing(s.queue[1..], s.counts, [], []), Snapshot(s.results[id := o.Result()]);
    assert s.queue[1..] == [] && out[..|out| - 1] == [] && out[|out| - 1] == e;
    assert Route(g.nodes, w, out[..|out| - 1], o.Result(), outputs, rt) == rt;
    assert Route(g.nodes, w, out, o.Result(), outputs, rt) == Enqueue(g.nodes, rt, e);
  }

  lemma EnqueueOne(nodes: seq<Node>, counts: Counts, e: Edge)
    requires !IsExternal(nodes, e.to)
    ensures Enqueue(nodes, Routing([], counts, [], []), e) == Routing(
      if Admits(counts, e) then [e.to] else [], counts[(e.from, e.to) := Count(counts, e) + 1],
      [e], if Admits(counts, e) then [e] else [])
  {
  }

  /** A node alone in the queue with one out-edge, whose condition holds. */
  lemma OneEdgeTurn(g: Graph, w: World, s: State, node: Node, e: Edge, o: Outcome)
    requires s.queue == [node.id] && OutEdges(g.edges, node.id) == [e] && !IsExternal(g.nodes, e.to)
    requires o == Decide(w, |s.trace|, node, Snapshot(s.results)) && !o.Unregistered?
    requires Holds(w, e, o.Result(), Snapshot(s.results[node.id := o.Result()]))
    ensures var s', taken := Process(g, w, s, node), if Admits(s.counts, e) then [e] else [];
      && s'.trace == s.trace + [Visit(node, node.id, o, [e], taken)]
      && s'.counts == s.counts[(e.from, e.to) := Count(s.counts, e) + 1]
      && s'.queue == (if Admits(s.counts, e) then [e.to] else [])
      && s'.verdict == if o.DidFail() && taken == [] && !node.background then Some(Verdict(Failed, FailureMessage(node.id, o))) else None
  {
    hide Enqueue, Admits, Decide, RecordedEnvelopes, Snapshot, Holds, Routed, OutEdges, IsExternal, Count, FailureMessage;
    RoutedAlong(g, w, s, node.id, e, o);
    EnqueueOne(g.nodes, s.counts, e);
  }

  /** The same, when the edge is within its retries: it is taken and the run goes on. */
  lemma TakenTurn(g: Graph, w: World, s: State, node: Node, e: Edge, o: Outcome)
    requires s.queue == [node.id] && OutEdges(g.edges, node.id) == [e] && !IsExternal(g.nodes, e.to)
    requires o == Decide(w, |s.trace|, node, Snapshot(s.results)) && !o.Unregistered?
    requires Holds(w, e, o.Result(), Snapshot(s.results[node.id := o.Result()])) && Admits(s.counts, e)
    ensures var s' := Process(g, w, s, node);
      && s'.trace == s.trace + [Visit(node, node.id, o, [e], [e])]
      && s'.counts == s.counts[(e.from, e.to) := Count(s.counts, e) + 1]
      && s'.queue == [e.to] && s'.verdict == None
  {
    hide Process, Decide, Holds, OutEdges, IsExternal, Admits, FailureMessage;
    OneEdgeTurn(g, w, s, node, e, o);
  }

  lemma AlternatesOn(trace: seq<Visit>, v: Visit, a: Node, b: Node)
    requires Alternates(trace, a, b) && v.id == if |trace| % 2 == 0 then a.id else b.id
    ensures Alternates(trace + [v], a, b)
  {
  }

  lemma GreenFollows(w: World, e: Edge, r: NodeResult, outputs: map<string, Outputs>)
    requires e.when == "" && r.status == Green
    ensures Holds(w, e, r, outputs)
  {
  }

  lemma FailedFollows(w: World, e: Edge, r: NodeResult, outputs: map<string, Outputs>)
    requires e.when == "failed" && r.status == Failed
    ensures Holds(w, e, r, outputs)
  {
    assert "failed"[0] == 'f' && "always"[0] == 'a' && |"green"| == 5;
  }

  function EdgeAt(a: Node, b: Node, r: int, n: nat): Edge { if n % 2 == 0 then Forth(a, b) else Back(a, b, r) }

  lemma LoopContinues(s: State, s': State, v: Visit, a: Node, b: Node, r: int, n: nat)
    requires Loops(a, b, r) && InLoop(s, a, b, r, n) && n < 2 * r + 1
    requires var e := EdgeAt(a, b, r, n);
      && s'.trace == s.trace + [v] && v.id == e.from && s'.verdict == None && s'.queue == [e.to]
      && s'.counts == s.counts[(e.from, e.to) := Count(s.counts, e) + 1]
    ensures InLoop(s', a, b, r, n + 1)
  {
    AlternatesOn(s.trace, v, a, b);
  }

  /** What a turn of the loop needs to know of the state and the graph. */
  lemma LoopFacts(s: State, a: Node, b: Node, r: int, n: nat)
    requires Loops(a, b, r) && InLoop(s, a, b, r, n)
    ensures var g, e, node := LoopGraph(a, b, r), EdgeAt(a, b, r, n), if n % 2 == 0 then a else b;
      && s.queue == [node.id] && |s.trace| == n && Lookup(g.nodes, node.id) == Some(node) && s.verdict == None
      && OutEdges(g.edges, node.id) == [e] && !IsExternal(g.nodes, e.to) && e.from == node.id
      && (Admits(s.counts, e) <==> n < 2 * r + 1)
  {
    LoopStructure(a, b, r);
  }

  lemma EdgesOfLoop(a: Node, b: Node, r: int, n: nat)
    ensures EdgeAt(a, b, r, n) == if n % 2 == 0 then Forth(a, b) else Back(a, b, r)
    ensures Forth(a, b).from == a.id && Forth(a, b).to == b.id && Forth(a, b).when == ""
    ensures Back(a, b, r).from == b.id && Back(a, b, r).to == a.id && Back(a, b, r).when == "failed"
  {
  }

  lemma FailedOutcome(o: Outcome)
    ensures o.DidFail() <==> o.Result().status == Failed
  {
  }

  lemma GreenIsNoFailure(o: Outcome)
    requires o.Result().status == Green
    ensures !o.DidFail() && !o.Unregistered?
  {
  }

  lemma WorkerTurn(w: World, s: State, a: Node, b: Node, r: int, n: nat, o: Outcome)
    requires Loops(a, b, r) && InLoop(s, a, b, r, n) && n % 2 == 0 && n < 2 * r + 1
    requires o == Decide(w, n, a, Snapshot(s.results)) && o.Result().status == Green
    ensures InLoop(Process(LoopGraph(a, b, r), w, s, a), a, b, r, n + 1)
  {
    hide *;
    var g, e := LoopGraph(a, b, r), Forth(a, b);
    EdgesOfLoop(a, b, r, n);
    LoopFacts(s, a, b, r, n);
    GreenIsNoFailure(o);
    GreenFollows(w, e, o.Result(), Snapshot(s.results[a.id := o.Result()]));
    TakenTurn(g, w, s, a, e, o);
    LoopContinues(s, Process(g, w, s, a), Visit(a, a.id, o, [e], [e]), a, b, r, n);
  }

  lemma GateRetries(w: World, s: State, a: Node, b: Node, r: int, n: nat, o: Outcome)
    requires Loops(a, b, r) && InLoop(s, a, b, r, n) && n % 2 == 1 && n < 2 * r + 1
    requires o == Decide(w, n, b, Snapshot(s.results)) && o.DidFail() && !o.Unregistered?
    ensures InLoop(Process(LoopGraph(a, b, r), w, s, b), a, b, r, n + 1)
  {
    hide *;
    var g, e := LoopGraph(a, b, r), Back(a, b, r);
    EdgesOfLoop(a, b, r, n);
    LoopFacts(s, a, b, r, n);
    FailedOutcome(o);
    FailedFollows(w, e, o.Result(), Snapshot(s.results[b.id := o.Result()]));
    TakenTurn(g, w, s, b, e, o);
    LoopContinues(s, Process(g, w, s, b), Visit(b, b.id, o, [e], [e]), a, b, r, n);
  }

  lemma GateGivesUp(w: World, s: State, a: Node, b: Node, r: int, o: Outcome)
    requires Loops(a, b, r) && InLoop(s, a, b, r, 2 * r + 1)
    requires o == Decide(w, 2 * r + 1, b, Snapshot(s.results)) && o.DidFail() && !o.Unregistered?
    ensures var s' := Process(LoopGraph(a, b, r), w, s, b);
      && |s'.trace| == 2 * r + 2 && Alternates(s'.trace, a, b)
      && s'.verdict == Some(Verdict(Failed, FailureMessage(b.id, s'.trace[2 * r + 1].outcome)))
  {
    var g, e := LoopGraph(a, b, r), Back(a, b, r);
    LoopFacts(s, a, b, r, 2 * r + 1);
    FailedFollows(w, e, o.Result(), Snapshot(s.results[b.id := o.Result()]));
    AlternatesOn(s.trace, Visit(b, b.id, o, [e], []), a, b);
    hide Decide, Process, Lookup, OutEdges, LoopGraph, InLoop, Holds, IsExternal, Alternates, Admits, Count;
    OneEdgeTurn(g, w, s, b, e, o);
  }

  lemma LoopStep(w: World, limit: nat, s: State, a: Node, b: Node, r: int, n: nat)
    requires Loops(a, b, r) && AlwaysGreen(w, a) && AlwaysRed(w, b) && InLoop(s, a, b, r, n) && n < limit
    requires n < 2 * r + 1
    ensures InLoop(Step(LoopGraph(a, b, r), w, limit, s), a, b, r, n + 1)
  {
    LoopFacts(s, a, b, r, n);
    hide Process, Lookup, LoopGraph, InLoop, Decide;
    if n % 2 == 0 {
      WorkerTurn(w, s, a, b, r, n, Decide(w, n, a, Snapshot(s.results)));
    } else {
      GateRetries(w, s, a, b, r, n, Decide(w, n, b, Snapshot(s.results)));
    }
  }

  lemma {:induction false} Rounds(w: World, limit: nat, a: Node, b: Node, r: int, n: nat)
    requires Loops(a, b, r) && AlwaysGreen(w, a) && AlwaysRed(w, b) && n <= 2 * r + 1 && n <= limit
    ensures InLoop(StateAt(LoopGraph(a, b, r), w, limit, n), a, b, r, n)
  {
    hide *;
    if n == 0 {
      AtStart(LoopGraph(a, b, r), w, limit);
      LoopStart(a, b, r);
    } else {
      NextTurn(LoopGraph(a, b, r), w, limit, n);
      Rounds(w, limit, a, b, r, n - 1);
      LoopStep(w, limit, StateAt(LoopGraph(a, b, r), w, limit, n - 1), a, b, r, n - 1);
    }
  }

  function Visits(trace: seq<Visit>, id: string): nat {
    if trace == [] then 0 else Visits(trace[..|trace| - 1], id) + if trace[|trace| - 1].id == id then 1 else 0
  }

  lemma {:induction false} AlternatingVisits(trace: seq<Visit>, a: Node, b: Node)
    requires Alternates(trace, a, b) && a.id != b.id
    ensures Visits(trace, a.id) == (|trace| + 1) / 2 && Visits(trace, b.id) == |trace| / 2
  {
    if trace != [] { AlternatingVisits(trace[..|trace| - 1], a, b); }
  }

  lemma LastRound(w: World, limit: nat, s: State, a: Node, b: Node, r: int)
    requires Loops(a, b, r) && AlwaysRed(w, b) && InLoop(s, a, b, r, 2 * r + 1) && 2 * r + 1 < limit
    ensures var s' := Step(LoopGraph(a, b, r), w, limit, s);
      && |s'.trace| == 2 * r + 2 && Alternates(s'.trace, a, b)
      && s'.verdict == Some(Verdict(Failed, FailureMessage(b.id, s'.trace[2 * r + 1].outcome)))
  {
    LoopFacts(s, a, b, r, 2 * r + 1);
    hide Process, Lookup, LoopGraph, InLoop, Decide, Alternates;
    GateGivesUp(w, s, a, b, r, Decide(w, 2 * r + 1, b, Snapshot(s.results)));
  }

  /** With an always-red gate each of the two nodes runs exactly r + 1 times and then the run
      fails on the gate. */
  lemma RedGateRunsOut(w: World, limit: nat, a: Node, b: Node, r: int)
    requires Loops(a, b, r) && AlwaysGreen(w, a) && AlwaysRed(w, b) && 2 * (r + 1) <= limit
    ensures var s := Final(LoopGraph(a, b, r), w, limit);
      && |s.trace| == 2 * (r + 1)
      && Visits(s.trace, a.id) == r + 1 && Visits(s.trace, b.id) == r + 1
      && s.verdict == Some(Verdict(Failed, FailureMessage(b.id, s.trace[2 * r + 1].outcome)))
  {
    var g, n := LoopGraph(a, b, r), 2 * r + 1;
    Rounds(w, limit, a, b, r, n);
    LastRound(w, limit, StateAt(g, w, limit, n), a, b, r);
    FinalIs(g, w, limit, n);
    AlternatingVisits(Final(g, w, limit).trace, a, b);
  }

  /** When that does not fit the iteration limit the safety valve ends the run instead. */
  lemma RedGateHitsValve(w: World, limit: nat, a: Node, b: Node, r: int)
    requires Loops(a, b, r) && AlwaysGreen(w, a) && AlwaysRed(w, b) && limit < 2 * (r + 1)
    ensures var s := Final(LoopGraph(a, b, r), w, limit);
      s.verdict == Some(Verdict(Failed, TooManyIterations)) && |s.trace| == limit
  {
    var g := LoopGraph(a, b, r);
    Rounds(w, limit, a, b, r, limit);
    FinalIs(g, w, limit, limit);
  }

  // ------------------------------------------------- an edge past its retries on a green path

  function Self(a: Node, r: int): Edge { Edge(a.id, a.id, "", r) }

  function SelfGraph(a: Node, r: int): Graph { Graph([a], [Self(a, r)]) }

  /** n visits done, with the node queued again and its edge tried each time. */
  ghost predicate InSelfLoop(s: State, a: Node, r: int, n: nat) {
    s.verdict == None && |s.trace| == n && s.queue == [a.id] && Count(s.counts, Self(a, r)) == n <= r
  }

  /** The edge held once more than its retries: nothing is queued, and nothing failed. */
  ghost predicate SelfLoopSpent(s: State, a: Node, r: nat) {
    && s.queue == [] && s.verdict == None && |s.trace| == r + 1
    && s.trace[r].held == [Self(a, r)] && s.trace[r].taken == []
  }

  lemma SelfFacts(a: Node, r: int)
    requires r >= 1 && a.typ != EXTERNAL && !a.background
    ensures var g := SelfGraph(a, r);
      && Lookup(g.nodes, a.id) == Some(a) && OutEdges(g.edges, a.id) == [Self(a, r)] && !IsExternal(g.nodes, a.id)
      && InSelfLoop(Start(g), a, r, 0)
  {
    var g := SelfGraph(a, r);
    assert g.nodes[..0] == [] && g.edges[..0] == [];
    assert !Awaited(g.nodes, g.edges, a.id);
    assert EntriesAmong(g, g.nodes) == [a.id];
    assert FirstNotLeaf(g, 1) == None;
  }

  lemma SelfTurn(w: World, s: State, a: Node, r: int, n: nat, o: Outcome)
    requires r >= 1 && a.typ != EXTERNAL && !a.background && InSelfLoop(s, a, r, n)
    requires o == Decide(w, n, a, Snapshot(s.results)) && o.Result().status == Green
    ensures var s' := Process(SelfGraph(a, r), w, s, a);
      && (n < r ==> InSelfLoop(s', a, r, n + 1)) && (n == r ==> SelfLoopSpent(s', a, r))
  {
    hide *;
    var g, e := SelfGraph(a, r), Self(a, r);
    SelfFacts(a, r);
    SelfAdmits(s, a, r, n);
    GreenIsNoFailure(o);
    GreenFollows(w, e, o.Result(), Snapshot(s.results[a.id := o.Result()]));
    OneEdgeTurn(g, w, s, a, e, o);
    SelfContinues(s, Process(g, w, s, a), Visit(a, a.id, o, [e], if n < r then [e] else []), a, r, n);
  }

  lemma SelfAdmits(s: State, a: Node, r: int, n: nat)
    requires r >= 1 && InSelfLoop(s, a, r, n)
    ensures s.queue == [a.id] && |s.trace| == n && (Admits(s.counts, Self(a, r)) <==> n < r) && n <= r
    ensures var e := Self(a, r); e.from == e.to == a.id && e.when == ""
  {
  }

  lemma SelfContinues(s: State, s': State, v: Visit, a: Node, r: int, n: nat)
    requires r >= 1 && InSelfLoop(s, a, r, n) && s'.trace == s.trace + [v] && s'.verdict == None
    requires var e := Self(a, r);
      && s'.counts == s.counts[(e.from, e.to) := Count(s.counts, e) + 1]
      && v.held == [e] && v.taken == (if n < r then [e] else []) && s'.queue == (if n < r then [e.to] else [])
    ensures (n < r ==> InSelfLoop(s', a, r, n + 1)) && (n == r ==> SelfLoopSpent(s', a, r))
  {
  }

  lemma SelfStep(w: World, limit: nat, s: State, a: Node, r: int, n: nat)
    requires r >= 1 && a.typ != EXTERNAL && !a.background && AlwaysGreen(w, a) && InSelfLoop(s, a, r, n) && n < limit
    ensures var s' := Step(SelfGraph(a, r), w, limit, s);
      && (n < r ==> InSelfLoop(s', a, r, n + 1)) && (n == r ==> SelfLoopSpent(s', a, r))
  {
    SelfFacts(a, r);
    hide Process, Lookup, SelfGraph, Decide, SelfLoopSpent;
    SelfTurn(w, s, a, r, n, Decide(w, n, a, Snapshot(s.results)));
  }

  lemma {:induction false} SelfRounds(w: World, limit: nat, a: Node, r: int, n: nat)
    requires r >= 1 && a.typ != EXTERNAL && !a.background && AlwaysGreen(w, a) && n <= r && n <= limit
    ensures InSelfLoop(StateAt(SelfGraph(a, r), w, limit, n), a, r, n)
  {
    hide *;
    if n == 0 {
      AtStart(SelfGraph(a, r), w, limit);
      SelfFacts(a, r);
    } else {
      NextTurn(SelfGraph(a, r), w, limit, n);
      SelfRounds(w, limit, a, r, n - 1);
      SelfStep(w, limit, StateAt(SelfGraph(a, r), w, limit, n - 1), a, r, n - 1);
    }
  }

  /** A green node that loops back to itself runs r + 1 times; at the last its edge holds and is not
      taken, being past its retries, and the run still ends green. */
  lemma SpentEdgeIsNoFailure(w: World, limit: nat, a: Node, r: int)
    requires r >= 1 && a.typ != EXTERNAL && !a.background && AlwaysGreen(w, a) && r + 1 <= limit
    ensures var s := Final(SelfGraph(a, r), w, limit);
      && |s.trace| == r + 1 && s.trace[r].held == [Self(a, r)] && s.trace[r].taken == []
      && s.verdict == Some(Verdict(Green, Completed))
  {
    hide *;
    var g := SelfGraph(a, r);
    SelfRounds(w, limit, a, r, r);
    SelfStep(w, limit, StateAt(g, w, limit, r), a, r, r);
    NextTurn(g, w, limit, r + 1);
    StepWhenSpent(w, limit, StateAt(g, w, limit, r + 1), a, r);
    FinalIs(g, w, limit, r + 1);
  }

  lemma StepWhenSpent(w: World, limit: nat, s: State, a: Node, r: nat)
    requires SelfLoopSpent(s, a, r)
    ensures var s' := Step(SelfGraph(a, r), w, limit, s);
      && |s'.trace| == r + 1 && s'.trace[r].held == [Self(a, r)] && s'.trace[r].taken == []
      && s'.verdict == Some(Verdict(Green, Completed))
  {
  }
}
