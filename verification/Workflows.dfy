/** Workflow compilation (internal/graph/compile.go) composed with the kernel: the compiled graph
    runs the workflow's declared stages. */
module Workflows {
  import opened Prelude
  import opened Kernel
  import opened RunLaws
  import opened FeedbackLoop

  /** What of a Workflow spec shapes its graph; an absent agent switch means enabled. */
  datatype Workflow = Workflow(prepareTimeout: string, agentEnabled: Option<bool>, deployTimeout: string)

  predicate AgentEnabled(wf: Workflow) { wf.agentEnabled != Some(false) }

  function Stage(id: string, typ: string, timeout: string): Node { Node(id, typ, [], None, timeout, false, None) }

  function CompileWorkflow(wf: Workflow): Graph {
    var prepare, agent, deploy := Stage("prepare", "plugin", wf.prepareTimeout), Stage("agent", "agent", ""), Stage("deploy", "plugin", wf.deployTimeout);
    if AgentEnabled(wf) then
      Graph([prepare, agent, deploy], [Edge("prepare", "agent", "", 0), Edge("agent", "deploy", "", 0)])
    else
      Graph([prepare, deploy], [Edge("prepare", "deploy", "", 0)])
  }

  // ----------------------------------------------------------- the declarative meaning

  /** The stages a workflow declares, in order. */
  function Declared(wf: Workflow): seq<string> {
    if AgentEnabled(wf) then ["prepare", "agent", "deploy"] else ["prepare", "deploy"]
  }

  predicate WentGreen(v: Visit) { v.outcome.Result().status == Green }

  /** A run of the declared stages: they run in order, each at most once, the next one exactly
      when all before were green; a failure ends the run failed, anything else ends it green. */
  ghost predicate RunsStages(stages: seq<string>, s: State) {
    && 1 <= |s.trace| <= |stages| && Ids(s.trace) == stages[..|s.trace|]
    && (forall i :: 0 <= i < |s.trace| - 1 ==> WentGreen(s.trace[i]))
    && var last := s.trace[|s.trace| - 1];
       && (WentGreen(last) ==> |s.trace| == |stages|)
       && s.verdict == Some(if last.outcome.DidFail() then Verdict(Failed, FailureMessage(last.id, last.outcome)) else Verdict(Green, Completed))
  }

  // ------------------------------------------------------------------- straight lines

  /** g executes the stages one after another. */
  ghost predicate IsLine(g: Graph, stages: seq<string>) {
    && stages != [] && Start(g) == State([stages[0]], map[], map[], map[], [], None)
    && forall i :: 0 <= i < |stages| ==>
         && Lookup(g.nodes, stages[i]).Some? && Lookup(g.nodes, stages[i]).value.id == stages[i]
         && !Lookup(g.nodes, stages[i]).value.background && !IsExternal(g.nodes, stages[i])
         && OutEdges(g.edges, stages[i]) == OutOf(stages, i)
  }

  function OutOf(stages: seq<string>, i: nat): seq<Edge>
    requires i < |stages|
  {
    if i == |stages| - 1 then [] else [Edge(stages[i], stages[i + 1], "", 0)]
  }

  ghost predicate AtStage(stages: seq<string>, s: State, n: nat)
    requires n < |stages|
  {
    && s.verdict == None && |s.trace| == n && s.queue == [stages[n]] && Ids(s.trace) == stages[..n]
    && forall i :: 0 <= i < n ==> WentGreen(s.trace[i])
  }

  /** Stage n did not hand over: either it was not green, or it was the last. */
  ghost predicate Ended(stages: seq<string>, s: State, n: nat)
    requires n < |stages|
  {
    && |s.trace| == n + 1 && s.queue == [] && Ids(s.trace) == stages[..n + 1]
    && (forall i :: 0 <= i < n ==> WentGreen(s.trace[i]))
    && (WentGreen(s.trace[n]) ==> n + 1 == |stages|)
    && s.verdict == if s.trace[n].outcome.DidFail() then Some(Verdict(Failed, FailureMessage(stages[n], s.trace[n].outcome))) else None
  }

  lemma NothingHeld(g: Graph, w: World, s: State, node: Node, o: Outcome)
    requires s.queue == [node.id] && o == Decide(w, |s.trace|, node, Snapshot(s.results))
    requires o.Result().status != Green || OutEdges(g.edges, node.id) == []
    requires OutEdges(g.edges, node.id) == [] || exists e: Edge :: e.when == "" && OutEdges(g.edges, node.id) == [e]
    ensures Routed(g, w, s, o) == Routing([], s.counts, [], [])
  {
    var out, rt, outputs := OutEdges(g.edges, node.id), Routing(s.queue[1..], s.counts, [], []), Snapshot(s.results[node.id := o.Result()]);
    assert s.queue[1..] == [];
    if out != [] {
      assert out[..|out| - 1] == [];
      assert Route(g.nodes, w, out[..|out| - 1], o.Result(), outputs, rt) == rt;
    }
  }

  lemma HandedOver(stages: seq<string>, s: State, s': State, v: Visit, n: nat)
    requires n + 1 < |stages| && AtStage(stages, s, n) && s'.trace == s.trace + [v] && v.id == stages[n]
    requires WentGreen(v) && s'.verdict == None && s'.queue == [stages[n + 1]]
    ensures AtStage(stages, s', n + 1)
  {
    assert stages[..n + 1] == stages[..n] + [stages[n]];
  }

  lemma NotHandedOver(stages: seq<string>, s: State, s': State, v: Visit, n: nat)
    requires n < |stages| && AtStage(stages, s, n) && s'.trace == s.trace + [v] && v.id == stages[n]
    requires s'.queue == [] && (WentGreen(v) ==> n + 1 == |stages|)
    requires s'.verdict == if v.outcome.DidFail() then Some(Verdict(Failed, FailureMessage(stages[n], v.outcome))) else None
    ensures Ended(stages, s', n)
  {
    assert stages[..n + 1] == stages[..n] + [stages[n]];
  }

  lemma LineNode(g: Graph, stages: seq<string>, n: nat)
    requires n < |stages| && IsLine(g, stages)
    ensures Lookup(g.nodes, stages[n]).Some?
    ensures var node := Lookup(g.nodes, stages[n]).value;
      node.id == stages[n] && !node.background && OutEdges(g.edges, node.id) == OutOf(stages, n)
    ensures n + 1 < |stages| ==> !IsExternal(g.nodes, stages[n + 1])
  {
  }

  lemma GreenStage(g: Graph, w: World, stages: seq<string>, s: State, n: nat, node: Node)
    requires n + 1 < |stages| && IsLine(g, stages) && AtStage(stages, s, n) && Lookup(g.nodes, stages[n]) == Some(node)
    requires Decide(w, n, node, Snapshot(s.results)).Result().status == Green
    ensures AtStage(stages, Process(g, w, s, node), n + 1)
  {
    var o, e := Decide(w, n, node, Snapshot(s.results)), Edge(stages[n], stages[n + 1], "", 0);
    LineNode(g, stages, n);
    hide IsLine, Decide, Process, Lookup, OutEdges, IsExternal;
    OneEdgeTurn(g, w, s, node, e, o);
    HandedOver(stages, s, Process(g, w, s, node), Visit(node, node.id, o, [e], [e]), n);
  }

  lemma LastStage(g: Graph, w: World, stages: seq<string>, s: State, n: nat, node: Node)
    requires n < |stages| && IsLine(g, stages) && AtStage(stages, s, n) && Lookup(g.nodes, stages[n]) == Some(node)
    requires n + 1 == |stages| || Decide(w, n, node, Snapshot(s.results)).Result().status != Green
    ensures Ended(stages, Process(g, w, s, node), n)
  {
    var o := Decide(w, n, node, Snapshot(s.results));
    LineNode(g, stages, n);
    hide IsLine, Decide, Routed, Lookup, OutEdges, RecordedEnvelopes, Ended;
    NothingHeld(g, w, s, node, o);
    NotHandedOver(stages, s, Process(g, w, s, node), Visit(node, node.id, o, [], []), n);
  }

  lemma StageStep(g: Graph, w: World, limit: nat, stages: seq<string>, s: State, n: nat)
    requires n < |stages| <= limit && IsLine(g, stages) && AtStage(stages, s, n)
    ensures var s' := Step(g, w, limit, s);
      Ended(stages, s', n) || (n + 1 < |stages| && AtStage(stages, s', n + 1))
  {
    LineNode(g, stages, n);
    var node := Lookup(g.nodes, stages[n]).value;
    hide IsLine, Process, Decide, Lookup, Ended;
    if n + 1 < |stages| && Decide(w, n, node, Snapshot(s.results)).Result().status == Green {
      GreenStage(g, w, stages, s, n, node);
    } else {
      LastStage(g, w, stages, s, n, node);
    }
  }

  lemma {:induction false} LineRuns(g: Graph, w: World, limit: nat, stages: seq<string>, n: nat)
    requires n < |stages| <= limit && IsLine(g, stages) && AtStage(stages, StateAt(g, w, limit, n), n)
    ensures RunsStages(stages, Final(g, w, limit))
    decreases |stages| - n
  {
    hide *;
    StageStep(g, w, limit, stages, StateAt(g, w, limit, n), n);
    NextTurn(g, w, limit, n + 1);
    if Ended(stages, StateAt(g, w, limit, n + 1), n) {
      LineEnds(g, w, limit, stages, n);
    } else {
      LineRuns(g, w, limit, stages, n + 1);
    }
  }

  lemma EndedRuns(stages: seq<string>, s: State, n: nat)
    requires n < |stages| && Ended(stages, s, n)
    ensures RunsStages(stages, if s.verdict.Some? then s else s.(verdict := Some(Verdict(Green, Completed))))
  {
    assert Ids(s.trace)[n] == stages[..n + 1][n];
  }

  lemma LineEnds(g: Graph, w: World, limit: nat, stages: seq<string>, n: nat)
    requires n < |stages| <= limit && Ended(stages, StateAt(g, w, limit, n + 1), n)
    ensures RunsStages(stages, Final(g, w, limit))
  {
    var s := StateAt(g, w, limit, n + 1);
    EndedRuns(stages, s, n);
    if s.verdict.Some? {
      VerdictStays(g, w, limit, n + 1, limit + 1);
    } else {
      assert Step(g, w, limit, s) == s.(verdict := Some(Verdict(Green, Completed)));
      FinalIs(g, w, limit, n + 1);
    }
  }

  lemma DistinctNames()
    ensures "prepare" != "agent" && "prepare" != "deploy" && "agent" != "deploy"
    ensures "plugin" != EXTERNAL && "agent" != EXTERNAL
  {
    assert |"prepare"| == 7 && |"agent"| == 5 && |"deploy"| == 6 && |"plugin"| == 6 && |EXTERNAL| == 8;
  }

  lemma CompiledLookups(wf: Workflow)
    ensures forall i :: 0 <= i < |Declared(wf)| ==>
      var n := Lookup(CompileWorkflow(wf).nodes, Declared(wf)[i]);
      n.Some? && n.value.id == Declared(wf)[i] && !n.value.background && n.value.typ != EXTERNAL
  {
    DistinctNames();
    var n := CompileWorkflow(wf).nodes;
    if AgentEnabled(wf) {
      assert n[..2] == [n[0], n[1]] && n[..2][..1] == [n[0]];
      assert Lookup([n[0]], "prepare") == Some(n[0]);
      assert Lookup(n[..2], "agent") == Some(n[1]) && Lookup(n[..2], "prepare") == Some(n[0]);
    } else {
      assert n[..1] == [n[0]];
    }
  }

  lemma TwoStages(a: string, b: string)
    requires a != b
    ensures var e := [Edge(a, b, "", 0)]; OutEdges(e, a) == e && OutEdges(e, b) == []
  {
    var e := [Edge(a, b, "", 0)];
    assert e == [] + e;
    OutEdgesAppend([], e[0], a);
    OutEdgesAppend([], e[0], b);
  }

  lemma ThreeStages(a: string, b: string, c: string)
    requires a != b && b != c && a != c
    ensures var e := [Edge(a, b, "", 0), Edge(b, c, "", 0)];
      OutEdges(e, a) == [e[0]] && OutEdges(e, b) == [e[1]] && OutEdges(e, c) == []
  {
    var e := [Edge(a, b, "", 0), Edge(b, c, "", 0)];
    assert e == [e[0]] + [e[1]] && [e[0]] == [] + [e[0]];
    TwoStages(a, b);
    OutEdgesAppend([], e[0], c);
    OutEdgesAppend([e[0]], e[1], a);
    OutEdgesAppend([e[0]], e[1], b);
    OutEdgesAppend([e[0]], e[1], c);
  }

  lemma CompiledOutEdges(wf: Workflow, i: nat)
    requires i < |Declared(wf)|
    ensures OutEdges(CompileWorkflow(wf).edges, Declared(wf)[i]) == OutOf(Declared(wf), i)
  {
    DistinctNames();
    hide OutEdges;
    if AgentEnabled(wf) { ThreeStages("prepare", "agent", "deploy"); } else { TwoStages("prepare", "deploy"); }
  }

  /** Only the first stage has no executed in-edge. */
  lemma CompiledEntries(wf: Workflow)
    ensures Entries(CompileWorkflow(wf)) == ["prepare"]
  {
    DistinctNames();
    CompiledLookups(wf);
    var g := CompileWorkflow(wf);
    var n, e := g.nodes, g.edges;
    assert Declared(wf)[0] == "prepare" && !IsExternal(n, "prepare");
    assert e[0].from == "prepare" && e[0].to == Declared(wf)[1];
    assert !Awaited(n, e, "prepare");
    if AgentEnabled(wf) {
      assert e[1].to == "deploy" && !IsExternal(n, e[1].from) by { assert Declared(wf)[1] == "agent"; }
      assert n[..2] == [n[0], n[1]] && n[..2][..1] == [n[0]] && [n[0]][..0] == [];
      assert EntriesAmong(g, [n[0]]) == ["prepare"];
      assert EntriesAmong(g, n[..2]) == ["prepare"];
    } else {
      assert n[..1] == [n[0]] && [n[0]][..0] == [];
      assert EntriesAmong(g, n[..1]) == ["prepare"];
    }
  }

  lemma CompiledIsLine(wf: Workflow)
    ensures IsLine(CompileWorkflow(wf), Declared(wf))
  {
    CompiledLookups(wf);
    forall i | 0 <= i < |Declared(wf)|
      ensures OutEdges(CompileWorkflow(wf).edges, Declared(wf)[i]) == OutOf(Declared(wf), i)
    {
      CompiledOutEdges(wf, i);
    }
    CompiledEntries(wf);
    NoBackgroundNodes(CompileWorkflow(wf), |CompileWorkflow(wf).nodes|);
  }

  lemma {:induction false} NoBackgroundNodes(g: Graph, k: nat)
    requires k <= |g.nodes| && forall i :: 0 <= i < k ==> !g.nodes[i].background
    ensures FirstNotLeaf(g, k) == None
  {
    if k > 0 { NoBackgroundNodes(g, k - 1); }
  }

  lemma StartOfLine(g: Graph, stages: seq<string>)
    requires IsLine(g, stages)
    ensures stages != [] && AtStage(stages, Start(g), 0)
  {
  }

  /** Compiling and then executing a workflow is running its declared stages, for every workflow
      and every behaviour of its nodes. */
  lemma CompileThenExecute(wf: Workflow, w: World, limit: nat)
    requires limit >= 3
    ensures RunsStages(Declared(wf), Final(CompileWorkflow(wf), w, limit))
  {
    hide CompileWorkflow, IsLine, Final, RunsStages;
    CompiledIsLine(wf);
    AtStart(CompileWorkflow(wf), w, limit);
    StartOfLine(CompileWorkflow(wf), Declared(wf));
    LineRuns(CompileWorkflow(wf), w, limit, Declared(wf), 0);
  }
}
