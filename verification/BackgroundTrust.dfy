/** What side work may change about foreground envelopes: nothing, exactly as long as no background
    gate promotes a foreground claim. */
module BackgroundTrust {
  import opened Prelude
  import opened Kernel
  import opened Trust
  import opened TrustRun
  import opened Background
  import Capability
  import Glob

  /** A foreground claim, still observed, that the scopes cover. */
  predicate Coverable(g: Graph, envs: map<string, Envelope>, scopes: seq<Scope>, id: string, i: nat) {
    && id in envs && !InBackground(g, id) && i < |envs[id].claims|
    && envs[id].claims[i].trust == Observed && CoveredBySome(scopes, envs[id].claims[i])
  }

  /** The node's turn promotes a foreground claim. */
  ghost predicate PromotesForeground(g: Graph, w: World, s: State, node: Node) {
    && Promotes(Decide(w, |s.trace|, node, Snapshot(s.results)))
    && exists id, i: nat :: Coverable(g, s.envelopes, ScopesOf(node), id, i)
  }

  /** The next turn is that of a background gate which promotes a foreground claim. */
  ghost predicate SidePromotes(g: Graph, w: World, limit: nat, s: State) {
    && s.verdict == None && s.queue != [] && |s.trace| < limit && InBackground(g, s.queue[0])
    && PromotesForeground(g, w, s, Lookup(g.nodes, s.queue[0]).value)
  }

  // ------------------------------------------------------------- without such a promotion

  lemma SideTurnKeeps(g: Graph, w: World, s: State, node: Node)
    requires s.queue != [] && InBackground(g, s.queue[0]) && Lookup(g.nodes, s.queue[0]) == Some(node) && !PromotesForeground(g, w, s, node)
    ensures var e := Process(g, w, s, node).envelopes;
      && e.Keys == s.envelopes.Keys + {s.queue[0]}
      && forall id :: id in s.envelopes && !InBackground(g, id) ==> e[id] == s.envelopes[id]
  {
    var o := Decide(w, |s.trace|, node, Snapshot(s.results));
    if Promotes(o) {
      var was := s.envelopes[s.queue[0] := Recorded(w, s.queue[0], o)];
      var now := PromoteBy(was, s.queue[0], ScopesOf(node));
      forall id | id in s.envelopes && !InBackground(g, id) ensures now[id] == s.envelopes[id] {
        forall i | 0 <= i < |was[id].claims| ensures now[id].claims[i] == was[id].claims[i] {
          assert !Coverable(g, s.envelopes, ScopesOf(node), id, i);
        }
        assert now[id].claims == was[id].claims;
      }
    }
  }

  lemma SharedTurn(g: Graph, w1: World, w2: World, s1: State, s2: State, node: Node)
    requires DifferInBackground(g, w1, w2) && w1.runId == w2.runId
    requires InStep(g, s1, s2) && SameView(g, s1.envelopes, s2.envelopes)
    requires s1.queue != [] && Lookup(g.nodes, s1.queue[0]) == Some(node) && !node.background
    ensures SameView(g, Process(g, w1, s1, node).envelopes, Process(g, w2, s2, node).envelopes)
  {
    var id := s1.queue[0];
    SnapshotSame(g, s1.results, s2.results);
    assert IsForeground(g, id);
    var o := Decide(w1, |s1.trace|, node, Snapshot(s1.results));
    assert o == Decide(w2, |s2.trace|, node, Snapshot(s2.results));
    assert Recorded(w1, id, o) == Recorded(w2, id, o);
    var e1, e2 := s1.envelopes[id := Recorded(w1, id, o)], s2.envelopes[id := Recorded(w2, id, o)];
    assert SameView(g, e1, e2);
    assert SameView(g, PromoteBy(e1, id, ScopesOf(node)), PromoteBy(e2, id, ScopesOf(node)));
  }

  lemma EnvelopesStep(g: Graph, w1: World, w2: World, limit: nat, s1: State, s2: State)
    requires DifferInBackground(g, w1, w2) && w1.runId == w2.runId
    requires InStep(g, s1, s2) && SameView(g, s1.envelopes, s2.envelopes)
    requires !SidePromotes(g, w1, limit, s1) && !SidePromotes(g, w2, limit, s2)
    ensures SameView(g, Step(g, w1, limit, s1).envelopes, Step(g, w2, limit, s2).envelopes)
  {
    hide Process, DifferInBackground, PromotesForeground;
    if s1.verdict == None && s1.queue != [] && |s1.trace| < limit && Lookup(g.nodes, s1.queue[0]).Some? {
      var node := Lookup(g.nodes, s1.queue[0]).value;
      if node.background {
        SideTurnKeeps(g, w1, s1, node);
        SideTurnKeeps(g, w2, s2, node);
      } else {
        SharedTurn(g, w1, w2, s1, s2, node);
      }
    }
  }

  lemma SameViewOfItself<T>(g: Graph, m: map<string, T>)
    ensures SameView(g, m, m)
  {
  }

  lemma {:induction false} EnvelopesInStep(g: Graph, w1: World, w2: World, limit: nat, n: nat)
    requires DifferInBackground(g, w1, w2) && w1.runId == w2.runId
    requires forall m :: 0 <= m < n ==> !SidePromotes(g, w1, limit, StateAt(g, w1, limit, m)) && !SidePromotes(g, w2, limit, StateAt(g, w2, limit, m))
    ensures SameView(g, StateAt(g, w1, limit, n).envelopes, StateAt(g, w2, limit, n).envelopes)
  {
    hide *;
    if n == 0 {
      AtStart(g, w1, limit);
      AtStart(g, w2, limit);
      SameViewOfItself(g, Start(g).envelopes);
    } else {
      EnvelopesInStep(g, w1, w2, limit, n - 1);
      RunsInStep(g, w1, w2, limit, n - 1);
      NextTurn(g, w1, limit, n);
      NextTurn(g, w2, limit, n);
      EnvelopesStep(g, w1, w2, limit, StateAt(g, w1, limit, n - 1), StateAt(g, w2, limit, n - 1));
    }
  }

  // -------------------------------------------------------------- with one: it may fail instead

  /** The same world, except that node b fails at visit n. */
  function Failing(w: World, n: nat, b: Node): World {
    w.(run := (k: nat, a: nat, node: Node, inputs: map<string, Outputs>) =>
      if k == n && node == b then ExecReturn(Some(Failed), map[], "", None, false, None) else w.run(k, a, node, inputs))
  }

  lemma {:induction false} AttemptsUnchanged(w: World, n: nat, b: Node, k: nat, node: Node, inputs: map<string, Outputs>, a: nat, limit: nat)
    requires k != n || node != b
    ensures Attempts(Failing(w, n, b), k, node, inputs, a, limit) == Attempts(w, k, node, inputs, a, limit)
    decreases limit - a
  {
    var w' := Failing(w, n, b);
    assert Settle(w', k, node, inputs, a) == Settle(w, k, node, inputs, a);
    if !StopsAfter(w, k, Settle(w, k, node, inputs, a), a, limit) { AttemptsUnchanged(w, n, b, k, node, inputs, a + 1, limit); }
  }

  lemma DecidesUnchanged(w: World, n: nat, b: Node, k: nat, node: Node, inputs: map<string, Outputs>)
    requires k != n || node != b
    ensures Decide(Failing(w, n, b), k, node, inputs) == Decide(w, k, node, inputs)
  {
    AttemptsUnchanged(w, n, b, k, node, inputs, 1, RetryPolicyOf(node.retry).maxAttempts);
  }

  lemma FailingDiffers(g: Graph, w: World, n: nat, b: Node)
    requires DifferInBackground(g, w, w) && InBackground(g, b.id) && Lookup(g.nodes, b.id) == Some(b)
    ensures DifferInBackground(g, w, Failing(w, n, b))
  {
    var w' := Failing(w, n, b);
    forall k, id, m1, m2 | IsForeground(g, id) && SameView(g, m1, m2)
      ensures Decide(w, k, Lookup(g.nodes, id).value, m1) == Decide(w', k, Lookup(g.nodes, id).value, m2)
    {
      LookupIs(g.nodes, id);
      DecidesUnchanged(w, n, b, k, Lookup(g.nodes, id).value, m2);
      assert Decide(w, k, Lookup(g.nodes, id).value, m1) == Decide(w, k, Lookup(g.nodes, id).value, m2);
    }
    forall e, m1, m2 | e in g.edges && IsForeground(g, e.from) && SameView(g, m1, m2) ensures w.cond(e.when, m1) == w'.cond(e.when, m2) {
      assert w.cond(e.when, m1) == w.cond(e.when, m2);
    }
  }

  lemma {:induction false} RouteUnchanged(nodes: seq<Node>, w1: World, w2: World, out: seq<Edge>, r1: NodeResult, r2: NodeResult,
      outputs: map<string, Outputs>, rt: Routing)
    requires w1.cond == w2.cond && r1.status == r2.status && r1.outputs == r2.outputs
    ensures Route(nodes, w1, out, r1, outputs, rt) == Route(nodes, w2, out, r2, outputs, rt)
  {
    if out != [] { RouteUnchanged(nodes, w1, w2, out[..|out| - 1], r1, r2, outputs, rt); }
  }

  lemma ProcessUnchanged(g: Graph, w1: World, w2: World, s: State, node: Node)
    requires s.queue != [] && w1.cond == w2.cond && w1.runId == w2.runId
    requires Decide(w1, |s.trace|, node, Snapshot(s.results)) == Decide(w2, |s.trace|, node, Snapshot(s.results))
    ensures Process(g, w1, s, node) == Process(g, w2, s, node)
  {
    var id, o := s.queue[0], Decide(w1, |s.trace|, node, Snapshot(s.results));
    var r := o.Result();
    RouteUnchanged(g.nodes, w1, w2, OutEdges(g.edges, id), r, r, Snapshot(s.results[id := r]), Routing(s.queue[1..], s.counts, [], []));
    hide Decide, Route;
  }

  lemma StepUnchanged(g: Graph, w: World, limit: nat, s: State, n: nat, b: Node)
    requires s.verdict.Some? || |s.trace| != n
    ensures Step(g, Failing(w, n, b), limit, s) == Step(g, w, limit, s)
  {
    hide Process, Decide;
    if s.verdict == None && s.queue != [] && Lookup(g.nodes, s.queue[0]).Some? {
      var node := Lookup(g.nodes, s.queue[0]).value;
      DecidesUnchanged(w, n, b, |s.trace|, node, Snapshot(s.results));
      ProcessUnchanged(g, Failing(w, n, b), w, s, node);
    }
  }

  lemma {:induction false} SameUntil(g: Graph, w: World, limit: nat, n: nat, b: Node, m: nat)
    requires m <= n
    ensures StateAt(g, Failing(w, n, b), limit, m) == StateAt(g, w, limit, m)
  {
    hide *;
    AtStart(g, w, limit);
    AtStart(g, Failing(w, n, b), limit);
    if m > 0 {
      NextTurn(g, w, limit, m);
      NextTurn(g, Failing(w, n, b), limit, m);
      SameUntil(g, w, limit, n, b, m - 1);
      TurnsCounted(g, w, limit, m - 1);
      StepUnchanged(g, w, limit, StateAt(g, w, limit, m - 1), n, b);
    }
  }

  /** Whatever the failing gate's visit records, no foreground envelope changes. */
  lemma FailedGateKeeps(g: Graph, w: World, s: State, b: Node)
    ensures !PromotesForeground(g, Failing(w, |s.trace|, b), s, b)
  {
    var w', inputs := Failing(w, |s.trace|, b), Snapshot(s.results);
    assert Settle(w', |s.trace|, b, inputs, 1).status == Failed;
  }

  /** The claim the green gate promotes. */
  lemma GreenGateChanges(g: Graph, w: World, s: State, node: Node, id: string, i: nat)
    requires s.queue != [] && InBackground(g, s.queue[0]) && Lookup(g.nodes, s.queue[0]) == Some(node)
    requires Promotes(Decide(w, |s.trace|, node, Snapshot(s.results))) && Coverable(g, s.envelopes, ScopesOf(node), id, i)
    ensures id in Process(g, w, s, node).envelopes && Process(g, w, s, node).envelopes[id] != s.envelopes[id]
  {
    var o := Decide(w, |s.trace|, node, Snapshot(s.results));
    var was := s.envelopes[s.queue[0] := Recorded(w, s.queue[0], o)];
    var now := PromoteBy(was, s.queue[0], ScopesOf(node));
    assert was[id] == s.envelopes[id];
    assert now[id].claims[i] == Promoted(was[id].claims[i], s.queue[0], ScopesOf(node));
    assert now[id].claims[i].trust == Validated;
  }

  /** A run in which a background gate promotes a foreground claim, and the same with the gate
      failing there: the foreground envelopes differ after that turn. */
  lemma PromotionInterferes(g: Graph, w: World, limit: nat, n: nat) returns (w2: World)
    requires DifferInBackground(g, w, w) && SidePromotes(g, w, limit, StateAt(g, w, limit, n))
    ensures DifferInBackground(g, w, w2) && w2.runId == w.runId
    ensures !SameView(g, StateAt(g, w, limit, n + 1).envelopes, StateAt(g, w2, limit, n + 1).envelopes)
  {
    var s := StateAt(g, w, limit, n);
    var b := Lookup(g.nodes, s.queue[0]).value;
    w2 := Failing(w, n, b);
    LookupIs(g.nodes, s.queue[0]);
    TurnsCounted(g, w, limit, n);
    FailingDiffers(g, w, n, b);
    SameUntil(g, w, limit, n, b, n);
    NextTurn(g, w, limit, n + 1);
    NextTurn(g, w2, limit, n + 1);
    hide *;
    TwoTurnsDiffer(g, w, limit, s, b);
  }

  lemma TwoTurnsDiffer(g: Graph, w: World, limit: nat, s: State, b: Node)
    requires SidePromotes(g, w, limit, s) && s.queue != [] && Lookup(g.nodes, s.queue[0]) == Some(b)
    ensures !SameView(g, Step(g, w, limit, s).envelopes, Step(g, Failing(w, |s.trace|, b), limit, s).envelopes)
  {
    var w2 := Failing(w, |s.trace|, b);
    var id, i: nat :| Coverable(g, s.envelopes, ScopesOf(b), id, i);
    FailedGateKeeps(g, w, s, b);
    hide Process, Decide, Failing;
    GreenGateChanges(g, w, s, b, id, i);
    SideTurnKeeps(g, w2, s, b);
  }

  lemma BlindDecision(g: Graph, w1: World, w2: World, k: nat, id: string, m1: map<string, Outputs>, m2: map<string, Outputs>)
    requires DifferInBackground(g, w1, w2) && IsForeground(g, id) && SameView(g, m1, m2)
    ensures Decide(w1, k, Lookup(g.nodes, id).value, m1) == Decide(w1, k, Lookup(g.nodes, id).value, m2)
    ensures Decide(w2, k, Lookup(g.nodes, id).value, m1) == Decide(w2, k, Lookup(g.nodes, id).value, m2)
  {
    SameViewOfItself(g, m1);
    SameViewOfItself(g, m2);
    hide Decide, Lookup, SameView;
  }

  lemma BlindCondition(g: Graph, w1: World, w2: World, e: Edge, m1: map<string, Outputs>, m2: map<string, Outputs>)
    requires DifferInBackground(g, w1, w2) && e in g.edges && IsForeground(g, e.from) && SameView(g, m1, m2)
    ensures w1.cond(e.when, m1) == w1.cond(e.when, m2) && w2.cond(e.when, m1) == w2.cond(e.when, m2)
  {
    SameViewOfItself(g, m1);
    SameViewOfItself(g, m2);
    hide Decide, Lookup, SameView;
  }

  /** Worlds that differ in side work alone are each one the side work can be varied in. */
  lemma BlindWorlds(g: Graph, w1: World, w2: World)
    requires DifferInBackground(g, w1, w2)
    ensures DifferInBackground(g, w1, w1) && DifferInBackground(g, w2, w2)
  {
    hide Decide, Lookup, SameView;
    forall k, id, m1, m2 | IsForeground(g, id) && SameView(g, m1, m2)
      ensures Decide(w1, k, Lookup(g.nodes, id).value, m1) == Decide(w1, k, Lookup(g.nodes, id).value, m2)
      ensures Decide(w2, k, Lookup(g.nodes, id).value, m1) == Decide(w2, k, Lookup(g.nodes, id).value, m2)
    {
      BlindDecision(g, w1, w2, k, id, m1, m2);
    }
    forall e, m1, m2 | e in g.edges && IsForeground(g, e.from) && SameView(g, m1, m2)
      ensures w1.cond(e.when, m1) == w1.cond(e.when, m2) && w2.cond(e.when, m1) == w2.cond(e.when, m2)
    {
      BlindCondition(g, w1, w2, e, m1, m2);
    }
  }

  /** No side work of the graph can ever change a foreground envelope. */
  ghost predicate EnvelopesAgree(g: Graph, limit: nat) {
    forall w1: World, w2: World, n: nat :: DifferInBackground(g, w1, w2) && w1.runId == w2.runId ==>
      SameView(g, StateAt(g, w1, limit, n).envelopes, StateAt(g, w2, limit, n).envelopes)
  }

  /** In no reachable state does a background gate promote a foreground claim. */
  ghost predicate NeverPromotesAside(g: Graph, limit: nat) {
    forall w: World, n: nat :: DifferInBackground(g, w, w) ==> !SidePromotes(g, w, limit, StateAt(g, w, limit, n))
  }

  /** Foreground envelopes, trust stamps included, are independent of side work if and only if no
      background gate ever promotes a foreground claim. */
  lemma EnvelopesDoNotInterfere(g: Graph, limit: nat)
    ensures EnvelopesAgree(g, limit) <==> NeverPromotesAside(g, limit)
  {
    hide DifferInBackground, SidePromotes, StateAt, SameView;
    if EnvelopesAgree(g, limit) {
      forall w: World, n: nat | DifferInBackground(g, w, w) ensures !SidePromotes(g, w, limit, StateAt(g, w, limit, n)) {
        if SidePromotes(g, w, limit, StateAt(g, w, limit, n)) {
          var w2 := PromotionInterferes(g, w, limit, n);
          assert false;
        }
      }
    }
    if NeverPromotesAside(g, limit) {
      forall w1: World, w2: World, n: nat | DifferInBackground(g, w1, w2) && w1.runId == w2.runId
        ensures SameView(g, StateAt(g, w1, limit, n).envelopes, StateAt(g, w2, limit, n).envelopes)
      {
        BlindWorlds(g, w1, w2);
        EnvelopesInStep(g, w1, w2, limit, n);
      }
    }
  }

  /** No background node acts as a validator: none has a scope with a pattern in it. */
  predicate NoSidePatterns(g: Graph) {
    forall i, j :: 0 <= i < |g.nodes| && g.nodes[i].background && 0 <= j < |ScopesOf(g.nodes[i])| ==> ScopesOf(g.nodes[i])[j].claimTypes == []
  }

  /** Which the workflow alone can rule out. */
  lemma NoPatternsNoInterference(g: Graph, limit: nat)
    requires NoSidePatterns(g)
    ensures EnvelopesAgree(g, limit)
  {
    forall w: World, n: nat | DifferInBackground(g, w, w) ensures !SidePromotes(g, w, limit, StateAt(g, w, limit, n)) {
      var s := StateAt(g, w, limit, n);
      if s.queue != [] && InBackground(g, s.queue[0]) { LookupIs(g.nodes, s.queue[0]); }
      hide StateAt, DifferInBackground, Decide;
    }
    hide DifferInBackground, SidePromotes, StateAt, SameView;
    assert NeverPromotesAside(g, limit);
    EnvelopesDoNotInterfere(g, limit);
  }

  // ------------------------------------------------- with a pattern, whenever it is reached

  lemma {:induction false} PatternMatchesItself(p: string)
    ensures Glob.Matches(p, p)
  {
    if p != "" { PatternMatchesItself(p[1..]); }
  }

  /** A claim the scope covers. */
  function ClaimFor(scope: Scope): Claim
    requires scope.claimTypes != []
  {
    Claim(scope.claimTypes[0], if scope.bindings == [] then "" else scope.bindings[0], "", "", Observed, "")
  }

  lemma ScopeCoversIt(scope: Scope)
    requires scope.claimTypes != []
    ensures Covers(scope, ClaimFor(scope))
  {
    PatternMatchesItself(scope.claimTypes[0]);
  }

  function Asserted(r: NodeResult, c: Claim): NodeResult { r.(enrichment := Some(("", [c]))) }

  /** The same world, except that f's every execution asserts the claim, gates are deterministic, and
      b is green at visit n. */
  function Asserting(w: World, n: nat, b: Node, f: Node, c: Claim): World {
    w.(registered := (t: string) => if t == "gate" then Some(true) else w.registered(t),
       run := (k: nat, a: nat, node: Node, inputs: map<string, Outputs>) =>
         var r := if k == n && node == b then ExecReturn(Some(Green), map[], "", None, false, None) else w.run(k, a, node, inputs);
         if node == f then r.(enrichment := Some(("", [c]))) else r)
  }

  lemma {:induction false} AttemptsAssert(w: World, n: nat, b: Node, f: Node, c: Claim, k: nat, node: Node, inputs: map<string, Outputs>, a: nat, limit: nat)
    requires k != n || node != b
    ensures var r := Attempts(w, k, node, inputs, a, limit);
      Attempts(Asserting(w, n, b, f, c), k, node, inputs, a, limit) == if node == f then Asserted(r, c) else r
    decreases limit - a
  {
    var w', r := Asserting(w, n, b, f, c), Settle(w, k, node, inputs, a);
    assert Settle(w', k, node, inputs, a) == if node == f then Asserted(r, c) else r;
    if !StopsAfter(w, k, r, a, limit) { AttemptsAssert(w, n, b, f, c, k, node, inputs, a + 1, limit); }
  }

  /** The outcome in the changed world. */
  function Changed(o: Outcome, node: Node, f: Node, c: Claim): Outcome {
    match o
    case Ran(r, det) => Ran(if node == f then Asserted(r, c) else r, if node.typ == "gate" then true else det)
    case _ => o
  }

  lemma DecidesChanged(w: World, n: nat, b: Node, f: Node, c: Claim, k: nat, node: Node, inputs: map<string, Outputs>)
    requires (k != n || node != b) && w.registered("gate").Some?
    ensures Decide(Asserting(w, n, b, f, c), k, node, inputs) == Changed(Decide(w, k, node, inputs), node, f, c)
  {
    AttemptsAssert(w, n, b, f, c, k, node, inputs, 1, RetryPolicyOf(node.retry).maxAttempts);
  }

  lemma AssertingIsBlind(g: Graph, w: World, n: nat, b: Node, f: Node, c: Claim)
    requires DifferInBackground(g, w, w) && w.registered("gate").Some? && InBackground(g, b.id) && Lookup(g.nodes, b.id) == Some(b)
    ensures DifferInBackground(g, Asserting(w, n, b, f, c), Asserting(w, n, b, f, c))
  {
    var w' := Asserting(w, n, b, f, c);
    forall k, id, m1, m2 | IsForeground(g, id) && SameView(g, m1, m2)
      ensures Decide(w', k, Lookup(g.nodes, id).value, m1) == Decide(w', k, Lookup(g.nodes, id).value, m2)
    {
      var node := Lookup(g.nodes, id).value;
      LookupIs(g.nodes, id);
      hide Decide, Asserting, Lookup, SameView;
      DecidesChanged(w, n, b, f, c, k, node, m1);
      DecidesChanged(w, n, b, f, c, k, node, m2);
      assert Decide(w, k, node, m1) == Decide(w, k, node, m2);
    }
    forall e, m1, m2 | e in g.edges && IsForeground(g, e.from) && SameView(g, m1, m2) ensures w'.cond(e.when, m1) == w'.cond(e.when, m2) {
      assert w.cond(e.when, m1) == w.cond(e.when, m2);
    }
  }

  /** The two visits went the same way; f's asserted the claim. */
  ghost predicate SameWay(v: Visit, v': Visit, f: Node, c: Claim) {
    && v'.id == v.id && v'.node == v.node && v'.outcome == Changed(v.outcome, v.node, f, c)
  }

  /** The two runs are at the same point, whatever claims were made. */
  ghost predicate SameFlow(s: State, s': State, f: Node, c: Claim) {
    && s'.queue == s.queue && s'.counts == s.counts && s'.verdict == s.verdict
    && Snapshot(s'.results) == Snapshot(s.results) && |s'.trace| == |s.trace|
    && forall i :: 0 <= i < |s.trace| ==> SameWay(s.trace[i], s'.trace[i], f, c)
  }

  lemma SameOutputs(m1: map<string, NodeResult>, m2: map<string, NodeResult>, id: string, r1: NodeResult, r2: NodeResult)
    requires Snapshot(m1) == Snapshot(m2) && r1.outputs == r2.outputs
    ensures Snapshot(m1[id := r1]) == Snapshot(m2[id := r2])
  {
    var a, b := m1[id := r1], m2[id := r2];
    assert m1.Keys == Snapshot(m1).Keys && m2.Keys == Snapshot(m2).Keys;
    forall x | x in a ensures x in b && Snapshot(a)[x] == Snapshot(b)[x] {
      if x != id { assert Snapshot(m1)[x] == Snapshot(m2)[x]; }
    }
  }

  lemma FlowTurn(g: Graph, w: World, w': World, s: State, s': State, node: Node, f: Node, c: Claim)
    requires s.queue != [] && SameFlow(s, s', f, c) && w'.cond == w.cond
    requires Decide(w', |s.trace|, node, Snapshot(s.results)) == Changed(Decide(w, |s.trace|, node, Snapshot(s.results)), node, f, c)
    ensures SameFlow(Process(g, w, s, node), Process(g, w', s', node), f, c)
  {
    var id, o := s.queue[0], Decide(w, |s.trace|, node, Snapshot(s.results));
    hide Decide, Route, Snapshot, OutEdges, RecordedEnvelopes, SameWay;
    RoutedAlike(g, w, w', s, s', o, node, f, c);
    SameWayNow(node, id, o, f, c, Routed(g, w, s, o).held, Routed(g, w, s, o).taken);
  }

  lemma SameWayNow(node: Node, id: string, o: Outcome, f: Node, c: Claim, held: seq<Edge>, taken: seq<Edge>)
    ensures var o' := Changed(o, node, f, c);
      && SameWay(Visit(node, id, o, held, taken), Visit(node, id, o', held, taken), f, c)
      && o'.DidFail() == o.DidFail() && FailureMessage(id, o') == FailureMessage(id, o)
  {
  }

  lemma RoutedAlike(g: Graph, w: World, w': World, s: State, s': State, o: Outcome, node: Node, f: Node, c: Claim)
    requires s.queue != [] && w'.cond == w.cond && s'.queue == s.queue && s'.counts == s.counts && Snapshot(s'.results) == Snapshot(s.results)
    ensures var id, o' := s.queue[0], Changed(o, node, f, c);
      && Routed(g, w', s', o') == Routed(g, w, s, o)
      && Snapshot(s'.results[id := o'.Result()]) == Snapshot(s.results[id := o.Result()])
  {
    var id, o' := s.queue[0], Changed(o, node, f, c);
    hide Route, Snapshot, OutEdges;
    SameOutputs(s.results, s'.results, id, o.Result(), o'.Result());
    RouteUnchanged(g.nodes, w, w', OutEdges(g.edges, id), o.Result(), o'.Result(),
      Snapshot(s.results[id := o.Result()]), Routing(s.queue[1..], s.counts, [], []));
  }

  lemma FlowStep(g: Graph, w: World, limit: nat, s: State, s': State, n: nat, b: Node, f: Node, c: Claim)
    requires SameFlow(s, s', f, c) && w.registered("gate").Some? && (s.verdict.Some? || |s.trace| != n)
    ensures SameFlow(Step(g, w, limit, s), Step(g, Asserting(w, n, b, f, c), limit, s'), f, c)
  {
    hide Process, Decide, Changed, SameWay, Lookup, Snapshot, Asserting;
    AssertingConds(w, n, b, f, c);
    if s.verdict == None && s.queue != [] && Lookup(g.nodes, s.queue[0]).Some? {
      var node := Lookup(g.nodes, s.queue[0]).value;
      DecidesChanged(w, n, b, f, c, |s.trace|, node, Snapshot(s.results));
      FlowTurn(g, w, Asserting(w, n, b, f, c), s, s', node, f, c);
    }
  }

  lemma AssertingConds(w: World, n: nat, b: Node, f: Node, c: Claim)
    ensures Asserting(w, n, b, f, c).cond == w.cond
  {
  }

  lemma FlowStart(g: Graph, f: Node, c: Claim)
    ensures SameFlow(Start(g), Start(g), f, c)
  {
  }

  lemma {:induction false} FlowsAlike(g: Graph, w: World, limit: nat, n: nat, b: Node, f: Node, c: Claim, m: nat)
    requires m <= n && w.registered("gate").Some?
    ensures SameFlow(StateAt(g, w, limit, m), StateAt(g, Asserting(w, n, b, f, c), limit, m), f, c)
  {
    hide *;
    AtStart(g, w, limit);
    AtStart(g, Asserting(w, n, b, f, c), limit);
    FlowStart(g, f, c);
    if m > 0 {
      NextTurn(g, w, limit, m);
      NextTurn(g, Asserting(w, n, b, f, c), limit, m);
      FlowsAlike(g, w, limit, n, b, f, c, m - 1);
      TurnsCounted(g, w, limit, m - 1);
      FlowStep(g, w, limit, StateAt(g, w, limit, m - 1), StateAt(g, Asserting(w, n, b, f, c), limit, m - 1), n, b, f, c);
    }
  }

  /** Whoever ran has an envelope, and stands in the trace as declared. */
  ghost predicate TraceKept(g: Graph, s: State) {
    forall i :: 0 <= i < |s.trace| ==> s.trace[i].id in s.envelopes && Lookup(g.nodes, s.trace[i].id) == Some(s.trace[i].node)
  }

  lemma StepKeepsTrace(g: Graph, w: World, limit: nat, s: State)
    requires TraceKept(g, s)
    ensures TraceKept(g, Step(g, w, limit, s))
  {
    hide Decide, Routed;
  }

  lemma {:induction false} TraceIsKept(g: Graph, w: World, limit: nat, n: nat)
    ensures TraceKept(g, StateAt(g, w, limit, n))
  {
    hide *;
    if n == 0 {
      AtStart(g, w, limit);
      StartKeepsTrace(g);
    } else {
      TraceIsKept(g, w, limit, n - 1);
      NextTurn(g, w, limit, n);
      StepKeepsTrace(g, w, limit, StateAt(g, w, limit, n - 1));
    }
  }

  lemma StartKeepsTrace(g: Graph)
    ensures TraceKept(g, Start(g))
  {
  }

  /** A visit that may have confirmed the claim. */
  predicate MayConfirm(v: Visit, c: Claim) {
    v.node.typ == "gate" && v.outcome.Result().status == Green && CoveredBySome(ScopesOf(v.node), c)
  }

  /** f ran in the foreground at turn j, for the last time, and no gate may have confirmed the claim
      since. */
  ghost predicate Unconfirmed(g: Graph, s: State, j: nat, c: Claim) {
    && j < |s.trace| && s.trace[j].outcome.Ran? && !s.trace[j].node.background
    && (forall i :: j < i < |s.trace| ==> s.trace[i].id != s.trace[j].id)
    && forall i :: j <= i < |s.trace| ==> !MayConfirm(s.trace[i], c)
  }

  lemma ConfirmsAlike(v: Visit, v': Visit, f: Node, c: Claim, d: Claim)
    requires SameWay(v, v', f, c) && Confirms(v', d)
    ensures MayConfirm(v, d)
  {
  }

  lemma AssertionRecorded(w: World, v: Visit, v': Visit, f: Node, c: Claim)
    requires SameWay(v, v', f, c) && v.node == f && v.outcome.Ran? && c.trust == Observed
    ensures Recorded(w, v'.id, v'.outcome).claims == [c]
  {
    assert DemoteAll([c]) == [c];
  }

  lemma SameIds(s: State, s': State, f: Node, c: Claim)
    requires SameFlow(s, s', f, c)
    ensures |s'.trace| == |s.trace| && forall i :: 0 <= i < |s.trace| ==> s'.trace[i].id == s.trace[i].id
  {
  }

  /** In the changed world the claim then still stands as asserted. */
  lemma ClaimStands(g: Graph, w': World, s: State, s': State, j: nat, f: Node, c: Claim)
    requires c.trust == Observed && Unconfirmed(g, s, j, c) && s.trace[j].node == f
    requires SameFlow(s, s', f, c) && TraceKept(g, s') && Accounted(w', s'.trace, s'.envelopes)
    ensures var id := s.trace[j].id; id in s'.envelopes && s'.envelopes[id].claims == [c]
  {
    var id, tr := s.trace[j].id, s'.trace;
    SameIds(s, s', f, c);
    AssertionRecorded(w', s.trace[j], tr[j], f, c);
    forall q | j <= q < |tr| ensures !Confirms(tr[q], c) { NotConfirmed(s, s', q, f, c); }
    hide SameWay, MayConfirm, Recorded, Confirms, SameFlow;
    assert tr[j].id == id && id in s'.envelopes;
    var p :| IsLastVisit(tr, id, p) && EnvelopeFrom(w', tr, p, s'.envelopes[id]);
    assert p == j;
    StandsAsRecorded(w', tr, j, s'.envelopes[id], c);
  }

  lemma NotConfirmed(s: State, s': State, q: nat, f: Node, c: Claim)
    requires SameFlow(s, s', f, c) && q < |s.trace| && !MayConfirm(s.trace[q], c)
    ensures !Confirms(s'.trace[q], c)
  {
    assert SameWay(s.trace[q], s'.trace[q], f, c);
    hide SameWay, MayConfirm, Confirms;
    if Confirms(s'.trace[q], c) { ConfirmsAlike(s.trace[q], s'.trace[q], f, c, c); }
  }

  /** What no gate confirmed since is still as recorded. */
  lemma StandsAsRecorded(w: World, trace: seq<Visit>, p: nat, env: Envelope, c: Claim)
    requires p < |trace| && EnvelopeFrom(w, trace, p, env) && Recorded(w, trace[p].id, trace[p].outcome).claims == [c]
    requires forall q :: p <= q < |trace| ==> !Confirms(trace[q], c)
    ensures env.claims == [c]
  {
    hide Confirms, Recorded;
    assert ClaimFrom(trace, p, c, env.claims[0]);
  }

  lemma GreenGatePromotes(w: World, n: nat, b: Node, f: Node, c: Claim, inputs: map<string, Outputs>)
    requires b.typ == "gate" && b != f && Capability.Violations(b.id, w.bindings, b.requires_) == []
    ensures Promotes(Decide(Asserting(w, n, b, f, c), n, b, inputs))
  {
    var r := Settle(Asserting(w, n, b, f, c), n, b, inputs, 1);
    assert r.status == Green && !r.transient;
  }

  /** A background gate with a pattern, about to be visited: as long as a foreground node ran and no
      gate may have confirmed what the pattern covers since, there are two worlds, alike but for the
      gate's outcome, in which that node's claim ends with different trust. */
  lemma BackgroundPatternInterferes(g: Graph, w: World, limit: nat, n: nat, scope: Scope, j: nat) returns (w1: World, w2: World)
    requires DifferInBackground(g, w, w) && w.registered("gate").Some? && n < limit && scope.claimTypes != []
    requires var s := StateAt(g, w, limit, n);
      && s.verdict == None && s.queue != [] && InBackground(g, s.queue[0])
      && var b := Lookup(g.nodes, s.queue[0]).value;
         scope in ScopesOf(b) && Capability.Violations(b.id, w.bindings, b.requires_) == []
    requires Unconfirmed(g, StateAt(g, w, limit, n), j, ClaimFor(scope))
    ensures DifferInBackground(g, w1, w2) && w1.runId == w2.runId
    ensures !SameView(g, StateAt(g, w1, limit, n + 1).envelopes, StateAt(g, w2, limit, n + 1).envelopes)
  {
    var s := StateAt(g, w, limit, n);
    var b, f, c := Lookup(g.nodes, s.queue[0]).value, s.trace[j].node, ClaimFor(scope);
    w1 := Asserting(w, n, b, f, c);
    var s' := StateAt(g, w1, limit, n);
    LookupIs(g.nodes, s.queue[0]);
    TurnsCounted(g, w, limit, n);
    TraceIsKept(g, w, limit, n);
    TraceIsKept(g, w1, limit, n);
    assert c.trust == Observed;
    hide Asserting, StateAt, Decide, DifferInBackground, SameView, Unconfirmed, TraceKept, ClaimFor;
    FlowsAlike(g, w, limit, n, b, f, c, n);
    EnvelopesAccounted(g, w1, limit, n);
    UnconfirmedRan(g, s, j, c);
    ClaimStands(g, w1, s, s', j, f, c);
    GreenGatePromotes(w, n, b, f, c, Snapshot(s'.results));
    ScopeCoversIt(scope);
    assert CoveredBySome(ScopesOf(b), c);
    assert Coverable(g, s'.envelopes, ScopesOf(b), s.trace[j].id, 0);
    assert SidePromotes(g, w1, limit, s');
    AssertingIsBlind(g, w, n, b, f, c);
    w2 := PromotionInterferes(g, w1, limit, n);
  }

  lemma UnconfirmedRan(g: Graph, s: State, j: nat, c: Claim)
    requires Unconfirmed(g, s, j, c) && TraceKept(g, s)
    ensures j < |s.trace| && !s.trace[j].node.background && !InBackground(g, s.trace[j].id)
  {
  }

  // With a background gate that declares a scope they need not: a foreground claim's trust then
  // depends on whether the side work ran green.

  const WORKER := Node("agent", "agent", [], None, "", false, None)
  const SIDE_GATE := Node("side", "gate", [], Some([Scope(["*"], [])]), "", true, None)
  const SIDE_GRAPH := Graph([WORKER, SIDE_GATE], [])
  const WIKI_CLAIM := Claim("wiki.page", "wiki", "", "", Observed, "")

  function ClaimsOf(s: State, id: string): seq<Claim> {
    if id in s.envelopes then s.envelopes[id].claims else []
  }

  function SideResult(typ: string, gate: NodeStatus): NodeResult {
    if typ == "gate" then NodeResult(gate, map[], "", None, false, 1)
    else NodeResult(Green, map[], "", Some(("", [WIKI_CLAIM])), false, 1)
  }

  function SideWorld(gate: NodeStatus): World {
    World([], "run", (typ: string) => Some(typ == "gate"), (typ: string) => "", (v: seq<Capability.Violation>) => "",
      (k: nat, a: nat, node: Node, inputs: map<string, Outputs>) =>
        var r := SideResult(node.typ, gate);
        ExecReturn(Some(r.status), r.outputs, r.feedback, r.enrichment, r.transient, None),
      (k: nat, a: nat, p: nat) => false, (t: string) => false, (when: string, o: map<string, Outputs>) => false)
  }

  lemma SideDecides(node: Node, k: nat, inputs: map<string, Outputs>, gate: NodeStatus)
    requires node == WORKER || node == SIDE_GATE
    ensures Decide(SideWorld(gate), k, node, inputs) == Ran(SideResult(node.typ, gate), node.typ == "gate")
  {
  }

  lemma SideWorldsDiffer(gate1: NodeStatus, gate2: NodeStatus)
    ensures DifferInBackground(SIDE_GRAPH, SideWorld(gate1), SideWorld(gate2))
  {
    forall k, id, m1, m2 | IsForeground(SIDE_GRAPH, id) && SameView(SIDE_GRAPH, m1, m2)
      ensures Decide(SideWorld(gate1), k, Lookup(SIDE_GRAPH.nodes, id).value, m1) == Decide(SideWorld(gate2), k, Lookup(SIDE_GRAPH.nodes, id).value, m2)
    {
      LookupIs(SIDE_GRAPH.nodes, id);
      SideDecides(WORKER, k, m1, gate1);
      SideDecides(WORKER, k, m2, gate2);
    }
  }

  lemma SideTurn(s: State, node: Node, gate: NodeStatus)
    requires s.queue != [] && (node == WORKER || node == SIDE_GATE) && s.queue[0] == node.id
    ensures var o := Ran(SideResult(node.typ, gate), node.typ == "gate");
      Process(SIDE_GRAPH, SideWorld(gate), s, node) == State(s.queue[1..], s.counts, s.results[node.id := o.result],
        RecordedEnvelopes(SideWorld(gate), s, node, o), s.trace + [Visit(node, node.id, o, [], [])],
        if o.DidFail() && !node.background then Some(Verdict(Failed, NodeFailed(node.id, ""))) else None)
  {
    SideDecides(node, |s.trace|, Snapshot(s.results), gate);
  }

  lemma SideStart()
    ensures Start(SIDE_GRAPH) == State(["agent", "side"], map[], map[], map[], [], None)
  {
    var nodes := SIDE_GRAPH.nodes;
    assert nodes[..1] == [WORKER] && nodes[..1][..0] == [];
    assert EntriesAmong(SIDE_GRAPH, nodes[..1]) == ["agent"];
    assert FirstNotLeaf(SIDE_GRAPH, 1) == None;
  }

  lemma SideRun(gate: NodeStatus, limit: nat)
    requires limit >= 2 && gate in {Green, Failed}
    ensures ClaimsOf(Final(SIDE_GRAPH, SideWorld(gate), limit), "agent") ==
        [if gate == Green then WIKI_CLAIM.(trust := Validated, validatedBy := "side") else WIKI_CLAIM]
  {
    var w, s1 := SideWorld(gate), StateAt(SIDE_GRAPH, SideWorld(gate), limit, 1);
    SideFirst(gate, limit);
    assert Lookup(SIDE_GRAPH.nodes, "side") == Some(SIDE_GATE);
    hide Process, Start, StateAt, RecordedEnvelopes, Lookup;
    SideTurn(s1, SIDE_GATE, gate);
    SidePromotion(s1, gate);
    NextTurn(SIDE_GRAPH, w, limit, 2);
    FinalIs(SIDE_GRAPH, w, limit, 2);
  }

  /** After the worker's turn its observed claim is recorded and the side gate is next. */
  lemma SideFirst(gate: NodeStatus, limit: nat)
    requires limit >= 2 && gate in {Green, Failed}
    ensures var s1 := StateAt(SIDE_GRAPH, SideWorld(gate), limit, 1);
      && s1.queue == ["side"] && |s1.trace| == 1 && s1.verdict == None
      && "agent" in s1.envelopes && s1.envelopes["agent"].claims == [WIKI_CLAIM]
  {
    var w, s0 := SideWorld(gate), Start(SIDE_GRAPH);
    SideStart();
    assert Lookup(SIDE_GRAPH.nodes, "agent") == Some(WORKER) by { assert SIDE_GRAPH.nodes[..1] == [WORKER]; }
    hide Process, Start, StateAt, RecordedEnvelopes, Lookup;
    AtStart(SIDE_GRAPH, w, limit);
    SideTurn(s0, WORKER, gate);
    WorkerEnvelope(s0, gate);
    NextTurn(SIDE_GRAPH, w, limit, 1);
  }

  lemma WorkerEnvelope(s: State, gate: NodeStatus)
    requires s.queue != [] && s.queue[0] == "agent"
    ensures var e := RecordedEnvelopes(SideWorld(gate), s, WORKER, Ran(SideResult("agent", gate), false));
      "agent" in e && e["agent"].claims == [WIKI_CLAIM]
  {
  }

  lemma SidePromotion(s: State, gate: NodeStatus)
    requires s.queue != [] && s.queue[0] == "side" && gate in {Green, Failed}
    requires "agent" in s.envelopes && s.envelopes["agent"].claims == [WIKI_CLAIM]
    ensures var e := RecordedEnvelopes(SideWorld(gate), s, SIDE_GATE, Ran(SideResult("gate", gate), true));
      "agent" in e && e["agent"].claims ==
        [if gate == Green then WIKI_CLAIM.(trust := Validated, validatedBy := "side") else WIKI_CLAIM]
  {
    StarCovers(WIKI_CLAIM);
    assert ScopesOf(SIDE_GATE) == [Scope(["*"], [])];
    hide CoveredBySome;
    var o := Ran(SideResult("gate", gate), true);
    assert Promotes(o) <==> gate == Green;
  }

  lemma StarCovers(c: Claim)
    ensures CoveredBySome([Scope(["*"], [])], c)
  {
    Glob.StarSplits("", c.ctype);
    assert Glob.Matches("", c.ctype[|c.ctype|..]);
    assert ["*"][0] == "*" + "" && [Scope(["*"], [])][0] == Scope(["*"], []);
  }

  /** A background gate's outcome alone decides whether a foreground claim becomes authoritative. */
  lemma BackgroundGateDecidesTrust(limit: nat)
    requires limit >= 2
    ensures DifferInBackground(SIDE_GRAPH, SideWorld(Green), SideWorld(Failed))
    ensures ClaimsOf(Final(SIDE_GRAPH, SideWorld(Green), limit), "agent") == [WIKI_CLAIM.(trust := Validated, validatedBy := "side")]
    ensures ClaimsOf(Final(SIDE_GRAPH, SideWorld(Failed), limit), "agent") == [WIKI_CLAIM]
  {
    SideWorldsDiffer(Green, Failed);
    SideRun(Green, limit);
    SideRun(Failed, limit);
  }
}
