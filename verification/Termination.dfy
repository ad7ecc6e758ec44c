/** How long a run can be: when every cycle of executable edges carries a retry limit, the walk
    dequeues at most Bound(g) nodes, whatever the nodes do. */
module Termination {
  import opened Prelude
  import opened Kernel

  // -------------------------------------------------- cycles of executable edges

  predicate Executable(g: Graph, e: Edge) { e in g.edges && !IsExternal(g.nodes, e.to) }

  predicate Limited(e: Edge) { e.maxRetries > 0 }

  ghost predicate IsChain(g: Graph, p: seq<Edge>) {
    && (forall i :: 0 <= i < |p| ==> Executable(g, p[i]))
    && forall i :: 0 < i < |p| ==> p[i - 1].to == p[i].from
  }

  ghost predicate IsCycle(g: Graph, p: seq<Edge>) {
    p != [] && IsChain(g, p) && p[|p| - 1].to == p[0].from
  }

  ghost predicate CyclesAreLimited(g: Graph) {
    forall p :: IsCycle(g, p) ==> exists e :: e in p && Limited(e)
  }

  // --------------------------------------------- weights: the work a node can start

  predicate Steady(g: Graph, e: Edge) { !Limited(e) && !IsExternal(g.nodes, e.to) }

  /** One for the node itself, and the weights of its unlimited targets, looking k edges ahead. */
  function Weight(g: Graph, k: nat, id: string): (n: nat)
    ensures n >= 1
    decreases k, 0
  {
    if k == 0 then 1 else 1 + WeightOfTargets(g, k - 1, OutEdges(g.edges, id))
  }

  function WeightOfTargets(g: Graph, k: nat, out: seq<Edge>): nat
    decreases k, 1, |out|
  {
    if out == [] then 0
    else
      var last := out[|out| - 1];
      WeightOfTargets(g, k, out[..|out| - 1]) + if Steady(g, last) then Weight(g, k, last.to) else 0
  }

  /** Far enough ahead for any path that does not repeat an edge. */
  function Reach(g: Graph): nat { |g.edges| + 1 }

  function W(g: Graph, id: string): nat { Weight(g, Reach(g), id) }

  function Remaining(counts: Counts, e: Edge): nat {
    if e.maxRetries > Count(counts, e) then e.maxRetries - Count(counts, e) else 0
  }

  /** What the retry limits still allow. */
  function Budget(g: Graph, counts: Counts, edges: seq<Edge>): nat {
    if edges == [] then 0
    else
      var last := edges[|edges| - 1];
      Budget(g, counts, edges[..|edges| - 1]) + BudgetOf(g, counts, last)
  }

  function BudgetOf(g: Graph, counts: Counts, e: Edge): nat {
    if Limited(e) && !IsExternal(g.nodes, e.to) then Remaining(counts, e) * W(g, e.to) else 0
  }

  function QueueWeight(g: Graph, queue: seq<string>): nat {
    if queue == [] then 0 else W(g, queue[0]) + QueueWeight(g, queue[1..])
  }

  /** The weights of the entry nodes, plus maxRetries times the target's weight per limited edge. */
  function Bound(g: Graph): nat {
    QueueWeight(g, Entries(g)) + Budget(g, map[], g.edges)
  }

  ghost function Potential(g: Graph, queue: seq<string>, counts: Counts): nat {
    QueueWeight(g, queue) + Budget(g, counts, g.edges)
  }

  // ------------------------------------------ no long unlimited path: weights settle

  ghost predicate HasPath(g: Graph, k: nat, id: string) {
    k == 0 || exists e :: e in g.edges && e.from == id && Steady(g, e) && HasPath(g, k - 1, e.to)
  }

  lemma {:induction false} PathOf(g: Graph, k: nat, id: string) returns (p: seq<Edge>)
    requires HasPath(g, k, id)
    ensures |p| == k && IsChain(g, p) && forall i :: 0 <= i < k ==> Steady(g, p[i])
    ensures k > 0 ==> p[0].from == id
  {
    if k == 0 {
      p := [];
    } else {
      var e :| e in g.edges && e.from == id && Steady(g, e) && HasPath(g, k - 1, e.to);
      var rest := PathOf(g, k - 1, e.to);
      p := [e] + rest;
    }
  }

  lemma {:induction false} SubsetSize<T>(a: set<T>, b: set<T>)
    requires a <= b
    ensures |a| <= |b|
  {
    if a != {} {
      var x :| x in a;
      SubsetSize(a - {x}, b - {x});
    }
  }

  lemma {:induction false} ElementsSize<T>(s: seq<T>)
    ensures |set x | x in s| <= |s|
    ensures (forall i, j :: 0 <= i < j < |s| ==> s[i] != s[j]) ==> |set x | x in s| == |s|
  {
    if s != [] {
      var init, last := s[..|s| - 1], s[|s| - 1];
      ElementsSize(init);
      assert (set x | x in s) == (set x | x in init) + {last};
    }
  }

  lemma Pigeonhole<T>(p: seq<T>, pool: seq<T>) returns (i: int, j: int)
    requires |p| > |pool| && forall k :: 0 <= k < |p| ==> p[k] in pool
    ensures 0 <= i < j < |p| && p[i] == p[j]
  {
    ElementsSize(p);
    ElementsSize(pool);
    SubsetSize(set x | x in p, set x | x in pool);
    i, j :| 0 <= i < j < |p| && p[i] == p[j];
  }

  /** A path longer than the edge list goes round in a circle. */
  lemma LongPathHasCycle(g: Graph, id: string) returns (c: seq<Edge>)
    requires HasPath(g, Reach(g), id)
    ensures IsCycle(g, c) && forall e :: e in c ==> !Limited(e)
  {
    var p := PathOf(g, Reach(g), id);
    var i, j := Pigeonhole(p, g.edges);
    c := p[i..j];
  }

  lemma NoLongPath(g: Graph, id: string)
    requires CyclesAreLimited(g)
    ensures !HasPath(g, Reach(g), id)
  {
    if HasPath(g, Reach(g), id) {
      var c := LongPathHasCycle(g, id);
    }
  }

  lemma {:induction false} WeightSettles(g: Graph, k: nat, id: string)
    requires k > 0 && !HasPath(g, k, id)
    ensures Weight(g, k, id) == Weight(g, k - 1, id)
    decreases k
  {
    var out := OutEdges(g.edges, id);
    OutEdgesIn(g.edges, id);
    if k == 1 {
      NoSteadyTargets(g, out);
    } else {
      forall e | e in out && Steady(g, e) ensures Weight(g, k - 1, e.to) == Weight(g, k - 2, e.to) {
        WeightSettles(g, k - 1, e.to);
      }
      SameTargetWeights(g, k - 1, k - 2, out);
    }
  }

  lemma {:induction false} NoSteadyTargets(g: Graph, out: seq<Edge>)
    requires forall e :: e in out ==> !Steady(g, e)
    ensures WeightOfTargets(g, 0, out) == 0
  {
    if out != [] { NoSteadyTargets(g, out[..|out| - 1]); }
  }

  lemma {:induction false} SameTargetWeights(g: Graph, k: nat, l: nat, out: seq<Edge>)
    requires forall e :: e in out && Steady(g, e) ==> Weight(g, k, e.to) == Weight(g, l, e.to)
    ensures WeightOfTargets(g, k, out) == WeightOfTargets(g, l, out)
  {
    if out != [] { SameTargetWeights(g, k, l, out[..|out| - 1]); }
  }

  /** A node's weight pays for itself and for everything its unlimited edges enqueue. */
  lemma WeightEquation(g: Graph, id: string)
    requires CyclesAreLimited(g)
    ensures W(g, id) == 1 + WeightOfTargets(g, Reach(g), OutEdges(g.edges, id))
  {
    var out := OutEdges(g.edges, id);
    forall e | e in out ensures Weight(g, Reach(g), e.to) == Weight(g, Reach(g) - 1, e.to) {
      NoLongPath(g, e.to);
      WeightSettles(g, Reach(g), e.to);
    }
    SameTargetWeights(g, Reach(g), Reach(g) - 1, out);
  }

  // --------------------------------------------------- the potential drops every turn

  lemma {:induction false} QueueWeightAppend(g: Graph, q: seq<string>, id: string)
    ensures QueueWeight(g, q + [id]) == QueueWeight(g, q) + W(g, id)
  {
    if q == [] {
      assert q + [id] == [id];
    } else {
      assert (q + [id])[1..] == q[1..] + [id];
      QueueWeightAppend(g, q[1..], id);
    }
  }

  lemma MulMono(a: nat, b: nat, w: nat)
    ensures a <= b ==> a * w <= b * w
    ensures b == a + 1 ==> b * w == a * w + w
  {
    if a <= b { assert b * w == a * w + (b - a) * w; }
  }

  /** Counting a traversal never raises the budget, and pays for the target when e is limited. */
  lemma {:induction false} BudgetDrops(g: Graph, counts: Counts, e: Edge, edges: seq<Edge>)
    ensures var after := counts[(e.from, e.to) := Count(counts, e) + 1];
      Budget(g, after, edges)
        + (if e in edges && Limited(e) && !IsExternal(g.nodes, e.to) && Admits(counts, e) then W(g, e.to) else 0)
        <= Budget(g, counts, edges)
  {
    if edges != [] {
      var after := counts[(e.from, e.to) := Count(counts, e) + 1];
      var init, last := edges[..|edges| - 1], edges[|edges| - 1];
      BudgetDrops(g, counts, e, init);
      MulMono(Remaining(after, last), Remaining(counts, last), W(g, last.to));
      assert e in edges ==> e in init || e == last;
    }
  }

  lemma EnqueuePays(g: Graph, rt: Routing, e: Edge)
    requires e in g.edges
    ensures var rt' := Enqueue(g.nodes, rt, e);
      Potential(g, rt'.queue, rt'.counts) <= Potential(g, rt.queue, rt.counts) + if Steady(g, e) then W(g, e.to) else 0
  {
    BudgetDrops(g, rt.counts, e, g.edges);
    QueueWeightAppend(g, rt.queue, e.to);
  }

  lemma {:induction false} RoutePays(g: Graph, w: World, out: seq<Edge>, r: NodeResult, outputs: map<string, Outputs>, rt: Routing)
    requires forall e :: e in out ==> e in g.edges
    ensures var rt' := Route(g.nodes, w, out, r, outputs, rt);
      Potential(g, rt'.queue, rt'.counts) <= Potential(g, rt.queue, rt.counts) + WeightOfTargets(g, Reach(g), out)
  {
    if out != [] {
      var init, last := out[..|out| - 1], out[|out| - 1];
      RoutePays(g, w, init, r, outputs, rt);
      EnqueuePays(g, Route(g.nodes, w, init, r, outputs, rt), last);
    }
  }

  lemma ProcessPays(g: Graph, w: World, s: State, node: Node)
    requires CyclesAreLimited(g) && s.queue != []
    ensures var s' := Process(g, w, s, node);
      Potential(g, s'.queue, s'.counts) + 1 <= Potential(g, s.queue, s.counts)
  {
    var id := s.queue[0];
    var o := Decide(w, |s.trace|, node, Snapshot(s.results));
    WeightEquation(g, id);
    OutEdgesIn(g.edges, id);
    var out := OutEdges(g.edges, id);
    RoutePays(g, w, out, o.Result(), Snapshot(s.results[id := o.Result()]), Routing(s.queue[1..], s.counts, [], []));
  }

  ghost predicate PaidFor(g: Graph, limit: nat, s: State) {
    && |s.trace| + Potential(g, s.queue, s.counts) <= Bound(g)
    && (s.verdict.Some? && s.verdict.value.message == TooManyIterations ==> limit < Bound(g))
  }

  lemma StartPays(g: Graph, limit: nat)
    ensures PaidFor(g, limit, Start(g))
  {
  }

  lemma StepPays(g: Graph, w: World, limit: nat, s: State)
    requires CyclesAreLimited(g) && PaidFor(g, limit, s)
    ensures PaidFor(g, limit, Step(g, w, limit, s))
  {
    hide Budget, Bound, Decide, Routed, RecordedEnvelopes;
    if s.verdict == None && s.queue != [] {
      var node := Lookup(g.nodes, s.queue[0]);
      if node.Some? { ProcessPays(g, w, s, node.value); }
    }
  }

  lemma {:induction false} SpentAndLeft(g: Graph, w: World, limit: nat, n: nat)
    requires CyclesAreLimited(g)
    ensures PaidFor(g, limit, StateAt(g, w, limit, n))
  {
    hide *;
    if n == 0 {
      AtStart(g, w, limit);
      StartPays(g, limit);
    } else {
      SpentAndLeft(g, w, limit, n - 1);
      NextTurn(g, w, limit, n);
      StepPays(g, w, limit, StateAt(g, w, limit, n - 1));
    }
  }

  /** Whatever the nodes, conditions and deadlines do: at most Bound(g) nodes are dequeued, under
      any iteration limit, and a limit of at least Bound(g) is never the reason a run ends. */
  lemma LimitedCyclesEnd(g: Graph, w: World, limit: nat)
    requires CyclesAreLimited(g)
    ensures |Final(g, w, limit).trace| <= Bound(g)
    ensures Bound(g) <= limit ==>
      Final(g, w, limit).verdict.Some? && Final(g, w, limit).verdict.value.message != TooManyIterations
  {
    SpentAndLeft(g, w, limit, limit + 1);
    RunEnds(g, w, limit);
  }
}
