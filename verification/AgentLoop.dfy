/** The task and gate loop (internal/agent/agent.go): prompt, check, feed back, up to a number of
    fixes, with the session's turns and usage. */
module AgentLoop {
  import opened Prelude
  import opened Rpc

  /** What the agent is sent: the task, or a failed gate's output. */
  datatype Prompt = Task | Feedback(output: string, attempt: nat)

  datatype Reply = Reply(usage: Usage, response: string, finished: bool, error: bool)

  datatype GateReply = GateReply(green: bool, output: string, error: bool)

  /** The agent at each turn (from 0), and the gate at each evaluation (from 1). */
  datatype World = World(agent: (nat, Prompt) -> Reply, gate: nat -> GateReply)

  datatype TurnRecord = TurnRecord(prompt: Prompt, response: string, usage: Usage, gate: Option<GateReply>)

  datatype Ending = Finished(green: bool) | PromptFailed | GateFailed

  datatype Result = Result(ending: Ending, attempts: nat, usage: Usage, turns: seq<TurnRecord>)

  predicate Blank(s: string) { Trim(s) == "" }

  /** An error, or a finished turn that said nothing and cost nothing. */
  predicate Failed(r: Reply) {
    r.error || (r.finished && Blank(r.response) && r.usage.input + r.usage.output + r.usage.cacheRead + r.usage.cacheWrite == 0)
  }

  function Fixes(maxFixes: int): nat { if maxFixes < 1 then 1 else maxFixes }

  function PromptAt(w: World, i: nat): Prompt { if i == 0 then Task else Feedback(w.gate(i).output, i) }

  function ReplyAt(w: World, i: nat): Reply { w.agent(i, PromptAt(w, i)) }

  /** The usage of the first n turns. */
  function UsageOf(w: World, n: nat): Usage { if n == 0 then NO_USAGE else Plus(UsageOf(w, n - 1), ReplyAt(w, n - 1).usage) }

  predicate RedUntil(w: World, a: nat) { forall j :: 1 <= j <= a ==> !w.gate(j).error && !w.gate(j).green }

  predicate RepliesUntil(w: World, n: nat) { forall i :: 0 <= i < n ==> !Failed(ReplyAt(w, i)) }

  /** The gate evaluation a turn ends up with: its own, or the final one for the last turn. */
  predicate TurnIs(w: World, t: TurnRecord, i: nat, gate: Option<GateReply>) {
    t == TurnRecord(PromptAt(w, i), ReplyAt(w, i).response, ReplyAt(w, i).usage, gate)
  }

  function Least(a: nat, b: nat): nat { if a < b then a else b }

  /** What one loop promises, by how it ended. */
  ghost predicate Outcome(w: World, fixes: nat, r: Result) {
    var turns := |r.turns|;
    && RepliesUntil(w, turns)
    && match r.ending
       case Finished(green) =>
         && 1 <= r.attempts <= fixes + 1 && RedUntil(w, r.attempts - 1) && !w.gate(r.attempts).error
         && green == w.gate(r.attempts).green && (green || r.attempts == fixes + 1)
         && turns == Least(r.attempts, fixes) && r.usage == UsageOf(w, turns)
         && (forall i :: 0 <= i < turns ==> TurnIs(w, r.turns[i], i, Some(w.gate(if i == turns - 1 then r.attempts else i + 1))))
       case PromptFailed =>
         && turns < fixes && r.attempts == turns && RedUntil(w, turns) && Failed(ReplyAt(w, turns))
         && r.usage == UsageOf(w, turns + 1)
         && (forall i :: 0 <= i < turns ==> TurnIs(w, r.turns[i], i, Some(w.gate(i + 1))))
       case GateFailed =>
         && 1 <= r.attempts <= fixes + 1 && RedUntil(w, r.attempts - 1) && w.gate(r.attempts).error
         && turns == Least(r.attempts, fixes) && r.usage == UsageOf(w, turns)
         && (forall i :: 0 <= i < turns ==>
               TurnIs(w, r.turns[i], i, if i + 1 < r.attempts then Some(w.gate(i + 1)) else None))
  }

  method RunTask(w: World, maxFixes: int) returns (r: Result)
    ensures Outcome(w, Fixes(maxFixes), r)
  {
    var fixes := if maxFixes < 1 then 1 else maxFixes;
    var usage, turns := NO_USAGE, [];
    hide Failed;
    var reply := w.agent(0, Task);
    assert reply == ReplyAt(w, 0) && UsageOf(w, 0) == NO_USAGE;
    usage := Plus(usage, reply.usage);
    if Failed(reply) { return Result(PromptFailed, 0, usage, []); }
    turns := [TurnRecord(Task, reply.response, reply.usage, None)];
    var attempt := 1;
    while true
      invariant 1 <= attempt <= fixes && |turns| == attempt && RepliesUntil(w, attempt) && RedUntil(w, attempt - 1)
      invariant usage == UsageOf(w, attempt)
      invariant forall i :: 0 <= i < attempt ==> TurnIs(w, turns[i], i, if i + 1 < attempt then Some(w.gate(i + 1)) else None)
      decreases fixes - attempt
    {
      var g := w.gate(attempt);
      if g.error { return Result(GateFailed, attempt, usage, turns); }
      turns := turns[attempt - 1 := turns[attempt - 1].(gate := Some(g))];
      if g.green { return Result(Finished(true), attempt, usage, turns); }
      if attempt >= fixes { break; }
      var fb := Feedback(g.output, attempt);
      reply := w.agent(attempt, fb);
      assert reply == ReplyAt(w, attempt);
      usage := Plus(usage, reply.usage);
      if Failed(reply) { return Result(PromptFailed, attempt, usage, turns); }
      turns := turns + [TurnRecord(fb, reply.response, reply.usage, None)];
      attempt := attempt + 1;
    }
    var g := w.gate(fixes + 1);
    if g.error { return Result(GateFailed, fixes + 1, usage, turns); }
    turns := turns[fixes - 1 := turns[fixes - 1].(gate := Some(g))];
    return Result(Finished(g.green), fixes + 1, usage, turns);
  }

  /** The promise leaves no freedom: it fixes the whole result. */
  lemma OutcomeIsUnique(w: World, fixes: nat, a: Result, b: Result)
    requires fixes >= 1 && Outcome(w, fixes, a) && Outcome(w, fixes, b)
    ensures a == b
  {
    SameLength(w, fixes, a, b);
    forall i | 0 <= i < |a.turns| ensures a.turns[i] == b.turns[i] {}
  }

  lemma SameLength(w: World, fixes: nat, a: Result, b: Result)
    requires fixes >= 1 && Outcome(w, fixes, a) && Outcome(w, fixes, b)
    ensures a.ending == b.ending && a.attempts == b.attempts && |a.turns| == |b.turns|
  {
    hide UsageOf, ReplyAt, TurnIs;
    if |a.turns| < |b.turns| { assert !Failed(ReplyAt(w, |a.turns|)); }
    if |b.turns| < |a.turns| { assert !Failed(ReplyAt(w, |b.turns|)); }
  }

  predicate ErrorFree(w: World, fixes: nat) {
    RepliesUntil(w, fixes) && forall j :: 1 <= j <= fixes + 1 ==> !w.gate(j).error
  }

  /** Without errors: at most N prompts and N + 1 gates, exactly that many when the gate stays red,
      the verdict that of the last gate, and the usage the sum over the turns. */
  lemma TaskBounds(w: World, fixes: nat, r: Result)
    requires fixes >= 1 && ErrorFree(w, fixes) && Outcome(w, fixes, r)
    ensures r.ending.Finished? && |r.turns| <= fixes && r.attempts <= fixes + 1
    ensures r.ending.green == w.gate(r.attempts).green
    ensures RedUntil(w, fixes + 1) <==> !r.ending.green
    ensures !r.ending.green ==> |r.turns| == fixes && r.attempts == fixes + 1
    ensures r.usage == Total(TurnUsages(r.turns))
  {
    if r.ending.Finished? {
      UsageIsTotal(w, r, |r.turns|);
      assert r.turns[..|r.turns|] == r.turns;
    }
  }

  function TurnUsages(turns: seq<TurnRecord>): seq<Usage> { seq(|turns|, i requires 0 <= i < |turns| => turns[i].usage) }

  lemma {:induction false} UsageIsTotal(w: World, r: Result, n: nat)
    requires n <= |r.turns| && forall i :: 0 <= i < |r.turns| ==> r.turns[i].usage == ReplyAt(w, i).usage
    ensures UsageOf(w, n) == Total(TurnUsages(r.turns[..n]))
  {
    if n > 0 {
      UsageIsTotal(w, r, n - 1);
      var us := TurnUsages(r.turns[..n]);
      assert us[..n - 1] == TurnUsages(r.turns[..n - 1]);
    }
  }

  /** The reported usage is the conversation's: with turns absorbed from snapshots that only extend,
      each turn charged once, a finished task reports the last snapshot's assistant sum. */
  lemma UsageIsTheConversation(w: World, fixes: nat, r: Result, session: seq<Turn>)
    requires fixes >= 1 && Outcome(w, fixes, r) && r.ending.Finished? && |session| == |r.turns|
    requires Extending(session) && forall k :: 0 <= k < |session| ==> Exact(session, k)
    requires forall i :: 0 <= i < |session| ==> ReplyAt(w, i).usage == UsageAt(session, i)
    ensures r.usage == AssistantSum(LastSnapshot(session))
  {
    TotalsAreTheSnapshots(session);
    SessionIsUsage(w, session, |session|);
    assert session[..|session|] == session;
  }

  lemma {:induction false} SessionIsUsage(w: World, session: seq<Turn>, n: nat)
    requires n <= |session| && forall i :: 0 <= i < |session| ==> ReplyAt(w, i).usage == UsageAt(session, i)
    ensures UsageOf(w, n) == SessionUsage(session[..n])
  {
    if n > 0 {
      SessionIsUsage(w, session, n - 1);
      assert session[..n][..n - 1] == session[..n - 1];
    }
  }
}
