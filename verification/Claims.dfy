/** The review-claim ledger (internal/attempt/claim.go) on values: attempts as the API server
    holds them, the atomic writes of each operation, and what every write keeps. */
module Claims {
  import opened Prelude

  type Time = int

  const MAX_DEAD_DISPATCHES: nat := 3
  const MAX_DISPATCH_LOST: nat := 3

  const DISPATCH_LOST := "dispatch-lost"
  const HORIZON := "horizon"
  const DISPATCH_TIMEOUT := "dispatch-timeout"
  const SUPERSEDED := "superseded"
  const PR_CLOSED := "pr-closed"
  const CONSUMED := "consumed"

  datatype Review = Review(
    pr: string, head: string, gateLabel: string,
    armedSince: Option<Time>, dispatchedAt: Option<Time>, dispatchedJob: string,
    released: bool, reason: string,
    dead: nat, lost: nat, lastLostAt: Option<Time>, dismissedAt: Option<Time>)

  const FRESH_REVIEW := Review("", "", "", None, None, "", false, "", 0, 0, None, None)

  datatype Phase = NoPhase | Reconciling | Validated | Superseded | PhaseFailed

  datatype RunRecord = RunRecord(name: string, phase: string, endedAt: Option<Time>)

  datatype Status = Status(phase: Phase, review: Option<Review>, runs: seq<RunRecord>)

  /** marked: the "released" label, a separately committed field; createdAt None: never stamped. */
  datatype Attempt = Attempt(workflow: string, kind: string, ref: string, createdAt: Option<Time>, marked: bool, status: Status)

  type Ledger = map<string, Attempt>

  /** The workflow whose gate owns the claims; attempts are named by the reviewed head alone. */
  datatype Workflow = Workflow(name: string, kind: string, ref: string, nameOf: string -> string)

  predicate OfWorkflow(wf: Workflow, a: Attempt) { a.workflow == wf.name && a.ref == wf.ref }

  /** What the list keeps on the client side: the workflow's objects that carry its objective kind. */
  predicate Mine(wf: Workflow, a: Attempt) { OfWorkflow(wf, a) && a.kind == wf.kind }

  predicate HasClaim(l: Ledger, n: string) { n in l && l[n].status.review.Some? }

  function ClaimOf(l: Ledger, n: string): Review
    requires HasClaim(l, n)
  {
    l[n].status.review.value
  }

  /** An unreleased review claim of the workflow. */
  predicate Open(wf: Workflow, l: Ledger, n: string) { HasClaim(l, n) && OfWorkflow(wf, l[n]) && !ClaimOf(l, n).released }

  /** One that carries the kind: a claim the gate can see. */
  predicate Live(wf: Workflow, l: Ledger, n: string) { HasClaim(l, n) && Mine(wf, l[n]) && !ClaimOf(l, n).released }

  /** What the label-filtered list returns: marked attempts never cross the wire. */
  predicate Listed(wf: Workflow, l: Ledger, n: string) { Live(wf, l, n) && !l[n].marked }

  predicate IsCancellation(reason: string) { reason == SUPERSEDED || reason == PR_CLOSED }

  // ------------------------------------------------------------------ status changes

  predicate SameClaim(r: Review, pr: string, head: string) { r.pr == pr && r.head == head }

  /** The arm: a fresh claim, a refresh of a live one, or the revival of a released era. */
  function ArmReview(was: Option<Review>, pr: string, head: string, gateLabel: string, human: bool, budgetExpiry: bool, now: Time): Review {
    var r := if was.Some? then was.value else FRESH_REVIEW;
    var same := SameClaim(r, pr, head);
    var restartClock := !same || r.armedSince == None || r.reason == HORIZON || (human && r.reason == DISPATCH_LOST);
    var forgiven := !same || human || budgetExpiry;
    Review(pr, head, gateLabel,
      if restartClock then Some(now) else r.armedSince,
      if r.released then None else r.dispatchedAt,
      r.dispatchedJob, false, "",
      if forgiven then 0 else r.dead, if forgiven then 0 else r.lost,
      r.lastLostAt, r.dismissedAt)
  }

  function ReleaseReview(was: Option<Review>, reason: string, now: Time): Review {
    var r := if was.Some? then was.value else FRESH_REVIEW;
    r.(released := true, reason := reason,
       lost := if reason == DISPATCH_LOST then r.lost + 1 else r.lost,
       lastLostAt := if reason == DISPATCH_LOST then Some(now) else r.lastLostAt,
       dismissedAt := if reason == HORIZON then Some(now) else r.dismissedAt)
  }

  /** Idempotent: an already released claim is not counted again. */
  function DeadReview(was: Option<Review>, reason: string): Review {
    var r := if was.Some? then was.value else FRESH_REVIEW;
    if r.released then r
    else r.(released := true, reason := reason, dead := if r.dispatchedAt.Some? then r.dead + 1 else r.dead)
  }

  function IntentReview(was: Option<Review>, now: Time): Review {
    var r := if was.Some? then was.value else FRESH_REVIEW;
    r.(dispatchedAt := Some(now), lost := 0)
  }

  predicate Running(r: RunRecord) { r.phase == "" || r.phase == "running" }

  function FinalizedRuns(runs: seq<RunRecord>, now: Time): (r: seq<RunRecord>)
    ensures |r| == |runs|
  {
    seq(|runs|, i requires 0 <= i < |runs| => if Running(runs[i]) then runs[i].(phase := "failed", endedAt := Some(now)) else runs[i])
  }

  datatype Change =
    | Arm(pr: string, head: string, gateLabel: string, human: bool, budgetExpiry: bool, now: Time)
    | Release(reason: string, now: Time)
    | ReleaseDead(reason: string, now: Time)
    | Intent(now: Time)
    | Dispatched(job: string, now: Time)
    | FinalizeCancelled(reason: string, now: Time)
    | WorkerReport(phase: Phase, runs: seq<RunRecord>)   // the worker's own outcome writes

  function Changed(s: Status, c: Change): Status {
    match c
    case Arm(pr, head, gateLabel, human, budgetExpiry, now) =>
      Status(if s.phase == NoPhase || s.phase in {PhaseFailed, Validated, Superseded} then Reconciling else s.phase,
        Some(ArmReview(s.review, pr, head, gateLabel, human, budgetExpiry, now)), s.runs)
    case Release(reason, now) =>
      Status(if reason == CONSUMED then Validated else if reason == SUPERSEDED then Superseded else s.phase,
        Some(ReleaseReview(s.review, reason, now)), s.runs)
    case ReleaseDead(reason, now) =>
      if s.review.Some? && s.review.value.released then s
      else Status(if s.phase in {NoPhase, Reconciling} then PhaseFailed else s.phase,
        Some(DeadReview(s.review, reason)), FinalizedRuns(s.runs, now))
    case Intent(now) => s.(review := Some(IntentReview(s.review, now)))
    case Dispatched(job, now) => s.(review := Some(IntentReview(s.review, now).(dispatchedJob := job)))
    case FinalizeCancelled(reason, now) =>
      if !IsCancellation(reason) || s.review == None || !s.review.value.released || !IsCancellation(s.review.value.reason) then s
      else s.(phase := if s.phase in {NoPhase, Reconciling} then (if reason == SUPERSEDED then Superseded else PhaseFailed) else s.phase,
              runs := FinalizedRuns(s.runs, now))
    case WorkerReport(phase, runs) => s.(phase := phase, runs := runs)
  }

  // -------------------------------------------------------------------- atomic writes

  datatype Write =
    | Create(name: string, now: Time)
    | Delete(name: string)
    | Unmark(name: string)
    | Mark(name: string)                  // conditional: only while the status says released
    | Patch(name: string, change: Change)

  function Apply(wf: Workflow, l: Ledger, w: Write): Ledger {
    match w
    case Create(n, now) =>
      if n in l then l else l[n := Attempt(wf.name, wf.kind, wf.ref, Some(now), false, Status(NoPhase, None, []))]
    case Delete(n) => l - {n}
    case Unmark(n) => if n in l then l[n := l[n].(marked := false)] else l
    case Mark(n) => if HasClaim(l, n) && ClaimOf(l, n).released then l[n := l[n].(marked := true)] else l
    case Patch(n, c) => if n in l then l[n := l[n].(status := Changed(l[n].status, c))] else l
  }

  function ApplyAll(wf: Workflow, l: Ledger, ws: seq<Write>): Ledger {
    if ws == [] then l else Apply(wf, ApplyAll(wf, l, ws[..|ws| - 1]), ws[|ws| - 1])
  }

  lemma ApplyAppend(wf: Workflow, l: Ledger, ws: seq<Write>, w: Write)
    ensures ApplyAll(wf, l, ws + [w]) == Apply(wf, ApplyAll(wf, l, ws), w)
  {
    assert (ws + [w])[..|ws|] == ws;
  }

  // ----------------------------------------------------------------------- invariants

  /** Marker set implies released. */
  ghost predicate IndexAgrees(l: Ledger) {
    forall n :: n in l && l[n].marked ==> HasClaim(l, n) && ClaimOf(l, n).released
  }

  /** At most one live claim per pull-request pointer. */
  ghost predicate OnePerPointer(wf: Workflow, l: Ledger) {
    forall n, m :: Live(wf, l, n) && Live(wf, l, m) && ClaimOf(l, n).pr == ClaimOf(l, m).pr ==> n == m
  }

  /** Neither counter passes its bound, and a live claim is below both. */
  ghost predicate StrikesBounded(l: Ledger) {
    forall n :: HasClaim(l, n) ==> StrikesOk(ClaimOf(l, n))
  }

  predicate StrikesOk(r: Review) {
    && r.dead <= MAX_DEAD_DISPATCHES && r.lost <= MAX_DISPATCH_LOST
    && (!r.released ==> r.dead < MAX_DEAD_DISPATCHES && r.lost < MAX_DISPATCH_LOST)
  }

  ghost predicate LedgerOk(wf: Workflow, l: Ledger) { IndexAgrees(l) && OnePerPointer(wf, l) && StrikesBounded(l) }

  /** Every object of the workflow carries its kind. */
  ghost predicate Kinded(wf: Workflow, l: Ledger) {
    forall n :: n in l && OfWorkflow(wf, l[n]) ==> l[n].kind == wf.kind
  }

  /** The list is exactly the workflow's unreleased claims if and only if each of those carries the
      kind and none is marked; an honest marker leaves the kind alone. */
  lemma ListIsExact(wf: Workflow, l: Ledger)
    ensures (forall n :: Listed(wf, l, n) <==> Open(wf, l, n)) <==> forall n :: Open(wf, l, n) ==> l[n].kind == wf.kind && !l[n].marked
    ensures IndexAgrees(l) ==>
      ((forall n :: Listed(wf, l, n) <==> Open(wf, l, n)) <==> forall n :: Open(wf, l, n) ==> l[n].kind == wf.kind)
  {
    if forall n :: Listed(wf, l, n) <==> Open(wf, l, n) {
      forall n | Open(wf, l, n) ensures l[n].kind == wf.kind && !l[n].marked { assert Listed(wf, l, n); }
    }
    forall n | Listed(wf, l, n) ensures Open(wf, l, n) {}
  }

  /** Among the claims that carry the kind the list misses none, when the index agrees. */
  lemma ListHasTheLive(wf: Workflow, l: Ledger)
    requires IndexAgrees(l)
    ensures forall n :: Listed(wf, l, n) <==> Live(wf, l, n)
    ensures Kinded(wf, l) ==> forall n :: Live(wf, l, n) <==> Open(wf, l, n)
  {
  }

  /** No write changes an object's kind, and what is created carries it. */
  lemma KindStays(wf: Workflow, l: Ledger, w: Write)
    requires Kinded(wf, l)
    ensures Kinded(wf, Apply(wf, l, w))
  {
  }

  /** Writes that never make a claim live; releases only strike live claims. */
  predicate Quiet(l: Ledger, w: Write) {
    match w
    case Create(_, _) => true
    case Delete(_) => true
    case Unmark(_) => true
    case Mark(_) => true
    case Patch(n, c) =>
      match c
      case Arm(_, _, _, _, _, _) => false
      case Release(_, _) => HasClaim(l, n) && !ClaimOf(l, n).released
      case Intent(_) => HasClaim(l, n)
      case Dispatched(_, _) => HasClaim(l, n)
      case _ => true
  }

  lemma QuietKeeps(wf: Workflow, l: Ledger, w: Write)
    requires LedgerOk(wf, l) && Quiet(l, w)
    ensures LedgerOk(wf, Apply(wf, l, w))
    ensures forall n :: Live(wf, Apply(wf, l, w), n) ==> Live(wf, l, n) && ClaimOf(Apply(wf, l, w), n).pr == ClaimOf(l, n).pr
  {
    var l' := Apply(wf, l, w);
    forall n | Live(wf, l', n) ensures Live(wf, l, n) && ClaimOf(l', n).pr == ClaimOf(l, n).pr {}
    forall n | HasClaim(l', n) ensures StrikesOk(ClaimOf(l', n)) {
      if HasClaim(l, n) { assert StrikesOk(ClaimOf(l, n)); }
    }
  }

  /** An arm's status commit keeps the index exactly when the object is unmarked at that moment. */
  lemma ArmNeedsUnmarked(wf: Workflow, l: Ledger, n: string, c: Change)
    requires IndexAgrees(l) && n in l && c.Arm?
    ensures IndexAgrees(Apply(wf, l, Patch(n, c))) <==> !l[n].marked
  {
    var l' := Apply(wf, l, Patch(n, c));
    assert HasClaim(l', n) && !ClaimOf(l', n).released && l'[n].marked == l[n].marked;
  }

  /** Overlapping operations on one object break it: an arm unmarks, a late release re-marks the
      still released claim, the arm commits; the claim is then live but invisible. */
  lemma OverlapBreaksIndex(wf: Workflow, n: string, c: Change)
    requires c.Arm?
    ensures var r := FRESH_REVIEW.(released := true);
      var l := map[n := Attempt(wf.name, wf.kind, wf.ref, None, true, Status(Reconciling, Some(r), []))];
      var l' := ApplyAll(wf, l, [Unmark(n), Mark(n), Patch(n, c)]);
      && LedgerOk(wf, l) && !IndexAgrees(l') && Live(wf, l', n) && !Listed(wf, l', n)
  {
    var r := FRESH_REVIEW.(released := true);
    var l := map[n := Attempt(wf.name, wf.kind, wf.ref, None, true, Status(Reconciling, Some(r), []))];
    var l1, l2 := Apply(wf, l, Unmark(n)), Apply(wf, Apply(wf, l, Unmark(n)), Mark(n));
    ApplyAppend(wf, l, [], Unmark(n));
    ApplyAppend(wf, l, [Unmark(n)], Mark(n));
    ApplyAppend(wf, l, [Unmark(n), Mark(n)], Patch(n, c));
    assert [] + [Unmark(n)] == [Unmark(n)] && [Unmark(n)] + [Mark(n)] == [Unmark(n), Mark(n)];
    assert [Unmark(n), Mark(n)] + [Patch(n, c)] == [Unmark(n), Mark(n), Patch(n, c)];
    ArmNeedsUnmarked(wf, l2, n, c);
  }

  // --------------------------------------------------------------------------- arming

  datatype Refusal = RecentlyDismissed | ChurnBudgetExhausted | DeadDispatchBreaker

  /** One arm call: guard is the gate block's presence; t0 <= t1 <= t2 are its clock readings for
      the claim's age and the two budget checks, now the one stamped. */
  datatype ArmRequest = ArmRequest(
    pr: string, head: string, gateLabel: string, human: bool,
    hasGate: bool, horizon: Time, t0: Time, t1: Time, t2: Time, now: Time)

  predicate TimesOrdered(q: ArmRequest) { q.t0 <= q.t1 <= q.t2 <= q.now }

  function ClaimAge(a: Attempt, t: Time): Time { if a.createdAt == None then 0 else t - a.createdAt.value }

  /** The churn evidence is fresh; an unstamped strike falls back on the claim's own age. */
  predicate WindowOpen(r: Review, claimAge: Time, horizon: Time, t: Time) {
    (if r.lastLostAt.Some? then t - r.lastLostAt.value else claimAge) < horizon
  }

  predicate AsksSameClaim(l: Ledger, n: string, q: ArmRequest) {
    HasClaim(l, n) && SameClaim(ClaimOf(l, n), q.pr, q.head)
  }

  predicate Dismissed(r: Review, q: ArmRequest) {
    q.hasGate && r.dismissedAt.Some? && q.t0 - r.dismissedAt.value < q.horizon
  }

  /** The guards that refuse before anything is superseded. */
  function GuardRefusal(l: Ledger, n: string, q: ArmRequest): Option<Refusal> {
    if q.human || !AsksSameClaim(l, n, q) then None
    else
      var r := ClaimOf(l, n);
      if Dismissed(r, q) then Some(RecentlyDismissed)
      else if r.lost >= MAX_DISPATCH_LOST && WindowOpen(r, ClaimAge(l[n], q.t0), q.horizon, q.t1) then Some(ChurnBudgetExhausted)
      else None
  }

  predicate BudgetExpiry(l: Ledger, n: string, q: ArmRequest) {
    && !q.human && AsksSameClaim(l, n, q)
    && var r := ClaimOf(l, n);
       r.lost > 0 && !WindowOpen(r, ClaimAge(l[n], q.t0), q.horizon, q.t2)
  }

  predicate BreakerOpen(l: Ledger, n: string, q: ArmRequest) {
    !q.human && AsksSameClaim(l, n, q) && ClaimOf(l, n).dead >= MAX_DEAD_DISPATCHES
  }

  /** Releases of the other live claims on the pointer, two writes each. */
  function SupersedeWrites(others: seq<string>, now: Time): seq<Write> {
    if others == [] then []
    else SupersedeWrites(others[..|others| - 1], now) + [Patch(others[|others| - 1], Release(SUPERSEDED, now)), Mark(others[|others| - 1])]
  }

  /** others lists the live claims on the pointer apart from the arm's own object, each once. */
  ghost predicate ListsOthers(wf: Workflow, l: Ledger, n: string, pr: string, others: seq<string>) {
    && (forall i, j :: 0 <= i < j < |others| ==> others[i] != others[j])
    && (forall o :: o in others <==> Listed(wf, l, o) && o != n && ClaimOf(l, o).pr == pr)
  }

  function CreateWrites(l: Ledger, n: string, now: Time): seq<Write> { if n in l then [] else [Create(n, now)] }

  /** All the writes an arm makes when nothing fails, in order. */
  function ArmWrites(wf: Workflow, l: Ledger, q: ArmRequest, others: seq<string>): seq<Write> {
    var n := wf.nameOf(q.head);
    if GuardRefusal(l, n, q).Some? then []
    else
      var before := CreateWrites(l, n, q.t0) + SupersedeWrites(others, q.now);
      if BreakerOpen(l, n, q) then before
      else before + [Unmark(n), Patch(n, Arm(q.pr, q.head, q.gateLabel, q.human, BudgetExpiry(l, n, q), q.now))]
  }
}
