/** What a sweep observes and what its passes establish, on values (internal/gate/sweep.go). */
module SweepFacts {
  import opened Prelude
  import opened Claims
  import opened ClaimRuns
  import opened ClaimHistory
  import opened ClaimServer
  import opened SweepRuns

  const JOB_DEATH_GRACE: Time := 120
  const RE_DISPATCH_GRACE: Time := 300

  datatype Decision = Proceed | Standdown | Waiting

  datatype Code = NoCode | PrClosedCode | ConsumedCode | VerdictStanding | HorizonCode | HeadMoved | DispatchDead | StanddownCode

  datatype Evaluation = Evaluation(decision: Decision, code: Code, prose: string, head: string, newArmedSha: string, labelPresent: bool)

  /** request: a label was touched; labelled: it was applied; granular: applied or removed. */
  datatype Candidate = Candidate(pointer: string, sha: string, request: bool, labelled: bool, granular: bool)

  datatype Job = Job(attempt: string, deleting: bool, completed: bool, failed: bool, owned: bool)

  /** What one sweep observes. jobs: None when the list failed; scan: the labelled open pull
      requests; labelOn: None when the label's presence could not be read; seenFirst, seenForDeath,
      seenForStrand: the clock as the release passes look at each claim. */
  datatype World = World(
    capacity: int, horizon: Time, gateLabel: string, hasGate: bool, parses: string -> bool,
    wake: Option<Candidate>, wakeOnly: bool, scan: seq<string>,
    evaluate: Review -> Evaluation, judge: Candidate -> Evaluation,
    jobs: Option<seq<Job>>, aborted: bool, abortRecent: bool, relists: bool, cancels: bool,
    seenFirst: string -> Time, seenForDeath: string -> Time, seenForStrand: string -> Time,
    refused: Candidate -> bool, refusalMatches: Candidate -> bool, labelOn: Candidate -> Option<bool>)

  // -------------------------------------------------------------------- observations

  predicate Alive(j: Job) { !j.deleting && !j.completed && !j.failed }

  /** A failed list reads as no job at all. */
  predicate JobAlive(w: World, n: string) { w.jobs.Some? && exists j :: j in w.jobs.value && j.attempt == n && Alive(j) }

  /** Any completed job wins, whatever the order of the list. */
  predicate JobCompleted(w: World, n: string) {
    w.jobs.Some? && exists j :: j in w.jobs.value && j.attempt == n && j.completed && !j.failed
  }

  predicate WakeRequests(w: World, pointer: string) { w.wake.Some? && w.wake.value.pointer == pointer && w.wake.value.request }

  function ClassifyProse(prose: string): string {
    if Contains(prose, "consumed") then CONSUMED
    else if Contains(prose, "presumed dead") then DISPATCH_TIMEOUT
    else if Contains(prose, "horizon exceeded") then HORIZON
    else if Contains(prose, "head moved") then SUPERSEDED
    else if Contains(prose, "closed") then PR_CLOSED
    else "standdown"
  }

  function ClassifyRelease(e: Evaluation): string {
    match e.code
    case PrClosedCode => PR_CLOSED
    case ConsumedCode => CONSUMED
    case VerdictStanding => CONSUMED
    case HorizonCode => HORIZON
    case HeadMoved => SUPERSEDED
    case DispatchDead => DISPATCH_TIMEOUT
    case StanddownCode => "standdown"
    case NoCode => ClassifyProse(e.prose)
  }

  /** A verdict on a claim never spends the churn budget, and deletes a job only for a closed or
      superseded pull request. */
  lemma ClassifiedReasons(e: Evaluation)
    ensures ClassifyRelease(e) != DISPATCH_LOST
    ensures e.code != NoCode ==> (IsCancellation(ClassifyRelease(e)) <==> e.code == PrClosedCode || e.code == HeadMoved)
  {
    assert |DISPATCH_LOST| == 13 && |DISPATCH_TIMEOUT| == 16 && |HORIZON| == 7 && |SUPERSEDED| == 10;
    assert |PR_CLOSED| == 9 && |CONSUMED| == 8 && |"standdown"| == 9 && PR_CLOSED[0] == 'p';
  }

  // ---------------------------------------------------------- what the passes establish

  predicate Queued(l: Ledger, n: string) { HasClaim(l, n) && ClaimOf(l, n).dispatchedAt == None }

  /** A counted death, or a unit of the churn budget. */
  predicate CostsStrike(a: Action) { a.DoReleaseDead? || (a.DoRelease? && a.reason == DISPATCH_LOST) }

  /** The releases so far name listed claims, queued ones only if recorded, and no strike falls on
      a claim whose job is seen alive. */
  ghost predicate PassLog(w: World, start: Ledger, claims: seq<string>, log: seq<Action>, releasedInA: set<string>) {
    forall a :: a in log ==>
      && IsRelease(a) && a.name in claims && HasClaim(start, a.name)
      && (Queued(start, a.name) ==> a.name in releasedInA)
      && (CostsStrike(a) ==> !JobAlive(w, a.name))
  }

  /** A queued claim is given up: unreadable, told to stand down, or green at another head. The
      pointer of a requesting wake is left to it. */
  predicate GivenUp(w: World, r: Review) {
    !w.parses(r.pr) || (!WakeRequests(w, r.pr) &&
      (w.evaluate(r).decision == Standdown || (w.evaluate(r).decision == Proceed && w.evaluate(r).head != r.head)))
  }

  function GivenUpReason(w: World, r: Review): string {
    if !w.parses(r.pr) then UNREADABLE else if w.evaluate(r).decision == Proceed then SUPERSEDED else ClassifyRelease(w.evaluate(r))
  }

  /** A queued claim may be dispatched: green at its own head. */
  predicate GoesAhead(w: World, r: Review) {
    w.parses(r.pr) && !WakeRequests(w, r.pr) && w.evaluate(r).decision == Proceed && w.evaluate(r).head == r.head
  }

  /** A dispatched claim is stood down, unless it is only overdue and its job is seen alive. */
  predicate StoodDown(w: World, r: Review, n: string) {
    !w.parses(r.pr) || (w.evaluate(r).decision == Standdown && !(ClassifyRelease(w.evaluate(r)) == DISPATCH_TIMEOUT && JobAlive(w, n)))
  }

  /** How: counted dead exactly when overdue. */
  predicate StoodDownBy(w: World, r: Review, a: Action) {
    if !w.parses(r.pr) then a.DoRelease? && a.reason == UNREADABLE
    else if ClassifyRelease(w.evaluate(r)) == DISPATCH_TIMEOUT then a.DoReleaseDead? && a.reason == DISPATCH_TIMEOUT
    else a.DoRelease? && a.reason == ClassifyRelease(w.evaluate(r))
  }

  predicate PastGrace(r: Review, t: Time) { r.dispatchedAt.Some? && t - r.dispatchedAt.value > JOB_DEATH_GRACE }

  /** Dispatched past the grace, with no live and no completed job. */
  predicate DeathDue(w: World, start: Ledger, n: string) {
    HasClaim(start, n) && PastGrace(ClaimOf(start, n), w.seenForDeath(n)) && !JobAlive(w, n) && !JobCompleted(w, n)
  }

  /** Armed past the grace and never dispatched, no job alive, nobody answering for it this sweep. */
  predicate StrandDue(w: World, start: Ledger, keepArmed: set<string>, releasedInA: set<string>, n: string) {
    && HasClaim(start, n) && n !in releasedInA && ClaimOf(start, n).dispatchedAt == None && !JobAlive(w, n)
    && ClaimOf(start, n).pr !in keepArmed && ClaimOf(start, n).armedSince.Some?
    && w.seenForStrand(n) - ClaimOf(start, n).armedSince.value > RE_DISPATCH_GRACE
  }

  /** The log grew by exactly one such action for each of the names that are due. */
  ghost predicate GrewBy(before: seq<Action>, log: seq<Action>, due: set<string>) {
    before <= log && (forall a :: a in log[|before|..] ==> IsRelease(a) && a.name in due) && forall n :: n in due ==> exists a :: a in log[|before|..] && IsRelease(a) && a.name == n
  }

  lemma GrewByNone(log: seq<Action>)
    ensures GrewBy(log, log, {})
  {
  }

  /** One name more: named by the actions if it is due, by none if it is not. */
  lemma GrewByOne(before: seq<Action>, log: seq<Action>, due: set<string>, acts: seq<Action>, n: string, isDue: bool)
    requires GrewBy(before, log, due) && |acts| == (if isDue then 1 else 0) && forall a :: a in acts ==> IsRelease(a) && a.name == n
    ensures GrewBy(before, log + acts, if isDue then due + {n} else due)
  {
    var more := log[|before|..] + acts;
    assert (log + acts)[|before|..] == more;
    if isDue { assert acts[0] in more; }
    forall m | m in due ensures exists b :: b in more && IsRelease(b) && b.name == m {
      var b :| b in log[|before|..] && IsRelease(b) && b.name == m;
      assert b in more;
    }
  }

  predicate AnyoneOverdue(w: World, start: Ledger, claims: seq<string>)
    requires forall n :: n in claims ==> HasClaim(start, n)
  {
    exists n :: n in claims && PastGrace(ClaimOf(start, n), w.seenFirst(n))
  }

  function DeadAmong(w: World, start: Ledger, names: seq<string>): set<string> { set n | n in names && DeathDue(w, start, n) }

  function StrandedAmong(w: World, start: Ledger, keepArmed: set<string>, releasedInA: set<string>, names: seq<string>): set<string> {
    set n | n in names && StrandDue(w, start, keepArmed, releasedInA, n)
  }

  /** A strand costs a strike unless a recorded abort explains it. */
  ghost predicate StrandReason(w: World, before: seq<Action>, log: seq<Action>) {
    before <= log && forall a :: a in log[|before|..] ==> a.DoRelease? && a.reason == (if w.abortRecent then SWEEP_ABORTED else DISPATCH_LOST)
  }

  lemma DeadAmongNone(w: World, start: Ledger, claims: seq<string>)
    ensures DeadAmong(w, start, claims[..0]) == {}
  {
  }

  lemma DeadAmongNext(w: World, start: Ledger, claims: seq<string>, i: nat, before: seq<Action>, log: seq<Action>, acts: seq<Action>)
    requires i < |claims| && GrewBy(before, log, DeadAmong(w, start, claims[..i]))
    requires |acts| == (if DeathDue(w, start, claims[i]) then 1 else 0)
    requires forall a :: a in acts ==> a.DoReleaseDead? && a.name == claims[i] && a.reason == DISPATCH_LOST
    ensures GrewBy(before, log + acts, DeadAmong(w, start, claims[..i + 1]))
  {
    hide DeathDue, GrewBy;
    GrewByOne(before, log, DeadAmong(w, start, claims[..i]), acts, claims[i], DeathDue(w, start, claims[i]));
    assert claims[..i + 1] == claims[..i] + [claims[i]];
    var prev := DeadAmong(w, start, claims[..i]);
    assert DeadAmong(w, start, claims[..i + 1]) == if DeathDue(w, start, claims[i]) then prev + {claims[i]} else prev;
  }

  lemma NoStrands(w: World, start: Ledger, keepArmed: set<string>, releasedInA: set<string>, claims: seq<string>, log: seq<Action>)
    ensures StrandedAmong(w, start, keepArmed, releasedInA, claims[..0]) == {} && StrandReason(w, log, log)
  {
  }

  lemma StrandedNext(w: World, start: Ledger, keepArmed: set<string>, releasedInA: set<string>, claims: seq<string>, i: nat,
      before: seq<Action>, log: seq<Action>, acts: seq<Action>)
    requires i < |claims| && GrewBy(before, log, StrandedAmong(w, start, keepArmed, releasedInA, claims[..i])) && StrandReason(w, before, log)
    requires |acts| == (if StrandDue(w, start, keepArmed, releasedInA, claims[i]) then 1 else 0)
    requires forall a :: a in acts ==>
      a.DoRelease? && a.name == claims[i] && a.reason == (if w.abortRecent then SWEEP_ABORTED else DISPATCH_LOST)
    ensures GrewBy(before, log + acts, StrandedAmong(w, start, keepArmed, releasedInA, claims[..i + 1])) && StrandReason(w, before, log + acts)
  {
    hide StrandDue, GrewBy;
    var due := StrandDue(w, start, keepArmed, releasedInA, claims[i]);
    GrewByOne(before, log, StrandedAmong(w, start, keepArmed, releasedInA, claims[..i]), acts, claims[i], due);
    assert claims[..i + 1] == claims[..i] + [claims[i]] && (log + acts)[|before|..] == log[|before|..] + acts;
    var prev := StrandedAmong(w, start, keepArmed, releasedInA, claims[..i]);
    assert StrandedAmong(w, start, keepArmed, releasedInA, claims[..i + 1]) == if due then prev + {claims[i]} else prev;
  }

  predicate Releases(a: Action, n: string) { (IsRelease(a) && a.name == n) || (a.DoArm? && n in a.others) }

  predicate Spared(log: seq<Action>, n: string) { forall a :: a in log ==> !Releases(a, n) }

  /** Claims handed out so far: queued, shielded, not on the requesting wake's pointer, untouched. */
  ghost predicate HandedOut(w: World, start: Ledger, log: seq<Action>, out: seq<string>, keepArmed: set<string>) {
    forall n :: n in out ==>
      && Queued(start, n) && !ClaimOf(start, n).released
      && ClaimOf(start, n).pr in keepArmed && GoesAhead(w, ClaimOf(start, n))
      && Spared(log, n)
  }

  /** The names are those listed when the sweep began, each once. */
  ghost predicate Listing(wf: Workflow, start: Ledger, claims: seq<string>) {
    && (forall n :: n in claims ==> Listed(wf, start, n))
    && (forall i, j :: 0 <= i < j < |claims| ==> claims[i] != claims[j])
  }

  /** A pass may still release this listed claim: no action has named it. */
  lemma StillLive(wf: Workflow, start: Ledger, claims: seq<string>, log: seq<Action>, n: string)
    requires Listing(wf, start, claims) && n in claims && ReleasesOnly(log)
    ensures HasClaim(Exec(wf, start, log), n)
    ensures Spared(log, n) ==> Unreleased(Exec(wf, start, log), n) && ClaimOf(Exec(wf, start, log), n) == ClaimOf(start, n)
  {
    assert Listed(wf, start, n);
    UntouchedByReleases(wf, start, log, n);
  }

  // ------------------------------------------------------------------- judging claims

  const UNREADABLE := "pointer-invalid"
  const SWEEP_ABORTED := "sweep-aborted"

  lemma PlainReasons()
    ensures DISPATCH_LOST !in [UNREADABLE, SWEEP_ABORTED, SUPERSEDED]
  {
    assert |UNREADABLE| == 15 && |SWEEP_ABORTED| == 13 && |SUPERSEDED| == 10 && |DISPATCH_LOST| == 13;
    assert SWEEP_ABORTED[0] == 's' && DISPATCH_LOST[0] == 'd';
  }

  /** The outcome of judging one claim r, named n. */
  ghost predicate Judged(w: World, r: Review, n: string, handed: bool, shielded: bool, released: bool, acts: seq<Action>) {
    && (forall a :: a in acts ==> IsRelease(a) && a.name == n && (CostsStrike(a) ==> !JobAlive(w, n)) && (r.dispatchedAt == None ==> released))
    && (handed ==> shielded && acts == [] && r.dispatchedAt == None && GoesAhead(w, r))
  }

  lemma AfterJudging(wf: Workflow, w: World, start: Ledger, claims: seq<string>, i: nat, log: seq<Action>, acts: seq<Action>, r: Review,
      handed: bool, shielded: bool, released: bool, out: seq<string>, keepArmed: set<string>, releasedInA: set<string>)
    requires i < |claims| && Listing(wf, start, claims) && HasClaim(start, claims[i]) && ClaimOf(start, claims[i]) == r && !r.released
    requires PassLog(w, start, claims[..i], log, releasedInA) && HandedOut(w, start, log, out, keepArmed)
    requires (forall n :: n in out ==> n in claims[..i]) && Judged(w, r, claims[i], handed, shielded, released, acts)
    ensures PassLog(w, start, claims[..i + 1], log + acts, if released then releasedInA + {claims[i]} else releasedInA)
    ensures var out' := if handed then out + [claims[i]] else out;
      && HandedOut(w, start, log + acts, out', if shielded then keepArmed + {r.pr} else keepArmed)
      && forall n :: n in out' ==> n in claims[..i + 1]
  {
    assert claims[..i + 1] == claims[..i] + [claims[i]] && claims[i] !in claims[..i];
  }

  lemma BelowBounds(wf: Workflow, l: Ledger, n: string)
    requires LedgerOk(wf, l) && Unreleased(l, n)
    ensures ClaimOf(l, n).lost < MAX_DISPATCH_LOST && ClaimOf(l, n).dead < MAX_DEAD_DISPATCHES
  {
    assert StrikesOk(ClaimOf(l, n));
  }

  // ------------------------------------------------------------ the release passes

  lemma ListedClaims(wf: Workflow, start: Ledger, claims: seq<string>)
    requires Listing(wf, start, claims)
    ensures forall n :: n in claims ==> HasClaim(start, n) && !ClaimOf(start, n).released
  {
    forall n | n in claims ensures HasClaim(start, n) && !ClaimOf(start, n).released { assert Listed(wf, start, n); }
  }

  lemma PassesRelease(w: World, start: Ledger, claims: seq<string>, log: seq<Action>, done: set<string>)
    requires PassLog(w, start, claims, log, done)
    ensures ReleasesOnly(log)
  {
  }

  /** A dispatched claim's death is no queued claim's release. */
  lemma DeathRecorded(w: World, start: Ledger, claims: seq<string>, log: seq<Action>, a: Action, done: set<string>,
      out: seq<string>, keepArmed: set<string>)
    requires PassLog(w, start, claims, log, done) && HandedOut(w, start, log, out, keepArmed)
    requires a.DoReleaseDead? && a.name in claims && HasClaim(start, a.name) && !Queued(start, a.name) && !JobAlive(w, a.name)
    ensures PassLog(w, start, claims, log + [a], done) && HandedOut(w, start, log + [a], out, keepArmed)
  {
  }

  /** A queued claim not yet recorded as released is still live. */
  lemma NeverNamed(wf: Workflow, w: World, start: Ledger, claims: seq<string>, log: seq<Action>, n: string, done: set<string>)
    requires Listing(wf, start, claims) && n in claims && PassLog(w, start, claims, log, done) && Queued(start, n) && n !in done
    ensures Unreleased(Exec(wf, start, log), n)
  {
    assert Spared(log, n);
    StillLive(wf, start, claims, log, n);
  }

  lemma StrandRecorded(w: World, start: Ledger, claims: seq<string>, log: seq<Action>, a: Action, done: set<string>,
      out: seq<string>, keepArmed: set<string>)
    requires PassLog(w, start, claims, log, done) && HandedOut(w, start, log, out, keepArmed)
    requires a.DoRelease? && a.name in claims && Queued(start, a.name) && !JobAlive(w, a.name) && ClaimOf(start, a.name).pr !in keepArmed
    ensures PassLog(w, start, claims, log + [a], done + {a.name}) && HandedOut(w, start, log + [a], out, keepArmed)
  {
  }

  lemma StrikesSpare(w: World, start: Ledger, claims: seq<string>, log: seq<Action>, done: set<string>)
    requires PassLog(w, start, claims, log, done)
    ensures ReleasesOnly(log) && log[..|log|] == log && DrainOnly(log[|log|..])
    ensures forall a :: a in log && CostsStrike(a) ==> !JobAlive(w, a.name)
  {
  }

  // ------------------------------------------------------------------------- the drain

  function Extended(out: seq<string>, handed: Option<string>): seq<string> { if handed.Some? then out + [handed.value] else out }

  lemma ExtendedLength(out: seq<string>)
    ensures Extended(out, None) == out && forall n :: |Extended(out, Some(n))| == |out| + 1
  {
  }

  /** The label was applied as far as this candidate's one reading of it goes. */
  predicate HumanAsked(w: World, c: Candidate, resolved: bool) {
    c.labelled || (c.granular && (if resolved then w.labelOn(c) == Some(true) else w.judge(c).labelPresent))
  }

  /** Green, or waiting with the label present or a human behind it. */
  predicate ArmsNow(w: World, c: Candidate, resolved: bool) {
    var e := w.judge(c);
    e.decision == Proceed || (e.decision == Waiting && (e.labelPresent || HumanAsked(w, c, resolved)))
  }

  function ArmedHead(w: World, c: Candidate): string {
    var e := w.judge(c);
    if e.decision == Proceed then e.head else if e.newArmedSha == "" then c.sha else e.newArmedSha
  }

  /** The arm is for the head decided on, as the human's or the gate's own. */
  predicate ArmedFor(w: World, c: Candidate, resolved: bool, a: Action) {
    a.DoArm? && a.q.head == ArmedHead(w, c) && a.q.human == HumanAsked(w, c, resolved)
  }

  /** An arm of a claim on the pointer, superseding the pointer's other live claims. */
  ghost predicate ArmsOn(wf: Workflow, l: Ledger, pointer: string, a: Action) {
    a.DoArm? && a.q.pr == pointer && ListsOthers(wf, l, wf.nameOf(a.q.head), pointer, a.others)
  }

  function PointersOf(l: Ledger, names: seq<string>): set<string>
    requires forall n :: n in names ==> HasClaim(l, n)
  {
    set n | n in names :: ClaimOf(l, n).pr
  }

  function DispatchedOf(l: Ledger, names: seq<string>): set<string>
    requires forall n :: n in names ==> HasClaim(l, n)
  {
    set n | n in names && ClaimOf(l, n).dispatchedAt.Some?
  }

  lemma TallyNext(l: Ledger, names: seq<string>, i: nat)
    requires i < |names| && (forall n :: n in names ==> HasClaim(l, n)) && forall j :: 0 <= j < i ==> names[j] != names[i]
    ensures HasClaim(l, names[i]) && forall n :: n in names[..i] || n in names[..i + 1] ==> HasClaim(l, n)
    ensures PointersOf(l, names[..i + 1]) == PointersOf(l, names[..i]) + {ClaimOf(l, names[i]).pr}
    ensures |DispatchedOf(l, names[..i + 1])| == |DispatchedOf(l, names[..i])| + if ClaimOf(l, names[i]).dispatchedAt.Some? then 1 else 0
  {
    assert names[..i + 1] == names[..i] + [names[i]] && names[i] !in names[..i];
    assert names[i] in names && forall n :: n in names[..i] ==> n in names;
    TallyAdds(l, names[..i], names[i]);
  }

  lemma TallyAdds(l: Ledger, names: seq<string>, n: string)
    requires n !in names && HasClaim(l, n) && forall m :: m in names ==> HasClaim(l, m)
    ensures forall m :: m in names + [n] ==> HasClaim(l, m)
    ensures PointersOf(l, names + [n]) == PointersOf(l, names) + {ClaimOf(l, n).pr}
    ensures |DispatchedOf(l, names + [n])| == |DispatchedOf(l, names)| + if ClaimOf(l, n).dispatchedAt.Some? then 1 else 0
  {
    PointerAdds(l, names, n);
    DispatchedAdds(l, names, n);
    hide *;
  }

  lemma PointerAdds(l: Ledger, names: seq<string>, n: string)
    requires HasClaim(l, n) && forall m :: m in names ==> HasClaim(l, m)
    ensures (forall m :: m in names + [n] ==> HasClaim(l, m)) && PointersOf(l, names + [n]) == PointersOf(l, names) + {ClaimOf(l, n).pr}
  {
  }

  lemma DispatchedAdds(l: Ledger, names: seq<string>, n: string)
    requires n !in names && HasClaim(l, n) && forall m :: m in names ==> HasClaim(l, m)
    ensures |DispatchedOf(l, names + [n])| == |DispatchedOf(l, names)| + if ClaimOf(l, n).dispatchedAt.Some? then 1 else 0
  {
    assert DispatchedOf(l, names + [n]) == DispatchedOf(l, names) + if ClaimOf(l, n).dispatchedAt.Some? then {n} else {};
  }

  lemma DispatchedAreSlots(wf: Workflow, l: Ledger, names: seq<string>)
    requires (forall n :: n in names ==> HasClaim(l, n)) && forall n :: n in names <==> Live(wf, l, n)
    ensures DispatchedOf(l, names) == SlotsTaken(wf, l)
  {
  }

  /** Distinct pointers; only the first candidate can be a request. */
  predicate OneEach(cands: seq<Candidate>) {
    && (forall i, j :: 0 <= i < j < |cands| ==> cands[i].pointer != cands[j].pointer)
    && (forall i :: 0 < i < |cands| ==> !cands[i].request)
  }

  lemma OnlyFirstRequests(cands: seq<Candidate>, k: nat)
    requires OneEach(cands) && k < |cands| && cands[k].request
    ensures k == 0
  {
  }

  /** A standing verdict's memo silences the candidate, unless a human may have asked. */
  predicate MemoSkips(w: World, c: Candidate) {
    w.refused(c) && w.refusalMatches(c) && !c.labelled && !(c.granular && w.labelOn(c) != Some(false))
  }

  /** The label was applied, not merely touched. */
  predicate Override(w: World, c: Candidate) { c.labelled || (c.granular && w.labelOn(c) == Some(true)) }

  predicate OutOfReach(pr: string, cands: seq<Candidate>, k: nat, liveOn: set<string>) {
    forall j :: k <= j < |cands| && cands[j].pointer == pr ==> pr in liveOn && !cands[j].request
  }

  /** Claims handed out are live, and no later candidate can reach them: it is claimed and asks
      for nothing. */
  ghost predicate Shielded(l: Ledger, out: seq<string>, cands: seq<Candidate>, k: nat, liveOn: set<string>) {
    forall n :: n in out ==> Unreleased(l, n) && OutOfReach(ClaimOf(l, n).pr, cands, k, liveOn)
  }

  lemma ShieldedLater(l: Ledger, out: seq<string>, cands: seq<Candidate>, k: nat, liveOn: set<string>)
    requires Shielded(l, out, cands, k, liveOn)
    ensures Shielded(l, out, cands, k + 1, liveOn)
  {
    forall n | n in out ensures Unreleased(l, n) && OutOfReach(ClaimOf(l, n).pr, cands, k + 1, liveOn) {
      assert OutOfReach(ClaimOf(l, n).pr, cands, k, liveOn);
    }
  }

  lemma HandedIsShielded(l: Ledger, out: seq<string>, cands: seq<Candidate>, k: nat, liveOn: set<string>, n: string)
    requires k < |cands| && OneEach(cands) && Shielded(l, out, cands, k + 1, liveOn)
    requires Unreleased(l, n) && ClaimOf(l, n).pr == cands[k].pointer
    ensures Shielded(l, out + [n], cands, k + 1, liveOn)
  {
  }

  lemma HandedAreLive(l: Ledger, out: seq<string>, cands: seq<Candidate>, liveOn: set<string>)
    requires exists k :: 0 <= k <= |cands| && Shielded(l, out, cands, k, liveOn)
    ensures forall n :: n in out ==> Unreleased(l, n)
  {
  }

  lemma LiveIsUnreleased(wf: Workflow, l: Ledger, n: string)
    requires Live(wf, l, n)
    ensures Unreleased(l, n) && HasClaim(l, n)
  {
  }

  /** Slots taken by live dispatches, slots given in this drain, and free slots. */
  ghost predicate SlotsAdd(wf: Workflow, l: Ledger, given: nat, free: int, capacity: int) {
    |SlotsTaken(wf, l)| + given + free <= capacity && (given > 0 ==> free >= 0)
  }

  lemma {:induction false} FewerSlots(small: set<string>, large: set<string>)
    requires small <= large
    ensures |small| <= |large|
  {
    assert large == small + (large - small);
  }

  /** Standing a requested pointer's claim down reaches nothing handed out, and frees its slot. */
  lemma SupersedeKeeps(wf: Workflow, l: Ledger, a: Action, out: seq<string>, cands: seq<Candidate>, k: nat, liveOn: set<string>, given: nat, free: int, capacity: int)
    requires a.DoRelease? && a.reason == SUPERSEDED && k < |cands| && OneEach(cands) && cands[k].request
    requires HasClaim(l, a.name) && ClaimOf(l, a.name).pr == cands[k].pointer
    requires Shielded(l, out, cands, k, liveOn) && SlotsAdd(wf, l, given, free, capacity)
    ensures a.name !in out
    ensures Shielded(Next(wf, l, a), out, cands, k, liveOn) && Shielded(Next(wf, l, a), out, cands, k, liveOn - {cands[k].pointer})
    ensures SlotsAdd(wf, Next(wf, l, a), given, free, capacity)
    ensures a.cut >= 1 && a.name in SlotsTaken(wf, l) ==> SlotsAdd(wf, Next(wf, l, a), given, free + 1, capacity)
  {
    hide SlotsTaken, Next;
    forall n | n in out ensures n != a.name && Unreleased(Next(wf, l, a), n) && ClaimOf(Next(wf, l, a), n) == ClaimOf(l, n) {
      assert OutOfReach(ClaimOf(l, n).pr, cands, k, liveOn);
      ReleaseSpares(wf, l, a, n);
    }
    DrainTakesNoSlot(wf, l, a);
    FewerSlots(SlotsTaken(wf, Next(wf, l, a)), SlotsTaken(wf, l));
    if a.cut >= 1 && a.name in SlotsTaken(wf, l) {
      FewerSlots(SlotsTaken(wf, Next(wf, l, a)), SlotsTaken(wf, l) - {a.name});
    }
  }

  /** Arming an unclaimed (or just superseded) pointer reaches nothing handed out, and takes at
      most the slot it is given. */
  lemma FillKeeps(wf: Workflow, l: Ledger, a: Action, out: seq<string>, cands: seq<Candidate>, k: nat, liveOn: set<string>,
      given: nat, free: int, capacity: int)
    requires k < |cands| && OneEach(cands) && ArmsOn(wf, l, cands[k].pointer, a) && (cands[k].pointer in liveOn ==> cands[k].request)
    requires Shielded(l, out, cands, k, liveOn) && SlotsAdd(wf, l, given, free, capacity) && free > 0
    ensures forall n :: n in out ==> !Releases(a, n)
    ensures Shielded(Next(wf, l, a), out, cands, k + 1, liveOn)
    ensures SlotsAdd(wf, Next(wf, l, a), given, free, capacity) && SlotsAdd(wf, Next(wf, l, a), given + 1, free - 1, capacity)
  {
    hide SlotsTaken, Next;
    forall n | n in out
      ensures n !in a.others && Unreleased(Next(wf, l, a), n) && OutOfReach(ClaimOf(Next(wf, l, a), n).pr, cands, k + 1, liveOn)
    {
      var pr := ClaimOf(l, n).pr;
      assert OutOfReach(pr, cands, k, liveOn);
      assert pr != cands[k].pointer;
      ArmSpares(wf, l, a, n);
    }
    DrainTakesNoSlot(wf, l, a);
    FewerSlots(SlotsTaken(wf, Next(wf, l, a)), SlotsTaken(wf, l));
  }

  /** The log after mark drains only, releases none of the claims handed out before, and stood
      within capacity at each of its dispatches. */
  ghost predicate DrainLog(wf: Workflow, start: Ledger, log: seq<Action>, mark: nat, outA: seq<string>, flights: seq<nat>, capacity: int) {
    && mark <= |log| && DrainOnly(log[mark..]) && (forall n :: n in outA ==> Spared(log, n))
    && (forall i :: 0 <= i < |flights| ==> flights[i] <= |log| && |SlotsTaken(wf, Exec(wf, start, log[..flights[i]]))| + i + 1 <= capacity)
  }

  lemma DrainLogExtends(wf: Workflow, start: Ledger, log: seq<Action>, acts: seq<Action>, mark: nat, outA: seq<string>, flights: seq<nat>, capacity: int)
    requires DrainLog(wf, start, log, mark, outA, flights, capacity)
    requires forall a :: a in acts ==> IsDrain(a) && forall n :: n in outA ==> !Releases(a, n)
    ensures DrainLog(wf, start, log + acts, mark, outA, flights, capacity)
  {
    hide Exec, SlotsTaken;
    assert (log + acts)[mark..] == log[mark..] + acts;
    forall i | 0 <= i < |flights| ensures (log + acts)[..flights[i]] == log[..flights[i]] {}
  }

  lemma DispatchLogged(wf: Workflow, start: Ledger, log: seq<Action>, mark: nat, outA: seq<string>, flights: seq<nat>, capacity: int)
    requires DrainLog(wf, start, log, mark, outA, flights, capacity)
    requires |SlotsTaken(wf, Exec(wf, start, log))| + |flights| + 1 <= capacity
    ensures DrainLog(wf, start, log, mark, outA, flights + [|log|], capacity)
  {
    assert log[..|log|] == log;
  }

  lemma ExecOne(wf: Workflow, start: Ledger, log: seq<Action>, a: Action)
    ensures Exec(wf, start, log + [a]) == Next(wf, Exec(wf, start, log), a)
  {
    assert (log + [a])[..|log|] == log;
  }

  lemma AfterSupersede(wf: Workflow, start: Ledger, capacity: int, l: Ledger, l': Ledger, log: seq<Action>, acts: seq<Action>, n: string,
      outA: seq<string>, outC: seq<string>, flights: seq<nat>, cands: seq<Candidate>, k: nat, liveOn: set<string>, free: int, mark: nat, freed: bool)
    requires k < |cands| && OneEach(cands) && cands[k].request && Live(wf, l, n) && ClaimOf(l, n).pr == cands[k].pointer
    requires Shielded(l, outA + outC, cands, k, liveOn) && SlotsAdd(wf, l, |outC|, free, capacity)
    requires DrainLog(wf, start, log, mark, outA, flights, capacity)
    requires l == Exec(wf, start, log) && l' == Exec(wf, start, log + acts) && |acts| <= 1
    requires forall a :: a in acts ==> a.DoRelease? && a.reason == SUPERSEDED && a.name == n
    requires freed ==> acts != [] && acts[0].cut >= 1 && ClaimOf(l, n).dispatchedAt.Some?
    ensures Shielded(l', outA + outC, cands, k, liveOn)
    ensures acts != [] ==> Shielded(l', outA + outC, cands, k, liveOn - {cands[k].pointer})
    ensures SlotsAdd(wf, l', |outC|, if freed then free + 1 else free, capacity)
    ensures DrainLog(wf, start, log + acts, mark, outA, flights, capacity)
  {
    if acts == [] {
      assert log + acts == log;
    } else {
      var a := acts[0];
      assert acts == [a] && (freed ==> n in SlotsTaken(wf, l));
      hide Exec, Next, Shielded, SlotsAdd, DrainLog, SlotsTaken, OneEach;
      ExecOne(wf, start, log, a);
      SupersedeKeeps(wf, l, a, outA + outC, cands, k, liveOn, |outC|, free, capacity);
      assert forall m :: m in outA ==> m in outA + outC;
      DrainLogExtends(wf, start, log, acts, mark, outA, flights, capacity);
    }
  }

  lemma AfterFill(wf: Workflow, start: Ledger, capacity: int, l: Ledger, l': Ledger, log: seq<Action>, acts: seq<Action>, handed: Option<string>,
      outA: seq<string>, outC: seq<string>, flights: seq<nat>, cands: seq<Candidate>, k: nat, liveOn: set<string>, free: int, mark: nat)
    requires k < |cands| && OneEach(cands) && (cands[k].pointer in liveOn ==> cands[k].request) && free > 0
    requires Shielded(l, outA + outC, cands, k, liveOn) && SlotsAdd(wf, l, |outC|, free, capacity) && |flights| == |outC|
    requires DrainLog(wf, start, log, mark, outA, flights, capacity)
    requires l == Exec(wf, start, log) && l' == Exec(wf, start, log + acts) && |acts| <= 1
    requires forall a :: a in acts ==> ArmsOn(wf, l, cands[k].pointer, a)
    requires handed.Some? ==> acts != [] && Unreleased(l', handed.value) && ClaimOf(l', handed.value).pr == cands[k].pointer
    ensures var outC' := Extended(outC, handed);
      && Shielded(l', outA + outC', cands, k + 1, liveOn)
      && SlotsAdd(wf, l', |outC'|, if handed.Some? then free - 1 else free, capacity)
      && DrainLog(wf, start, log + acts, mark, outA, if handed.Some? then flights + [|log + acts|] else flights, capacity)
  {
    if acts == [] {
      assert log + acts == log;
      ShieldedLater(l, outA + outC, cands, k, liveOn);
    } else {
      var a := acts[0];
      assert acts == [a];
      hide Exec, Next, Shielded, DrainLog, SlotsTaken, OneEach, OutOfReach, Unreleased;
      ExecOne(wf, start, log, a);
      FillKeeps(wf, l, a, outA + outC, cands, k, liveOn, |outC|, free, capacity);
      assert forall m :: m in outA ==> m in outA + outC;
      DrainLogExtends(wf, start, log, acts, mark, outA, flights, capacity);
      if handed.Some? {
        HandedIsShielded(l', outA + outC, cands, k, liveOn, handed.value);
        assert outA + (outC + [handed.value]) == (outA + outC) + [handed.value];
        DispatchLogged(wf, start, log + acts, mark, outA, flights, capacity);
      }
    }
  }

  lemma ArmedIsLive(wf: Workflow, l: Ledger, q: ArmRequest, others: seq<string>, cut: nat, swept: bool)
    requires LedgerOk(wf, l) && Enabled(wf, l, DoArm(q, others, cut, swept)) && ArmResultOf(wf, l, q, others, cut) == Armed
    ensures var n, l' := wf.nameOf(q.head), Next(wf, l, DoArm(q, others, cut, swept));
      Unreleased(l', n) && ClaimOf(l', n).pr == q.pr
  {
    var n, quiet := wf.nameOf(q.head), ArmPrelude(wf, l, q, others) + [Unmark(wf.nameOf(q.head))];
    ArmedWrites(wf, l, q, others, cut, swept);
    UnmarkedAfterPrelude(wf, l, q, others);
    hide LedgerOk, ApplyAll, Enabled, ListsOthers, ArmResultOf, Next, ArmPrelude, QuietAlong, AllReleased;
    ApplyAppend(wf, l, quiet, ArmCommit(wf, l, q));
    CommitRevives(wf, l, ApplyAll(wf, l, quiet), q);
  }

  /** An arm that went through made all its writes, the commit last. */
  lemma ArmedWrites(wf: Workflow, l: Ledger, q: ArmRequest, others: seq<string>, cut: nat, swept: bool)
    requires ArmResultOf(wf, l, q, others, cut) == Armed
    ensures Next(wf, l, DoArm(q, others, cut, swept))
      == ApplyAll(wf, l, ArmPrelude(wf, l, q, others) + [Unmark(wf.nameOf(q.head))] + [ArmCommit(wf, l, q)])
  {
    hide ApplyAll;
    assert ArmWrites(wf, l, q, others) == ArmPrelude(wf, l, q, others) + [Unmark(wf.nameOf(q.head))] + [ArmCommit(wf, l, q)];
  }

  lemma CommitRevives(wf: Workflow, l: Ledger, l1: Ledger, q: ArmRequest)
    requires wf.nameOf(q.head) in l1
    ensures var n, l' := wf.nameOf(q.head), Apply(wf, l1, ArmCommit(wf, l, q));
      Unreleased(l', n) && ClaimOf(l', n).pr == q.pr
  {
  }

  lemma ArmTaken(wf: Workflow, start: Ledger, log: seq<Action>, a: Action)
    requires LedgerOk(wf, start) && IsRun(wf, start, log) && a.DoArm? && TimesOrdered(a.q)
    requires ListsOthers(wf, Exec(wf, start, log), wf.nameOf(a.q.head), a.q.pr, a.others)
    ensures IsRun(wf, start, log + [a]) && Exec(wf, start, log + [a]) == Next(wf, Exec(wf, start, log), a)
    ensures ArmResultOf(wf, Exec(wf, start, log), a.q, a.others, a.cut) == Armed ==>
      var n, l' := wf.nameOf(a.q.head), Next(wf, Exec(wf, start, log), a); Unreleased(l', n) && ClaimOf(l', n).pr == a.q.pr
  {
    RunExtends(wf, start, log, a);
    LedgerStaysOk(wf, start, log);
    hide IsRun, Exec, LedgerOk, Next, ListsOthers;
    if ArmResultOf(wf, Exec(wf, start, log), a.q, a.others, a.cut) == Armed {
      ArmedIsLive(wf, Exec(wf, start, log), a.q, a.others, a.cut, a.swept);
    }
  }

  // ------------------------------------------------------------------- the whole sweep

  predicate Cancelled(l: Ledger, n: string) { HasClaim(l, n) && ClaimOf(l, n).released && IsCancellation(ClaimOf(l, n).reason) }

  lemma Finalized(wf: Workflow, start: Ledger, log: seq<Action>, a: Action, mark: nat, outA: seq<string>, flights: seq<nat>, capacity: int)
    requires IsRun(wf, start, log) && a.DoFinalize? && DrainLog(wf, start, log, mark, outA, flights, capacity)
    ensures IsRun(wf, start, log + [a]) && DrainLog(wf, start, log + [a], mark, outA, flights, capacity)
    ensures Exec(wf, start, log + [a]) == Next(wf, Exec(wf, start, log), a) == Apply(wf, Exec(wf, start, log), Patch(a.name, FinalizeCancelled(a.reason, a.now)))
  {
    RunExtends(wf, start, log, a);
    DrainLogExtends(wf, start, log, [a], mark, outA, flights, capacity);
    SingleWrite(wf, Exec(wf, start, log), Patch(a.name, FinalizeCancelled(a.reason, a.now)));
  }

  lemma {:induction false} RunPrefix(wf: Workflow, start: Ledger, log: seq<Action>, k: nat)
    requires IsRun(wf, start, log) && k <= |log|
    ensures IsRun(wf, start, log[..k])
  {
    if k < |log| {
      RunPrefix(wf, start, log[..|log| - 1], k);
      assert log[..|log| - 1][..k] == log[..k];
    } else {
      assert log[..k] == log;
    }
  }

  lemma SweepIsSafe(wf: Workflow, start: Ledger, log: seq<Action>, passes: nat)
    requires LedgerOk(wf, start) && IsRun(wf, start, log) && passes <= |log|
    requires ReleasesOnly(log[..passes]) && DrainOnly(log[passes..])
    ensures LedgerOk(wf, Exec(wf, start, log))
    ensures forall n :: TotalStrikes(wf, start, log, n) <= 1
  {
    hide *;
    LedgerStaysOk(wf, start, log);
    RunPrefix(wf, start, log, passes);
    assert log == log[..passes] + log[passes..];
    forall n ensures TotalStrikes(wf, start, log, n) <= 1 { SweepStrikesOnce(wf, start, log[..passes], log[passes..], n); }
  }

  lemma DrainAdds(w: World, wf: Workflow, start: Ledger, log0: seq<Action>, log: seq<Action>, outA: seq<string>, flights: seq<nat>, capacity: int)
    requires log0 <= log && DrainLog(wf, start, log, |log0|, outA, flights, capacity)
    requires ReleasesOnly(log0) && forall a :: a in log0 && CostsStrike(a) ==> !JobAlive(w, a.name)
    ensures ReleasesOnly(log[..|log0|]) && DrainOnly(log[|log0|..]) && forall n :: n in outA ==> Spared(log, n)
    ensures forall a :: a in log && CostsStrike(a) ==> !JobAlive(w, a.name)
    ensures forall i :: 0 <= i < |flights| ==> flights[i] <= |log| && |SlotsTaken(wf, Exec(wf, start, log[..flights[i]]))| + i + 1 <= capacity
  {
    hide Exec, SlotsTaken, JobAlive;
    PlainReasons();
    assert log[..|log0|] == log0 && log == log0 + log[|log0|..];
  }

  /** Where every object carries the kind the gate counts every dispatched claim there is. */
  lemma CapacityOfAll(wf: Workflow, start: Ledger, log: seq<Action>, flights: seq<nat>, capacity: int)
    requires forall i :: 0 <= i < |flights| ==> flights[i] <= |log| && |SlotsTaken(wf, Exec(wf, start, log[..flights[i]]))| + i + 1 <= capacity
    ensures Kinded(wf, start) ==>
      forall i :: 0 <= i < |flights| ==> |DispatchedClaims(wf, Exec(wf, start, log[..flights[i]]))| + i + 1 <= capacity
  {
    hide Exec, SlotsTaken, DispatchedClaims, Kinded;
    if Kinded(wf, start) {
      forall i | 0 <= i < |flights| ensures |DispatchedClaims(wf, Exec(wf, start, log[..flights[i]]))| + i + 1 <= capacity {
        var l := Exec(wf, start, log[..flights[i]]);
        KindedRun(wf, start, log[..flights[i]]);
        KindedSlots(wf, l);
      }
    }
  }

  lemma KindedSlots(wf: Workflow, l: Ledger)
    requires Kinded(wf, l)
    ensures SlotsTaken(wf, l) == DispatchedClaims(wf, l)
  {
    SlotsCountAll(wf, l);
  }
}
