/** The gate sweep (internal/gate/sweep.go): in-flight claims are judged, dead and stranded ones
    released, and the labelled set fills the free slots; every API call may fail. */
module Sweep {
  import opened Prelude
  import opened Claims
  import opened ClaimRuns
  import opened ClaimHistory
  import opened ClaimServer
  import opened SweepRuns
  import opened SweepFacts

  /** One sweep of the workflow's gate. start: the attempts as first listed; log: every operation on
      the ledger, cut short or not. */
  class Sweeper {
    const server: ApiServer
    const w: World
    const start: Ledger
    ghost var log: seq<Action>

    ghost predicate Valid()
      reads this, server
    {
      && LedgerOk(server.wf, start) && IsRun(server.wf, start, log)
      && server.ledger == Exec(server.wf, start, log)
    }

    constructor (server: ApiServer, w: World)
      requires LedgerOk(server.wf, server.ledger)
      ensures this.server == server && this.w == w && start == server.ledger && log == [] && Valid()
    {
      this.server, this.w, start, log := server, w, server.ledger, [];
    }

    method TryRelease(n: string, reason: string) returns (ok: bool, ghost a: Action)
      requires Valid() && Unreleased(server.ledger, n)
      modifies server`ledger, server`budget, `log
      ensures Valid() && log == old(log) + [a]
      ensures a.DoRelease? && a.name == n && a.reason == reason && (ok <==> a.cut >= 2)
    {
      var now: Time := *;
      server.budget := *;
      a := DoRelease(n, reason, now, server.budget);
      RunExtends(server.wf, start, log, a);
      hide Next, Exec, IsRun, Enabled;
      ok := server.ReleaseClaim(n, reason, now);
      log := log + [a];
    }

    method TryReleaseDead(n: string, reason: string) returns (ghost a: Action)
      requires Valid() && HasClaim(server.ledger, n)
      modifies server`ledger, server`budget, `log
      ensures Valid() && log == old(log) + [a]
      ensures a.DoReleaseDead? && a.name == n && a.reason == reason
    {
      var now: Time := *;
      server.budget := *;
      a := DoReleaseDead(n, reason, now, server.budget);
      RunExtends(server.wf, start, log, a);
      hide Next, Exec, IsRun, Enabled;
      var _ := server.ReleaseClaimDead(n, reason, now);
      log := log + [a];
    }

    method TryArm(q0: ArmRequest) returns (result: ArmResult, ghost a: Action)
      requires Valid()
      modifies server`ledger, server`budget, server`sweepable, `log
      ensures Valid() && log == old(log) + [a]
      ensures a.DoArm? && a.q == q0.(t0 := a.q.t0, t1 := a.q.t1, t2 := a.q.t2, now := a.q.now)
      ensures ListsOthers(server.wf, old(server.ledger), server.wf.nameOf(q0.head), q0.pr, a.others)
      ensures result == Armed ==> Unreleased(server.ledger, server.wf.nameOf(q0.head)) && ClaimOf(server.ledger, server.wf.nameOf(q0.head)).pr == q0.pr
    {
      var t0: Time, t1: Time, t2: Time, now: Time :| t0 <= t1 <= t2 <= now;
      var q := q0.(t0 := t0, t1 := t1, t2 := t2, now := now);
      server.budget := *;
      server.sweepable := *;
      ghost var b, s := server.budget, server.sweepable;
      ghost var others;
      hide Next, Exec, IsRun, ListsOthers, ArmResultOf, LedgerOk, Unreleased;
      result, others := server.ArmClaim(q);
      a := DoArm(q, others, b, s);
      ArmTaken(server.wf, start, log, a);
      log := log + [a];
    }

    // -------------------------------------------------------------- section A: in-flight claims

    /** A queued claim: handed out exactly when it may go ahead, released exactly when given up, and
        shielded otherwise. The churn guard on the way never fires: a live claim is below its bound. */
    method JudgeQueued(n: string) returns (handed: bool, shielded: bool, released: bool, ghost acts: seq<Action>)
      requires Valid() && Unreleased(server.ledger, n) && Unreleased(start, n)
      modifies server`ledger, server`budget, `log
      ensures Valid() && log == old(log) + acts
      ensures |acts| == (if GivenUp(w, ClaimOf(start, n)) then 1 else 0)
      ensures forall a :: a in acts ==>
        a.DoRelease? && a.name == n && a.reason == GivenUpReason(w, ClaimOf(start, n)) != DISPATCH_LOST && released
      ensures handed <==> GoesAhead(w, ClaimOf(start, n))
      ensures released <==> GivenUp(w, ClaimOf(start, n))
      ensures shielded <==> !released
    {
      var r := ClaimOf(start, n);
      handed, shielded, released, acts := false, false, false, [];
      ghost var a;
      if !w.parses(r.pr) {
        PlainReasons();
        var ok;
        ok, a := TryRelease(n, UNREADABLE);
        return false, false, true, [a];
      }
      if WakeRequests(w, r.pr) { return false, true, false, []; }
      var e := w.evaluate(r);
      match e.decision {
        case Proceed =>
          if e.head != r.head {
            PlainReasons();
            var ok;
            ok, a := TryRelease(n, SUPERSEDED);
            return false, false, true, [a];
          }
          var t0: Time, t1: Time :| t0 <= t1;
          var age := ClaimAge(start[n], t0);
          var refused := r.lost >= MAX_DISPATCH_LOST && WindowOpen(r, age, w.horizon, t1);
          BelowBounds(server.wf, start, n);
          return !refused, true, refused, [];
        case Standdown =>
          ClassifiedReasons(e);
          var ok;
          ok, a := TryRelease(n, ClassifyRelease(e));
          return false, false, true, [a];
        case Waiting =>
          return false, true, false, [];
      }
    }

    /** A dispatched claim: released on a stand-down, held while its overdue job is seen alive. */
    method JudgeDispatched(n: string) returns (ghost acts: seq<Action>)
      requires Valid() && Unreleased(server.ledger, n) && HasClaim(start, n)
      modifies server`ledger, server`budget, `log
      ensures Valid() && log == old(log) + acts
      ensures |acts| == (if StoodDown(w, ClaimOf(start, n), n) then 1 else 0)
      ensures forall a :: a in acts ==>
        IsRelease(a) && a.name == n && StoodDownBy(w, ClaimOf(start, n), a) && (CostsStrike(a) ==> !JobAlive(w, n))
    {
      var r := ClaimOf(start, n);
      ghost var a;
      if !w.parses(r.pr) {
        PlainReasons();
        var ok;
        ok, a := TryRelease(n, UNREADABLE);
        return [a];
      }
      var e := w.evaluate(r);
      if e.decision != Standdown { return []; }
      ClassifiedReasons(e);
      var reason := ClassifyRelease(e);
      if reason == DISPATCH_TIMEOUT && JobAlive(w, n) { return []; }
      if reason == DISPATCH_TIMEOUT {
        a := TryReleaseDead(n, reason);
      } else {
        var ok;
        ok, a := TryRelease(n, reason);
      }
      return [a];
    }

    method JudgeClaim(n: string) returns (handed: bool, shielded: bool, released: bool, ghost acts: seq<Action>)
      requires Valid() && Unreleased(server.ledger, n) && Unreleased(start, n)
      modifies server`ledger, server`budget, `log
      ensures Valid() && log == old(log) + acts
      ensures Judged(w, ClaimOf(start, n), n, handed, shielded, released, acts)
    {
      var r := ClaimOf(start, n);
      if r.dispatchedAt == None {
        handed, shielded, released, acts := JudgeQueued(n);
      } else {
        acts := JudgeDispatched(n);
        handed, shielded, released := false, false, false;
      }
    }

    /** Section A, over the claims listed when the sweep began. */
    method JudgeClaims(claims: seq<string>) returns (out: seq<string>, keepArmed: set<string>, releasedInA: set<string>)
      requires Valid() && log == [] && Listing(server.wf, start, claims)
      modifies server`ledger, server`budget, `log
      ensures Valid() && PassLog(w, start, claims, log, releasedInA) && HandedOut(w, start, log, out, keepArmed)
      ensures forall n :: n in out ==> n in claims
    {
      out, keepArmed, releasedInA := [], {}, {};
      for i := 0 to |claims|
        invariant Valid() && PassLog(w, start, claims[..i], log, releasedInA) && HandedOut(w, start, log, out, keepArmed)
        invariant forall n :: n in out ==> n in claims[..i]
      {
        hide *;
        ghost var log0 := log;
        BeforeJudging(this, claims, i, releasedInA);
        var r := ClaimOf(start, claims[i]);
        var handed, shielded, released;
        ghost var acts;
        handed, shielded, released, acts := JudgeClaim(claims[i]);
        AfterJudging(server.wf, w, start, claims, i, log0, acts, r, handed, shielded, released, out, keepArmed, releasedInA);
        if handed { out := out + [claims[i]]; }
        if shielded { keepArmed := keepArmed + {r.pr}; }
        if released { releasedInA := releasedInA + {claims[i]}; }
      }
      assert claims[..|claims|] == claims;
    }

    // ------------------------------------------------- dead jobs, and claims never dispatched

    /** Dispatched claims past the grace, with no live and no completed job, are counted dead. */
    method ReleaseDeadJobs(claims: seq<string>, releasedInA: set<string>, ghost out: seq<string>, ghost keepArmed: set<string>)
      requires Valid() && Listing(server.wf, start, claims)
      requires PassLog(w, start, claims, log, releasedInA) && HandedOut(w, start, log, out, keepArmed)
      modifies server`ledger, server`budget, `log
      ensures Valid() && PassLog(w, start, claims, log, releasedInA) && HandedOut(w, start, log, out, keepArmed)
      ensures if w.jobs.Some? && AnyoneOverdue(w, start, claims) then GrewBy(old(log), log, DeadAmong(w, start, claims)) else log == old(log)
    {
      ListedClaims(server.wf, start, claims);
      var fetched := AnyPastGrace(claims);
      if !fetched || w.jobs == None { return; }
      GrewByNone(log);
      DeadAmongNone(w, start, claims);
      for i := 0 to |claims|
        invariant Valid() && PassLog(w, start, claims, log, releasedInA) && HandedOut(w, start, log, out, keepArmed)
        invariant GrewBy(old(log), log, DeadAmong(w, start, claims[..i]))
      {
        hide *;
        ghost var log0 := log;
        ghost var acts := ReleaseIfDead(claims, claims[i], releasedInA, out, keepArmed);
        DeadAmongNext(w, start, claims, i, old(log), log0, acts);
      }
      assert claims[..|claims|] == claims;
    }

    method ReleaseIfDead(ghost claims: seq<string>, n: string, ghost releasedInA: set<string>, ghost out: seq<string>, ghost keepArmed: set<string>)
      returns (ghost acts: seq<Action>)
      requires Valid() && Listing(server.wf, start, claims) && n in claims
      requires PassLog(w, start, claims, log, releasedInA) && HandedOut(w, start, log, out, keepArmed)
      modifies server`ledger, server`budget, `log
      ensures Valid() && PassLog(w, start, claims, log, releasedInA) && HandedOut(w, start, log, out, keepArmed)
      ensures log == old(log) + acts && |acts| == (if DeathDue(w, start, n) then 1 else 0)
      ensures forall a :: a in acts ==> a.DoReleaseDead? && a.name == n && a.reason == DISPATCH_LOST
    {
      acts := [];
      ListedClaims(server.wf, start, claims);
      hide Exec, IsRun, LedgerOk, JobAlive, JobCompleted, PassLog, HandedOut, Listing;
      if PastGrace(ClaimOf(start, n), w.seenForDeath(n)) && !JobAlive(w, n) && !JobCompleted(w, n) {
        assert ReleasesOnly(log) by { PassesRelease(w, start, claims, log, releasedInA); }
        StillLive(server.wf, start, claims, log, n);
        ghost var a := TryReleaseDead(n, DISPATCH_LOST);
        DeathRecorded(w, start, claims, old(log), a, releasedInA, out, keepArmed);
        acts := [a];
      }
    }

    method AnyPastGrace(claims: seq<string>) returns (found: bool)
      requires forall n :: n in claims ==> HasClaim(start, n)
      ensures found <==> AnyoneOverdue(w, start, claims)
    {
      for i := 0 to |claims|
        invariant forall n :: n in claims[..i] ==> !PastGrace(ClaimOf(start, n), w.seenFirst(n))
      {
        assert claims[..i + 1] == claims[..i] + [claims[i]];
        if PastGrace(ClaimOf(start, claims[i]), w.seenFirst(claims[i])) { return true; }
      }
      assert claims[..|claims|] == claims;
      return false;
    }

    /** Armed but never dispatched past the grace: released, against the churn budget unless a
        recorded sweep abort explains it. An aborted sweep or an unread job list releases nothing. */
    method ReleaseNeverDispatched(claims: seq<string>, keepArmed: set<string>, releasedInA: set<string>, ghost out: seq<string>)
      requires Valid() && Listing(server.wf, start, claims)
      requires PassLog(w, start, claims, log, releasedInA) && HandedOut(w, start, log, out, keepArmed)
      modifies server`ledger, server`budget, `log
      ensures Valid() && HandedOut(w, start, log, out, keepArmed)
      ensures exists done :: PassLog(w, start, claims, log, done)
      ensures if w.aborted || w.jobs.None? then log == old(log)
        else GrewBy(old(log), log, StrandedAmong(w, start, keepArmed, releasedInA, claims))
      ensures StrandReason(w, old(log), log)
    {
      GrewByNone(log);
      NoStrands(w, start, keepArmed, releasedInA, claims, log);
      if w.aborted || w.jobs == None { return; }
      ghost var done := releasedInA;
      for i := 0 to |claims|
        invariant Valid() && PassLog(w, start, claims, log, done) && HandedOut(w, start, log, out, keepArmed)
        invariant forall n :: n in done ==> n in releasedInA || n in claims[..i]
        invariant GrewBy(old(log), log, StrandedAmong(w, start, keepArmed, releasedInA, claims[..i])) && StrandReason(w, old(log), log)
      {
        hide *;
        ghost var log0 := log;
        ghost var acts;
        acts, done := ReleaseIfStranded(claims, i, keepArmed, releasedInA, done, out);
        StrandedNext(w, start, keepArmed, releasedInA, claims, i, old(log), log0, acts);
      }
      assert claims[..|claims|] == claims;
    }

    method ReleaseIfStranded(claims: seq<string>, i: nat, keepArmed: set<string>, releasedInA: set<string>, ghost done: set<string>, ghost out: seq<string>)
      returns (ghost acts: seq<Action>, ghost done': set<string>)
      requires Valid() && Listing(server.wf, start, claims) && i < |claims|
      requires PassLog(w, start, claims, log, done) && HandedOut(w, start, log, out, keepArmed)
      requires forall n :: n in done ==> n in releasedInA || n in claims[..i]
      modifies server`ledger, server`budget, `log
      ensures Valid() && PassLog(w, start, claims, log, done') && HandedOut(w, start, log, out, keepArmed)
      ensures forall n :: n in done' ==> n in releasedInA || n in claims[..i + 1]
      ensures log == old(log) + acts && |acts| == (if StrandDue(w, start, keepArmed, releasedInA, claims[i]) then 1 else 0)
      ensures forall a :: a in acts ==>
        a.DoRelease? && a.name == claims[i] && a.reason == (if w.abortRecent then SWEEP_ABORTED else DISPATCH_LOST)
    {
      var n := claims[i];
      acts, done' := [], done;
      ListedClaims(server.wf, start, claims);
      assert claims[..i + 1] == claims[..i] + [n] && n !in claims[..i];
      hide Exec, IsRun, LedgerOk, JobAlive, PassLog, HandedOut, Releases, Listing;
      var r := ClaimOf(start, n);
      if n !in releasedInA && r.dispatchedAt == None && !JobAlive(w, n) && r.pr !in keepArmed
        && r.armedSince.Some? && w.seenForStrand(n) - r.armedSince.value > RE_DISPATCH_GRACE {
        NeverNamed(server.wf, w, start, claims, log, n, done);
        ghost var a;
        var ok;
        ok, a := TryRelease(n, if w.abortRecent then SWEEP_ABORTED else DISPATCH_LOST);
        StrandRecorded(w, start, claims, old(log), a, done, out, keepArmed);
        acts, done' := [a], done + {n};
      }
    }

    // ----------------------------------------------------- sections B and C: candidates, drain

    /** The claims after the passes: their pointers, and how many hold a slot. */
    method Relist() returns (claims: seq<string>, liveOn: set<string>, liveDispatched: nat)
      requires Valid()
      ensures forall n :: n in claims ==> HasClaim(server.ledger, n)
      ensures forall n :: n in claims <==> Live(server.wf, server.ledger, n)
      ensures liveOn == PointersOf(server.ledger, claims)
      ensures liveDispatched == |SlotsTaken(server.wf, server.ledger)|
    {
      claims := server.LiveReviewClaims();
      LedgerStaysOk(server.wf, start, log);
      hide Exec, IsRun, LedgerOk, SlotsTaken;
      liveOn, liveDispatched := Tally(server.ledger, claims);
      DispatchedAreSlots(server.wf, server.ledger, claims);
    }

    static method Tally(listed: Ledger, claims: seq<string>) returns (liveOn: set<string>, liveDispatched: nat)
      requires forall n :: n in claims ==> HasClaim(listed, n)
      requires forall i, j :: 0 <= i < j < |claims| ==> claims[i] != claims[j]
      ensures liveOn == PointersOf(listed, claims) && liveDispatched == |DispatchedOf(listed, claims)|
    {
      liveOn, liveDispatched := {}, 0;
      for i := 0 to |claims|
        invariant liveOn == PointersOf(listed, claims[..i]) && liveDispatched == |DispatchedOf(listed, claims[..i])|
      {
        hide *;
        var n := claims[i];
        TallyNext(listed, claims, i);
        liveOn := liveOn + {ClaimOf(listed, n).pr};
        if ClaimOf(listed, n).dispatchedAt.Some? { liveDispatched := liveDispatched + 1; }
      }
      assert claims[..|claims|] == claims;
    }

    /** The wake first, then the labelled scan unless every slot is taken; one per pointer. */
    method Candidates(free: int) returns (cands: seq<Candidate>)
      ensures OneEach(cands) && forall c :: c in cands && c.request ==> w.wake == Some(c)
    {
      cands := [];
      if w.wake.Some? { cands := [w.wake.value]; }
      if w.wakeOnly || free <= 0 { return; }
      for i := 0 to |w.scan|
        invariant OneEach(cands) && forall c :: c in cands && c.request ==> w.wake == Some(c)
      {
        if forall c :: c in cands ==> c.pointer != w.scan[i] {
          cands := cands + [Candidate(w.scan[i], "", false, false, false)];
        }
      }
    }

    /** The claim on the pointer, in the relisted snapshot. */
    method FindClaim(listed: Ledger, claims: seq<string>, pointer: string) returns (found: Option<string>)
      requires forall n :: n in claims ==> HasClaim(listed, n)
      ensures found.Some? ==> found.value in claims && ClaimOf(listed, found.value).pr == pointer
      ensures found.None? ==> pointer !in PointersOf(listed, claims)
    {
      for i := 0 to |claims|
        invariant forall n :: n in claims[..i] ==> ClaimOf(listed, n).pr != pointer
      {
        assert claims[..i + 1] == claims[..i] + [claims[i]];
        if ClaimOf(listed, claims[i]).pr == pointer { return Some(claims[i]); }
      }
      assert claims[..|claims|] == claims;
      return None;
    }

    /** A request on a claimed pointer: stands the claim down, and tells whether its slot is freed. */
    method Supersede(c: Candidate, listed: Ledger, n: string) returns (proceed: bool, freed: bool, ghost acts: seq<Action>)
      requires Valid() && Unreleased(server.ledger, n) && server.ledger == listed
      modifies server`ledger, server`budget, `log
      ensures Valid() && log == old(log) + acts
      ensures |acts| == (if ClaimOf(listed, n).head != c.sha || (Override(w, c) && ClaimOf(listed, n).dead > 0) then 1 else 0)
      ensures forall a :: a in acts ==> a.DoRelease? && a.reason == SUPERSEDED && a.name == n
      ensures (proceed ==> acts != []) && (freed ==> proceed) && (freed ==> acts[0].cut >= 1 && ClaimOf(listed, n).dispatchedAt.Some?)
    {
      var r := ClaimOf(listed, n);
      if r.head == c.sha && !(Override(w, c) && r.dead > 0) { return false, false, []; }
      ghost var a;
      var ok;
      ok, a := TryRelease(n, SUPERSEDED);
      return ok, ok && r.dispatchedAt.Some?, [a];
    }

    /** Evaluates an unclaimed candidate and arms it: on green it is handed out. */
    method Fill(c: Candidate, resolved: bool) returns (handed: Option<string>, ghost acts: seq<Action>)
      requires Valid()
      modifies server`ledger, server`budget, server`sweepable, `log
      ensures Valid() && log == old(log) + acts && |acts| == (if ArmsNow(w, c, resolved) then 1 else 0)
      ensures forall a :: a in acts ==> ArmsOn(server.wf, old(server.ledger), c.pointer, a)
      ensures forall a :: a in acts ==> ArmedFor(w, c, resolved, a)
      ensures handed.Some? ==> acts != [] && w.judge(c).decision == Proceed && handed.value == server.wf.nameOf(ArmedHead(w, c)) && Unreleased(server.ledger, handed.value) && ClaimOf(server.ledger, handed.value).pr == c.pointer
    {
      var e := w.judge(c);
      var human := c.labelled || (c.granular && (if resolved then w.labelOn(c) == Some(true) else e.labelPresent));
      assert human == HumanAsked(w, c, resolved);
      hide Exec, IsRun, LedgerOk, ListsOthers, Unreleased;
      var q := ArmRequest(c.pointer, e.head, w.gateLabel, human, w.hasGate, w.horizon, 0, 0, 0, 0);
      ghost var a;
      var result;
      match e.decision {
        case Proceed =>
          result, a := TryArm(q);
          return if result == Armed then Some(server.wf.nameOf(q.head)) else None, [a];
        case Waiting =>
          if !e.labelPresent && !human { return None, []; }
          result, a := TryArm(q.(head := if e.newArmedSha == "" then c.sha else e.newArmedSha));
          return None, [a];
        case Standdown =>
          return None, [];
      }
    }

    /** Whether the candidate may be evaluated: memoised refusals and claimed pointers are passed
        over, except that a request stands the pointer's claim down first. */
    method MakeRoom(cands: seq<Candidate>, k: nat, claims: seq<string>, listed: Ledger, liveOn: set<string>, free: int,
        ghost outA: seq<string>, ghost outC: seq<string>, ghost flights: seq<nat>, ghost mark: nat)
      returns (go: bool, liveOn': set<string>, free': int, resolved: bool)
      requires Valid() && k < |cands| && OneEach(cands) && (k == 0 ==> server.ledger == listed)
      requires forall n :: n in claims ==> Live(server.wf, listed, n) && HasClaim(listed, n)
      requires Shielded(server.ledger, outA + outC, cands, k, liveOn) && SlotsAdd(server.wf, server.ledger, |outC|, free, w.capacity)
      requires DrainLog(server.wf, start, log, mark, outA, flights, w.capacity)
      modifies server`ledger, server`budget, `log
      ensures Valid() && old(log) <= log && (go && cands[k].pointer in liveOn' ==> cands[k].request)
      ensures go ==> !MemoSkips(w, cands[k]) && (cands[k].pointer in liveOn ==> cands[k].request)
      ensures !MemoSkips(w, cands[k]) && cands[k].pointer !in liveOn ==> go && log == old(log)
      ensures Shielded(server.ledger, outA + outC, cands, k, liveOn') && SlotsAdd(server.wf, server.ledger, |outC|, free', w.capacity)
      ensures DrainLog(server.wf, start, log, mark, outA, flights, w.capacity)
    {
      var c := cands[k];
      go, liveOn', free', resolved := false, liveOn, free, w.refused(c) && !c.labelled && c.granular;
      if MemoSkips(w, c) { return; }
      if c.pointer !in liveOn { return true, liveOn, free, resolved; }
      if !c.request { return; }
      OnlyFirstRequests(cands, k);
      var found := FindClaim(listed, claims, c.pointer);
      if found == None { return true, liveOn, free, resolved; }
      var n := found.value;
      hide Valid, Shielded, SlotsAdd, DrainLog, OneEach;
      resolved := resolved || (ClaimOf(listed, n).head == c.sha && !c.labelled && c.granular);
      LiveIsUnreleased(server.wf, listed, n);
      ghost var log0 := log;
      var freed;
      ghost var acts;
      ValidIs();
      go, freed, acts := Supersede(c, listed, n);
      ValidIs();
      AfterSupersede(server.wf, start, w.capacity, listed, server.ledger, log0, acts, n, outA, outC, flights, cands, k, liveOn, free, mark, freed);
      if go { liveOn' := liveOn - {c.pointer}; }
      if freed { free' := free + 1; }
    }

    lemma ValidIs()
      requires Valid()
      ensures server.ledger == Exec(server.wf, start, log)
    {
    }

    /** One candidate of section C; stop: no slot is left for it or any later one. */
    method DrainOne(cands: seq<Candidate>, k: nat, claims: seq<string>, listed: Ledger, liveOn: set<string>, free: int,
        ghost outA: seq<string>, ghost outC: seq<string>, ghost flights: seq<nat>, ghost mark: nat)
      returns (handed: Option<string>, stop: bool, liveOn': set<string>, free': int, ghost flights': seq<nat>)
      requires Valid() && k < |cands| && OneEach(cands) && (k == 0 ==> server.ledger == listed) && |flights| == |outC|
      requires forall n :: n in claims ==> Live(server.wf, listed, n) && HasClaim(listed, n)
      requires Shielded(server.ledger, outA + outC, cands, k, liveOn) && SlotsAdd(server.wf, server.ledger, |outC|, free, w.capacity)
      requires DrainLog(server.wf, start, log, mark, outA, flights, w.capacity)
      modifies server`ledger, server`budget, server`sweepable, `log
      ensures Valid() && old(log) <= log && (stop ==> handed == None)
      ensures var outC' := Extended(outC, handed);
        && |flights'| == |outC'| && Shielded(server.ledger, outA + outC', cands, k + 1, liveOn')
        && SlotsAdd(server.wf, server.ledger, |outC'|, free', w.capacity)
        && DrainLog(server.wf, start, log, mark, outA, flights', w.capacity)
    {
      var go, resolved;
      ExtendedLength(outC);
      hide *;
      go, liveOn', free', resolved := MakeRoom(cands, k, claims, listed, liveOn, free, outA, outC, flights, mark);
      handed, stop, flights' := None, go && free' <= 0, flights;
      ShieldedLater(server.ledger, outA + outC, cands, k, liveOn');
      if !go || stop { return; }
      ghost var l, log1 := server.ledger, log;
      ghost var acts;
      ValidIs();
      handed, acts := Fill(cands[k], resolved);
      ValidIs();
      AfterFill(server.wf, start, w.capacity, l, server.ledger, log1, acts, handed, outA, outC, flights, cands, k, liveOn', free', mark);
      if handed.Some? {
        free' := free' - 1;
        flights' := flights + [|log|];
      }
    }

    /** Section C: fills the free slots, candidate by candidate. */
    method Drain(cands: seq<Candidate>, claims: seq<string>, pointers: set<string>, slots: int, ghost outA: seq<string>)
      returns (outC: seq<string>, ghost flights: seq<nat>)
      requires Valid() && OneEach(cands) && Shielded(server.ledger, outA, cands, 0, pointers)
      requires forall n :: n in claims ==> Live(server.wf, server.ledger, n) && HasClaim(server.ledger, n)
      requires SlotsAdd(server.wf, server.ledger, 0, slots, w.capacity) && forall n :: n in outA ==> Spared(log, n)
      modifies server`ledger, server`budget, server`sweepable, `log
      ensures Valid() && old(log) <= log && DrainLog(server.wf, start, log, |old(log)|, outA, flights, w.capacity)
      ensures |flights| == |outC| && forall n :: n in outA + outC ==> Unreleased(server.ledger, n)
    {
      var listed, liveOn, free := server.ledger, pointers, slots;
      ghost var mark := |log|;
      outC, flights := [], [];
      assert outA + outC == outA && log[mark..] == [];
      for k := 0 to |cands|
        invariant Valid() && old(log) <= log && |flights| == |outC|
        invariant k == 0 ==> server.ledger == listed
        invariant Shielded(server.ledger, outA + outC, cands, k, liveOn)
        invariant SlotsAdd(server.wf, server.ledger, |outC|, free, w.capacity)
        invariant DrainLog(server.wf, start, log, mark, outA, flights, w.capacity)
      {
        hide *;
        var handed, stop;
        handed, stop, liveOn, free, flights := DrainOne(cands, k, claims, listed, liveOn, free, outA, outC, flights, mark);
        outC := Extended(outC, handed);
        if stop { break; }
      }
      HandedAreLive(server.ledger, outA + outC, cands, liveOn);
    }

    // ------------------------------------------------------------------- cancel-on-supersede

    /** Deletes the live jobs of claims released as superseded or closed, and finishes their
        attempts. A failed delete leaves the attempt for the next sweep. */
    method CancelJobs(ghost out: seq<string>, ghost mark: nat, ghost outA: seq<string>, ghost flights: seq<nat>) returns (deleted: seq<Job>)
      requires Valid() && DrainLog(server.wf, start, log, mark, outA, flights, w.capacity)
      requires forall n :: n in out ==> Unreleased(server.ledger, n)
      modifies server`ledger, server`budget, `log
      ensures Valid() && old(log) <= log && DrainLog(server.wf, start, log, mark, outA, flights, w.capacity)
      ensures forall n :: n in out ==> Unreleased(server.ledger, n)
      ensures forall j :: j in deleted ==> Alive(j) && j.owned && Cancelled(server.ledger, j.attempt)
    {
      deleted := [];
      if !w.cancels || w.aborted || w.jobs == None { return; }
      for i := 0 to |w.jobs.value|
        invariant Valid() && old(log) <= log && DrainLog(server.wf, start, log, mark, outA, flights, w.capacity)
        invariant forall n :: n in out ==> Unreleased(server.ledger, n)
        invariant forall j :: j in deleted ==> Alive(j) && j.owned && Cancelled(server.ledger, j.attempt)
      {
        hide Exec, IsRun, LedgerOk, DrainLog, Next;
        var j, stop, gone := w.jobs.value[i], *, *;
        if stop { break; }
        if Alive(j) && j.attempt != "" && Cancelled(server.ledger, j.attempt) && j.owned && gone {
          deleted := deleted + [j];
          Finish(j.attempt, mark, outA, flights);
        }
      }
    }

    /** Finishes the attempt of a cancelled claim, if the write goes through. */
    method Finish(n: string, ghost mark: nat, ghost outA: seq<string>, ghost flights: seq<nat>)
      requires Valid() && Cancelled(server.ledger, n) && DrainLog(server.wf, start, log, mark, outA, flights, w.capacity)
      modifies server`ledger, server`budget, `log
      ensures Valid() && old(log) <= log && DrainLog(server.wf, start, log, mark, outA, flights, w.capacity)
      ensures forall m :: HasClaim(server.ledger, m) <==> HasClaim(old(server.ledger), m)
      ensures forall m :: HasClaim(server.ledger, m) ==> ClaimOf(server.ledger, m) == ClaimOf(old(server.ledger), m)
    {
      var now: Time := *;
      server.budget := *;
      if server.budget == 0 { return; }
      hide Exec, IsRun, LedgerOk, DrainLog, Next, Apply;
      var reason := ClaimOf(server.ledger, n).reason;
      ghost var l, a := server.ledger, DoFinalize(n, reason, now);
      Finalized(server.wf, start, log, a, mark, outA, flights, w.capacity);
      forall m ensures (HasClaim(Next(server.wf, l, a), m) <==> HasClaim(l, m)) && (HasClaim(l, m) ==> ClaimOf(Next(server.wf, l, a), m) == ClaimOf(l, m)) {
        FinalizeFrame(server.wf, l, a, m);
      }
      var ok := server.Commit(Patch(n, FinalizeCancelled(reason, now)));
      log := log + [a];
    }

    /** One sweep. Of the names handed out, the first |outA| come from section A. */
    method Run() returns (out: seq<string>, ghost outA: seq<string>, ghost flights: seq<nat>, ghost passes: nat)
      requires Valid() && log == [] && server.ledger == start
      modifies server`ledger, server`budget, server`sweepable, `log
      ensures Valid() && LedgerOk(server.wf, server.ledger)
      ensures passes <= |log| && ReleasesOnly(log[..passes]) && DrainOnly(log[passes..])
      ensures forall n :: n in out ==> Unreleased(server.ledger, n)
      ensures out == [] || (outA <= out && |flights| == |out| - |outA|)
      ensures forall n :: n in outA ==> Queued(start, n) && Spared(log, n)
      ensures forall n :: TotalStrikes(server.wf, start, log, n) <= 1
      ensures forall a :: a in log && CostsStrike(a) ==> !JobAlive(w, a.name)
      ensures forall i :: 0 <= i < |flights| ==>
        flights[i] <= |log| && |SlotsTaken(server.wf, Exec(server.wf, start, log[..flights[i]]))| + i + 1 <= w.capacity
      ensures Kinded(server.wf, start) ==>
        forall i :: 0 <= i < |flights| ==> |DispatchedClaims(server.wf, Exec(server.wf, start, log[..flights[i]]))| + i + 1 <= w.capacity
    {
      var claims := server.LiveReviewClaims();
      var keepArmed, releasedInA;
      out, keepArmed, releasedInA := JudgeClaims(claims);
      outA, flights := out, [];
      ReleaseDeadJobs(claims, releasedInA, out, keepArmed);
      ReleaseNeverDispatched(claims, keepArmed, releasedInA, out);
      passes := |log|;
      ghost var log0 := log;
      ghost var done :| PassLog(w, start, claims, log, done);
      StrikesSpare(w, start, claims, log, done);
      SweepIsSafe(server.wf, start, log, passes);
      if !w.relists { return [], outA, flights, passes; }
      hide *;
      var live, pointers, taken := Relist();
      var cands := Candidates(w.capacity - taken);
      AfterPasses(this, claims, live, cands, pointers, outA, keepArmed, done, taken);
      var outC;
      outC, flights := Drain(cands, live, pointers, w.capacity - taken, outA);
      out := out + outC;
      var deleted := CancelJobs(out, passes, outA, flights);
      DrainAdds(w, server.wf, start, log0, log, outA, flights, w.capacity);
      SweepIsSafe(server.wf, start, log, passes);
      CapacityOfAll(server.wf, start, log, flights, w.capacity);
    }
  }

  lemma BeforeJudging(g: Sweeper, claims: seq<string>, i: nat, releasedInA: set<string>)
    requires g.Valid() && Listing(g.server.wf, g.start, claims) && i < |claims|
    requires PassLog(g.w, g.start, claims[..i], g.log, releasedInA)
    ensures Unreleased(g.server.ledger, claims[i]) && Unreleased(g.start, claims[i])
    ensures HasClaim(g.start, claims[i]) && !ClaimOf(g.start, claims[i]).released
  {
    assert claims[i] !in claims[..i] && Listed(g.server.wf, g.start, claims[i]);
    StillLive(g.server.wf, g.start, claims, g.log, claims[i]);
  }

  /** What the relisting finds: every claim handed out is live, on a claimed pointer, and not the
      one the wake asks for. */
  lemma AfterPasses(g: Sweeper, claims: seq<string>, live: seq<string>, cands: seq<Candidate>, pointers: set<string>,
      outA: seq<string>, keepArmed: set<string>, done: set<string>, taken: nat)
    requires g.Valid() && taken == |SlotsTaken(g.server.wf, g.server.ledger)| && Listing(g.server.wf, g.start, claims) && PassLog(g.w, g.start, claims, g.log, done)
    requires HandedOut(g.w, g.start, g.log, outA, keepArmed) && forall n :: n in outA ==> n in claims
    requires forall n :: n in live ==> HasClaim(g.server.ledger, n)
    requires forall n :: n in live <==> Live(g.server.wf, g.server.ledger, n)
    requires pointers == PointersOf(g.server.ledger, live)
    requires forall c :: c in cands && c.request ==> g.w.wake == Some(c)
    ensures Shielded(g.server.ledger, outA, cands, 0, pointers)
    ensures forall n :: n in outA ==> Spared(g.log, n) && Queued(g.start, n)
    ensures SlotsAdd(g.server.wf, g.server.ledger, 0, g.w.capacity - taken, g.w.capacity)
  {
    hide Exec, IsRun, LedgerOk, SlotsTaken;
    var l := g.server.ledger;
    forall n | n in outA ensures Unreleased(l, n) && OutOfReach(ClaimOf(l, n).pr, cands, 0, pointers) {
      assert Listed(g.server.wf, g.start, n);
      UntouchedByReleases(g.server.wf, g.start, g.log, n);
      assert l[n] == g.start[n] && n in live;
    }
  }
}
