/** The claim operations as they run (internal/attempt/claim.go): status mutated in place, written
    back by version-checked patches, any of which may be the last before the gate is cut off. */
module ClaimServer {
  import opened Prelude
  import opened Claims
  import opened ClaimRuns
  import opened ClaimHistory

  /** The status of a freshly read attempt; the operations' closures mutate it. */
  class AttemptStatus {
    var phase: Phase
    var review: Option<Review>
    var runs: seq<RunRecord>

    function View(): Status
      reads this
    {
      Status(phase, review, runs)
    }

    constructor (s: Status)
      ensures View() == s
    {
      phase, review, runs := s.phase, s.review, s.runs;
    }

    method Arm(pr: string, head: string, gateLabel: string, human: bool, budgetExpiry: bool, now: Time)
      modifies this
      ensures View() == Changed(old(View()), Change.Arm(pr, head, gateLabel, human, budgetExpiry, now))
    {
      if phase == NoPhase { phase := Reconciling; }
      RearmReview(pr, head, gateLabel, human, budgetExpiry, now);
      hide ArmReview;
      if phase == PhaseFailed || phase == Validated || phase == Superseded { phase := Reconciling; }
    }

    method RearmReview(pr: string, head: string, gateLabel: string, human: bool, budgetExpiry: bool, now: Time)
      modifies `review
      ensures review == Some(ArmReview(old(review), pr, head, gateLabel, human, budgetExpiry, now))
    {
      if review == None { review := Some(FRESH_REVIEW); }
      var r := review.value;
      var sameClaim := r.pr == pr && r.head == head;
      var wasReleased, wasHorizon, wasDispatchLost := r.released, r.reason == HORIZON, r.reason == DISPATCH_LOST;
      r := r.(pr := pr, head := head, gateLabel := gateLabel);
      if !sameClaim || r.armedSince == None || wasHorizon || (human && wasDispatchLost) {
        r := r.(armedSince := Some(now));
      }
      if wasReleased { r := r.(dispatchedAt := None); }
      if !sameClaim || human || budgetExpiry { r := r.(dead := 0, lost := 0); }
      review := Some(r.(released := false, reason := ""));
    }

    method Release(reason: string, now: Time)
      modifies this
      ensures View() == Changed(old(View()), Change.Release(reason, now))
    {
      if review == None { review := Some(FRESH_REVIEW); }
      var r := review.value.(released := true, reason := reason);
      if reason == DISPATCH_LOST { r := r.(lost := r.lost + 1, lastLostAt := Some(now)); }
      if reason == HORIZON { r := r.(dismissedAt := Some(now)); }
      review := Some(r);
      if reason == CONSUMED { phase := Validated; } else if reason == SUPERSEDED { phase := Superseded; }
    }

    /** Fails every non-terminal run record; reports whether there was one. */
    method FinalizeRunningRuns(now: Time) returns (finalized: bool)
      modifies `runs
      ensures runs == FinalizedRuns(old(runs), now)
      ensures finalized <==> exists i :: 0 <= i < |old(runs)| && Running(old(runs)[i])
    {
      finalized := false;
      var was := runs;
      for i := 0 to |was|
        invariant |runs| == |was|
        invariant forall j :: 0 <= j < i ==> runs[j] == if Running(was[j]) then was[j].(phase := "failed", endedAt := Some(now)) else was[j]
        invariant forall j :: i <= j < |was| ==> runs[j] == was[j]
        invariant finalized <==> exists j :: 0 <= j < i && Running(was[j])
      {
        if runs[i].phase == "" || runs[i].phase == "running" {
          runs := runs[i := runs[i].(phase := "failed", endedAt := Some(now))];
          finalized := true;
        }
      }
    }

    method ReleaseDead(reason: string, now: Time) returns (recorded: bool)
      modifies this
      ensures View() == Changed(old(View()), Change.ReleaseDead(reason, now))
      ensures recorded <==> old(review).Some? && !old(review).value.released && old(review).value.dispatchedAt.Some?
    {
      recorded := false;
      if review == None { review := Some(FRESH_REVIEW); }
      var r := review.value;
      if r.released { return; }
      r := r.(released := true, reason := reason);
      if r.dispatchedAt.Some? {
        r := r.(dead := r.dead + 1);
        recorded := true;
      }
      review := Some(r);
      var _ := FinalizeRunningRuns(now);
      if phase == NoPhase || phase == Reconciling { phase := PhaseFailed; }
    }

    method Intent(now: Time)
      modifies this
      ensures View() == Changed(old(View()), Change.Intent(now))
    {
      if review == None { review := Some(FRESH_REVIEW); }
      review := Some(review.value.(dispatchedAt := Some(now), lost := 0));
    }

    method Dispatched(job: string, now: Time)
      modifies this
      ensures View() == Changed(old(View()), Change.Dispatched(job, now))
    {
      if review == None { review := Some(FRESH_REVIEW); }
      review := Some(review.value.(dispatchedAt := Some(now), dispatchedJob := job, lost := 0));
    }

    method FinalizeCancelled(reason: string, now: Time)
      modifies this
      ensures View() == Changed(old(View()), Change.FinalizeCancelled(reason, now))
    {
      if !IsCancellation(reason) { return; }
      if review == None || !review.value.released || !IsCancellation(review.value.reason) { return; }
      var _ := FinalizeRunningRuns(now);
      if phase == NoPhase || phase == Reconciling {
        phase := if reason == SUPERSEDED then Superseded else PhaseFailed;
      }
    }

    /** The closure of one patch. */
    method Mutate(c: Change)
      modifies this
      ensures View() == Changed(old(View()), c)
    {
      match c
      case Arm(pr, head, gateLabel, human, budgetExpiry, now) => Arm(pr, head, gateLabel, human, budgetExpiry, now);
      case Release(reason, now) => Release(reason, now);
      case ReleaseDead(reason, now) => var _ := ReleaseDead(reason, now);
      case Intent(now) => Intent(now);
      case Dispatched(job, now) => Dispatched(job, now);
      case FinalizeCancelled(reason, now) => FinalizeCancelled(reason, now);
      case WorkerReport(p, rs) => phase, runs := p, rs;
    }
  }

  datatype ArmResult = Armed | Refused(why: Refusal) | Aborted

  /** The attempts on the API server, and how many more writes it takes before the caller is cut
      off; a clean-up delete after that goes through only if sweepable. */
  class ApiServer {
    const wf: Workflow
    var ledger: Ledger
    var budget: nat
    var sweepable: bool

    constructor (wf: Workflow, ledger: Ledger)
      ensures this.wf == wf && this.ledger == ledger && budget == 0 && !sweepable
    {
      this.wf, this.ledger, budget, sweepable := wf, ledger, 0, false;
    }

    /** One version-checked read-modify-write. */
    method Commit(w: Write) returns (ok: bool)
      modifies `ledger, `budget
      ensures ok <==> old(budget) > 0
      ensures if ok then ledger == Apply(wf, old(ledger), w) && budget == old(budget) - 1
              else ledger == old(ledger) && budget == 0
    {
      if budget == 0 { return false; }
      budget := budget - 1;
      ok := true;
      match w {
        case Create(n, now) => if n !in ledger { ledger := ledger[n := Attempt(wf.name, wf.kind, wf.ref, Some(now), false, Status(NoPhase, None, []))]; }
        case Delete(n) => ledger := ledger - {n};
        case Unmark(n) => if n in ledger { ledger := ledger[n := ledger[n].(marked := false)]; }
        case Mark(n) => if HasClaim(ledger, n) && ClaimOf(ledger, n).released { ledger := ledger[n := ledger[n].(marked := true)]; }
        case Patch(n, c) =>
          if n in ledger {
            var got := new AttemptStatus(ledger[n].status);
            got.Mutate(c);
            ledger := ledger[n := ledger[n].(status := got.View())];
          }
      }
    }

    /** The workflow's unreleased, unmarked claims; in no particular order. */
    method LiveReviewClaims() returns (names: seq<string>)
      ensures forall n :: n in names <==> Listed(wf, ledger, n)
      ensures forall i, j :: 0 <= i < j < |names| ==> names[i] != names[j]
    {
      names := [];
      var todo := ledger.Keys;
      while todo != {}
        invariant todo <= ledger.Keys
        invariant forall n :: n in names <==> Listed(wf, ledger, n) && n !in todo
        invariant forall i, j :: 0 <= i < j < |names| ==> names[i] != names[j]
      {
        var n :| n in todo;
        todo := todo - {n};
        if Listed(wf, ledger, n) { names := names + [n]; }
      }
    }

    method OthersOnPointer(n: string, pr: string) returns (others: seq<string>)
      ensures ListsOthers(wf, ledger, n, pr, others)
    {
      var live := LiveReviewClaims();
      others := [];
      for i := 0 to |live|
        invariant forall o :: o in others <==> o in live[..i] && Listed(wf, ledger, o) && o != n && ClaimOf(ledger, o).pr == pr
        invariant forall a, b :: 0 <= a < b < |others| ==> others[a] != others[b]
      {
        assert live[i] !in live[..i] && live[..i + 1] == live[..i] + [live[i]];
        assert live[i] in live;
        if live[i] != n && ClaimOf(ledger, live[i]).pr == pr { others := others + [live[i]]; }
      }
      assert live[..|live|] == live;
    }

    method ReleaseClaim(n: string, reason: string, now: Time) returns (ok: bool)
      modifies `ledger, `budget
      ensures ledger == Next(wf, old(ledger), DoRelease(n, reason, now, old(budget)))
      ensures ok <==> old(budget) >= 2
      ensures budget == if ok then old(budget) - 2 else 0
    {
      ghost var l := ledger;
      var p := Patch(n, Release(reason, now));
      PairApplied(wf, l, p, Mark(n));
      ok := Commit(p);
      if ok { ok := Commit(Mark(n)); }
    }

    method ReleaseClaimDead(n: string, reason: string, now: Time) returns (ok: bool)
      modifies `ledger, `budget
      ensures ledger == Next(wf, old(ledger), DoReleaseDead(n, reason, now, old(budget)))
    {
      ghost var l := ledger;
      var p := Patch(n, ReleaseDead(reason, now));
      PairApplied(wf, l, p, Mark(n));
      var recorded := HasClaim(ledger, n) && !ClaimOf(ledger, n).released && ClaimOf(ledger, n).dispatchedAt.Some?;
      ok := Commit(p);
      if ok && recorded { ok := Commit(Mark(n)); }
    }

    /** Supersedes each of the others in turn; stops at the first write that fails. */
    method SupersedeAll(others: seq<string>, now: Time, ghost l0: Ledger, ghost pre: seq<Write>) returns (ok: bool)
      requires ledger == ApplyAll(wf, l0, pre)
      modifies `ledger, `budget
      ensures ok <==> old(budget) >= |SupersedeWrites(others, now)|
      ensures var ws := pre + SupersedeWrites(others, now);
        if ok then ledger == ApplyAll(wf, l0, ws) && budget == old(budget) - |SupersedeWrites(others, now)|
        else ledger == ApplyAll(wf, l0, ws[..|pre| + old(budget)]) && budget == 0
    {
      hide Apply, ApplyAll, Next;
      assert pre + [] == pre && others[..0] == [];
      for i := 0 to |others|
        invariant var ws := SupersedeWrites(others[..i], now);
          && |ws| <= old(budget) && budget == old(budget) - |ws| && ledger == ApplyAll(wf, l0, pre + ws)
      {
        ghost var ws, o, b := SupersedeWrites(others[..i], now), others[i], budget;
        SupersedeNext(others, now, i);
        ReleaseExtends(wf, l0, pre + ws, o, SUPERSEDED, now, b);
        ok := ReleaseClaim(others[i], SUPERSEDED, now);
        if !ok {
          SupersedePrefix(others, now, pre, i, b);
          return false;
        }
        assert pre + SupersedeWrites(others[..i + 1], now) == pre + ws + ReleaseWrites(o, SUPERSEDED, now);
      }
      assert others[..|others|] == others;
      return true;
    }

    /** The last two writes of an arm: the label goes first, the status commits it. */
    method CommitArm(n: string, commit: Write, ghost l0: Ledger, ghost pre: seq<Write>) returns (ok: bool)
      requires ledger == ApplyAll(wf, l0, pre)
      modifies `ledger, `budget
      ensures ok <==> old(budget) >= 2
      ensures var ws := pre + [Unmark(n), commit];
        if ok then ledger == ApplyAll(wf, l0, ws) else ledger == ApplyAll(wf, l0, ws[..|pre| + old(budget)])
    {
      hide Apply, ApplyAll;
      LastTwo(wf, l0, pre, Unmark(n), commit);
      ok := Commit(Unmark(n));
      if ok { ok := Commit(commit); }
    }

    /** The object's creation, if it is new, and the other heads' supersession. */
    method WritePrelude(q: ArmRequest, n: string, found: seq<string>) returns (ok: bool)
      requires n == wf.nameOf(q.head)
      modifies `ledger, `budget
      ensures var ws := ArmPrelude(wf, old(ledger), q, found);
        && (ok <==> old(budget) >= |ws|)
        && ledger == ApplyAll(wf, old(ledger), if ok then ws else ws[..old(budget)])
        && budget == if ok then old(budget) - |ws| else 0
    {
      ghost var l0, pre := ledger, CreateWrites(ledger, n, q.t0);
      NoWrites(wf, l0);
      hide SupersedeWrites, Apply, ApplyAll;
      if n !in ledger {
        SingleWrite(wf, l0, Create(n, q.t0));
        ok := Commit(Create(n, q.t0));
        if !ok {
          assert (pre + SupersedeWrites(found, q.now))[..0] == [];
          return;
        }
      }
      ok := SupersedeAll(found, q.now, l0, pre);
    }

    /** All the writes of an arm that no guard refused, as far as they go. */
    method WriteArm(q: ArmRequest, n: string, found: seq<string>, expiry: bool, breaker: bool) returns (ok: bool)
      requires n == wf.nameOf(q.head) && GuardRefusal(ledger, n, q) == None
      requires expiry == BudgetExpiry(ledger, n, q) && breaker == BreakerOpen(ledger, n, q)
      modifies `ledger, `budget
      ensures var ws := ArmWrites(wf, old(ledger), q, found);
        && (ok <==> old(budget) >= |ws|)
        && ledger == ApplyAll(wf, old(ledger), if ok then ws else ws[..old(budget)])
    {
      ghost var l0, b0 := ledger, budget;
      ghost var ws, prelude := ArmWrites(wf, l0, q, found), ArmPrelude(wf, l0, q, found);
      ArmShape(wf, l0, q, found);
      hide ArmWrites, ArmPrelude, Apply, ApplyAll, GuardRefusal, BudgetExpiry, BreakerOpen;
      ok := WritePrelude(q, n, found);
      if !ok {
        assert ws[..b0] == prelude[..b0];
        return;
      }
      if !breaker {
        ok := CommitArm(n, Patch(n, Arm(q.pr, q.head, q.gateLabel, q.human, expiry, q.now)), l0, prelude);
      }
    }

    /** The refusals decided before anything is written, from the object as it was read; without one,
        whether a spent churn budget has expired. Evidence counts only for the asking pointer. */
    method CheckGuards(q: ArmRequest, n: string) returns (guard: Option<Refusal>, expiry: bool)
      ensures guard == GuardRefusal(ledger, n, q)
      ensures guard == None ==> expiry == BudgetExpiry(ledger, n, q)
    {
      if n !in ledger || ledger[n].status.review == None { return None, false; }
      var at := ledger[n];
      var r := at.status.review.value;
      var sameClaim := r.pr == q.pr && r.head == q.head;
      if q.human || !sameClaim { return None, false; }
      if q.hasGate && r.dismissedAt.Some? && q.t0 - r.dismissedAt.value < q.horizon {
        return Some(RecentlyDismissed), false;
      }
      var claimAge := 0;
      if at.createdAt.Some? { claimAge := q.t0 - at.createdAt.value; }
      var open := WindowIsOpen(r, claimAge, q.horizon, q.t1);
      if r.lost >= MAX_DISPATCH_LOST && open { return Some(ChurnBudgetExhausted), false; }
      open := WindowIsOpen(r, claimAge, q.horizon, q.t2);
      return None, r.lost > 0 && !open;
    }

    method WindowIsOpen(r: Review, claimAge: Time, horizon: Time, t: Time) returns (open: bool)
      ensures open == WindowOpen(r, claimAge, horizon, t)
    {
      var age := claimAge;
      if r.lastLostAt.Some? { age := t - r.lastLostAt.value; }
      return age < horizon;
    }

    /** The breaker, asked of the object as it was read before anything was superseded. */
    method CheckBreaker(q: ArmRequest, n: string) returns (open: bool)
      ensures open == BreakerOpen(ledger, n, q)
    {
      if n !in ledger || ledger[n].status.review == None { return false; }
      var cur := ledger[n].status.review.value;
      return cur.pr == q.pr && cur.head == q.head && cur.dead >= MAX_DEAD_DISPATCHES && !q.human;
    }

    /** Arms (or refreshes, or revives) the workflow's claim on the pull request. */
    method ArmClaim(q: ArmRequest) returns (result: ArmResult, ghost others: seq<string>)
      modifies `ledger, `budget
      ensures ListsOthers(wf, old(ledger), wf.nameOf(q.head), q.pr, others)
      ensures ledger == Next(wf, old(ledger), DoArm(q, others, old(budget), sweepable))
      ensures result == ArmResultOf(wf, old(ledger), q, others, old(budget))
    {
      var n := wf.nameOf(q.head);
      ghost var l0, b0 := ledger, budget;
      var guard, expiry := CheckGuards(q, n);
      var breaker := CheckBreaker(q, n);
      var created := n !in ledger;
      var found := OthersOnPointer(n, q.pr);
      others := found;
      ghost var a := DoArm(q, found, b0, sweepable);
      hide Apply, ApplyAll, Next, BudgetExpiry, ListsOthers, SupersedeWrites;
      if guard.Some? {
        NoWrites(wf, l0);
        NextWhenDone(wf, l0, a, ledger);
        return Refused(guard.value), found;
      }
      var ok := WriteArm(q, n, found, expiry, breaker);
      if ok {
        NextWhenDone(wf, l0, a, ledger);
        return if breaker then Refused(DeadDispatchBreaker) else Armed, found;
      }
      NextWhenCut(wf, l0, a, ledger);
      if created && sweepable {
        DeleteIs(wf, ledger, n);
        ledger := ledger - {n};
      }
      return Aborted, found;
    }
  }

  function ArmResultOf(wf: Workflow, l: Ledger, q: ArmRequest, others: seq<string>, budget: nat): ArmResult {
    var n := wf.nameOf(q.head);
    if budget < |ArmWrites(wf, l, q, others)| then Aborted
    else if GuardRefusal(l, n, q).Some? then Refused(GuardRefusal(l, n, q).value)
    else if BreakerOpen(l, n, q) then Refused(DeadDispatchBreaker)
    else Armed
  }

  lemma ArmShape(wf: Workflow, l: Ledger, q: ArmRequest, others: seq<string>)
    requires GuardRefusal(l, wf.nameOf(q.head), q) == None
    ensures var ws, prelude := ArmWrites(wf, l, q, others), ArmPrelude(wf, l, q, others);
      && prelude <= ws
      && ws == (if BreakerOpen(l, wf.nameOf(q.head), q) then prelude else prelude + [Unmark(wf.nameOf(q.head)), ArmCommit(wf, l, q)])
  {
  }

  lemma NextWhenDone(wf: Workflow, l: Ledger, a: Action, l': Ledger)
    requires a.DoArm? && a.cut >= |Writes(wf, l, a)| && l' == ApplyAll(wf, l, Writes(wf, l, a))
    ensures Next(wf, l, a) == l'
  {
  }

  lemma NextWhenCut(wf: Workflow, l: Ledger, a: Action, l': Ledger)
    requires a.DoArm? && a.cut < |Writes(wf, l, a)| && l' == ApplyAll(wf, l, Writes(wf, l, a)[..a.cut])
    ensures Next(wf, l, a) == if wf.nameOf(a.q.head) !in l && a.swept then Apply(wf, l', Delete(wf.nameOf(a.q.head))) else l'
  {
  }

  lemma DeleteIs(wf: Workflow, l: Ledger, n: string)
    ensures Apply(wf, l, Delete(n)) == l - {n}
  {
  }

  lemma LastTwo(wf: Workflow, l: Ledger, pre: seq<Write>, w: Write, v: Write)
    ensures var ws := pre + [w, v];
      && ws[..|pre|] == pre && ApplyAll(wf, l, ws[..|pre| + 1]) == Apply(wf, ApplyAll(wf, l, pre), w)
      && ApplyAll(wf, l, ws) == Apply(wf, Apply(wf, ApplyAll(wf, l, pre), w), v)
  {
    var ws := pre + [w, v];
    assert ws[..|pre| + 1] == pre + [w] && ws == (pre + [w]) + [v];
    ApplyAppend(wf, l, pre, w);
    ApplyAppend(wf, l, pre + [w], v);
  }

  lemma SupersedeNext(others: seq<string>, now: Time, i: nat)
    requires i < |others|
    ensures SupersedeWrites(others[..i + 1], now) == SupersedeWrites(others[..i], now) + ReleaseWrites(others[i], SUPERSEDED, now)
  {
    assert others[..i + 1][..i] == others[..i];
  }

  lemma {:induction false} SupersedeStarts(others: seq<string>, now: Time, i: nat)
    requires i <= |others|
    ensures SupersedeWrites(others[..i], now) <= SupersedeWrites(others, now)
    decreases |others| - i
  {
    if i < |others| {
      SupersedeNext(others, now, i);
      SupersedeStarts(others, now, i + 1);
    } else {
      assert others[..i] == others;
    }
  }

  lemma SupersedePrefix(others: seq<string>, now: Time, pre: seq<Write>, i: nat, b: nat)
    requires i < |others| && b < 2
    ensures var ws, all := SupersedeWrites(others[..i], now), SupersedeWrites(others, now);
      && |ws| + b < |all|
      && (pre + all)[..|pre| + |ws| + b] == (pre + ws) + ReleaseWrites(others[i], SUPERSEDED, now)[..b]
  {
    var ws, all := SupersedeWrites(others[..i], now), SupersedeWrites(others, now);
    SupersedeNext(others, now, i);
    SupersedeStarts(others, now, i + 1);
    assert all[..|ws| + b] == ws + ReleaseWrites(others[i], SUPERSEDED, now)[..b];
  }

  /** A release on top of a sequence of writes, cut after b. */
  lemma ReleaseExtends(wf: Workflow, l0: Ledger, ws: seq<Write>, o: string, reason: string, now: Time, b: nat)
    ensures var two := ReleaseWrites(o, reason, now);
      Next(wf, ApplyAll(wf, l0, ws), DoRelease(o, reason, now, b)) == ApplyAll(wf, l0, ws + if b < 2 then two[..b] else two)
  {
    var p, m, l := Patch(o, Release(reason, now)), Mark(o), ApplyAll(wf, l0, ws);
    PairApplied(wf, l, p, m);
    ApplyAppend(wf, l0, ws, p);
    ApplyAppend(wf, l0, ws + [p], m);
    assert ws + [p, m] == (ws + [p]) + [m] && ws + [] == ws && [p, m][..1] == [p] && [p, m][..0] == [];
  }

  lemma PairApplied(wf: Workflow, l: Ledger, w: Write, v: Write)
    ensures ApplyAll(wf, l, [w, v][..0]) == l
    ensures ApplyAll(wf, l, [w, v][..1]) == Apply(wf, l, w) == ApplyAll(wf, l, [w]) == ApplyAll(wf, l, [w] + [])
    ensures ApplyAll(wf, l, [w][..0]) == l
    ensures ApplyAll(wf, l, [w, v]) == Apply(wf, Apply(wf, l, w), v) == ApplyAll(wf, l, [w] + [v])
  {
    assert [w, v][..0] == [] && [w, v][..1] == [w] && [w, v] == [w] + [v] && [w][..0] == [] && [w] + [] == [w];
    NoWrites(wf, l);
    SingleWrite(wf, l, w);
    ApplyAppend(wf, l, [w], v);
  }
}
