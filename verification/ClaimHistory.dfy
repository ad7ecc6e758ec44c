/** Whole runs of the claim protocol: any sequence of gate, dispatcher and worker operations on
    one ledger, each possibly cut short. */
module ClaimHistory {
  import opened Prelude
  import opened Claims
  import opened ClaimRuns

  /** cut: how many of the operation's writes go through; swept: whether a failed arm's clean-up
      delete of the object it had just created goes through. */
  datatype Action =
    | DoArm(q: ArmRequest, others: seq<string>, cut: nat, swept: bool)
    | DoRelease(name: string, reason: string, now: Time, cut: nat)
    | DoReleaseDead(name: string, reason: string, now: Time, cut: nat)
    | DoIntent(name: string, now: Time)
    | DoDispatched(name: string, job: string, now: Time)
    | DoFinalize(name: string, reason: string, now: Time)
    | DoWorker(name: string, phase: Phase, runs: seq<RunRecord>)

  function ReleaseWrites(n: string, reason: string, now: Time): seq<Write> {
    [Patch(n, Release(reason, now)), Mark(n)]
  }

  /** The marker follows only when this call recorded a death. */
  function DeadWrites(l: Ledger, n: string, reason: string, now: Time): seq<Write> {
    [Patch(n, ReleaseDead(reason, now))]
      + if HasClaim(l, n) && !ClaimOf(l, n).released && ClaimOf(l, n).dispatchedAt.Some? then [Mark(n)] else []
  }

  function Writes(wf: Workflow, l: Ledger, a: Action): seq<Write> {
    match a
    case DoArm(q, others, _, _) => ArmWrites(wf, l, q, others)
    case DoRelease(n, reason, now, _) => ReleaseWrites(n, reason, now)
    case DoReleaseDead(n, reason, now, _) => DeadWrites(l, n, reason, now)
    case DoIntent(n, now) => [Patch(n, Intent(now))]
    case DoDispatched(n, job, now) => [Patch(n, Dispatched(job, now))]
    case DoFinalize(n, reason, now) => [Patch(n, FinalizeCancelled(reason, now))]
    case DoWorker(n, phase, runs) => [Patch(n, WorkerReport(phase, runs))]
  }

  function Cut(wf: Workflow, l: Ledger, a: Action): seq<Write> {
    var ws := Writes(wf, l, a);
    if a.DoArm? || a.DoRelease? || a.DoReleaseDead? then (if a.cut < |ws| then ws[..a.cut] else ws) else ws
  }

  function Next(wf: Workflow, l: Ledger, a: Action): Ledger {
    var l' := ApplyAll(wf, l, Cut(wf, l, a));
    if a.DoArm? && a.cut < |Writes(wf, l, a)| && wf.nameOf(a.q.head) !in l && a.swept
    then Apply(wf, l', Delete(wf.nameOf(a.q.head)))
    else l'
  }

  /** The gate releases only claims it listed as live, and dispatches only objects with a claim. */
  ghost predicate Enabled(wf: Workflow, l: Ledger, a: Action) {
    match a
    case DoArm(q, others, _, _) => TimesOrdered(q) && ListsOthers(wf, l, wf.nameOf(q.head), q.pr, others)
    case DoRelease(n, _, _, _) => HasClaim(l, n) && !ClaimOf(l, n).released
    case DoReleaseDead(n, _, _, _) => HasClaim(l, n)
    case DoIntent(n, _) => HasClaim(l, n)
    case DoDispatched(n, _, _) => HasClaim(l, n)
    case _ => true
  }

  function Exec(wf: Workflow, l: Ledger, run: seq<Action>): Ledger {
    if run == [] then l else Next(wf, Exec(wf, l, run[..|run| - 1]), run[|run| - 1])
  }

  ghost predicate IsRun(wf: Workflow, l: Ledger, run: seq<Action>) {
    run != [] ==> IsRun(wf, l, run[..|run| - 1]) && Enabled(wf, Exec(wf, l, run[..|run| - 1]), run[|run| - 1])
  }

  // ------------------------------------------------------------------- the invariant

  lemma SingleQuiet(wf: Workflow, l: Ledger, w: Write)
    requires LedgerOk(wf, l) && Quiet(l, w)
    ensures LedgerOk(wf, ApplyAll(wf, l, [w])) && ApplyAll(wf, l, [w]) == Apply(wf, l, w)
  {
    SingleWrite(wf, l, w);
    QuietKeeps(wf, l, w);
  }

  lemma PairKeeps(wf: Workflow, l: Ledger, w: Write, v: Write, k: nat)
    requires LedgerOk(wf, l) && Quiet(l, w) && Quiet(Apply(wf, l, w), v) && k <= 2
    ensures LedgerOk(wf, ApplyAll(wf, l, [w, v][..k]))
  {
    if k == 0 {
      assert [w, v][..0] == [];
    } else {
      SingleQuiet(wf, l, w);
      if k == 1 {
        assert [w, v][..1] == [w];
      } else {
        assert [w, v][..2] == [w] + [v];
        ApplyAppend(wf, l, [w], v);
        QuietKeeps(wf, Apply(wf, l, w), v);
      }
    }
  }

  lemma ArmActionKeeps(wf: Workflow, l: Ledger, a: Action)
    requires a.DoArm? && LedgerOk(wf, l) && Enabled(wf, l, a)
    ensures LedgerOk(wf, Next(wf, l, a))
  {
    ArmCutAnywhere(wf, l, a.q, a.others, Cut(wf, l, a));
    QuietKeeps(wf, ApplyAll(wf, l, Cut(wf, l, a)), Delete(wf.nameOf(a.q.head)));
  }

  lemma ReleaseActionKeeps(wf: Workflow, l: Ledger, a: Action)
    requires (a.DoRelease? || a.DoReleaseDead?) && LedgerOk(wf, l) && Enabled(wf, l, a)
    ensures LedgerOk(wf, Next(wf, l, a))
  {
    var ws := Writes(wf, l, a);
    var k := if a.cut < |ws| then a.cut else |ws|;
    assert Cut(wf, l, a) == [ws[0], Mark(a.name)][..k];
    PairKeeps(wf, l, ws[0], Mark(a.name), k);
  }

  lemma ActionKeeps(wf: Workflow, l: Ledger, a: Action)
    requires LedgerOk(wf, l) && Enabled(wf, l, a)
    ensures LedgerOk(wf, Next(wf, l, a))
  {
    hide LedgerOk;
    if a.DoArm? { ArmActionKeeps(wf, l, a); }
    else if a.DoRelease? || a.DoReleaseDead? { ReleaseActionKeeps(wf, l, a); }
    else { SingleQuiet(wf, l, Writes(wf, l, a)[0]); }
  }

  /** In every run, cut wherever it may be: the marker never hides a claim, each pointer has at most
      one live claim, no counter passes 3 and every claim unreleased is below 3 on both. The filtered
      list is exactly the workflow's unreleased claims if and only if those carry its kind; if every
      object did at the start, it stays so, and each pointer has at most one unreleased claim. */
  lemma {:induction false} LedgerStaysOk(wf: Workflow, l: Ledger, run: seq<Action>)
    requires LedgerOk(wf, l) && IsRun(wf, l, run)
    ensures LedgerOk(wf, Exec(wf, l, run))
    ensures var end := Exec(wf, l, run);
      && (forall n :: Listed(wf, end, n) <==> Live(wf, end, n))
      && ((forall n :: Listed(wf, end, n) <==> Open(wf, end, n)) <==> forall n :: Open(wf, end, n) ==> end[n].kind == wf.kind)
      && (Kinded(wf, l) ==>
            && Kinded(wf, end) && (forall n :: Listed(wf, end, n) <==> Open(wf, end, n))
            && forall n, m :: Open(wf, end, n) && Open(wf, end, m) && ClaimOf(end, n).pr == ClaimOf(end, m).pr ==> n == m)
  {
    hide LedgerOk, Next, Enabled, Live, Open, Kinded;
    if run != [] {
      LedgerStaysOk(wf, l, run[..|run| - 1]);
      ActionKeeps(wf, Exec(wf, l, run[..|run| - 1]), run[|run| - 1]);
    }
    var end := Exec(wf, l, run);
    ListExactWhenOk(wf, end);
    if Kinded(wf, l) {
      KindedRun(wf, l, run);
      KindedIsEnough(wf, end);
    }
  }

  lemma ListExactWhenOk(wf: Workflow, l: Ledger)
    requires LedgerOk(wf, l)
    ensures forall n :: Listed(wf, l, n) <==> Live(wf, l, n)
    ensures (forall n :: Listed(wf, l, n) <==> Open(wf, l, n)) <==> forall n :: Open(wf, l, n) ==> l[n].kind == wf.kind
  {
    ListIsExact(wf, l);
    ListHasTheLive(wf, l);
  }

  lemma KindedIsEnough(wf: Workflow, l: Ledger)
    requires LedgerOk(wf, l) && Kinded(wf, l)
    ensures forall n :: Listed(wf, l, n) <==> Open(wf, l, n)
    ensures forall n, m :: Open(wf, l, n) && Open(wf, l, m) && ClaimOf(l, n).pr == ClaimOf(l, m).pr ==> n == m
  {
    ListHasTheLive(wf, l);
    forall n, m | Open(wf, l, n) && Open(wf, l, m) && ClaimOf(l, n).pr == ClaimOf(l, m).pr ensures n == m {
      assert Live(wf, l, n) && Live(wf, l, m);
    }
  }

  lemma {:induction false} KindedRun(wf: Workflow, l: Ledger, run: seq<Action>)
    requires Kinded(wf, l)
    ensures Kinded(wf, Exec(wf, l, run))
  {
    hide Kinded, Apply, ApplyAll, Cut, Writes;
    if run != [] {
      var init, a := run[..|run| - 1], run[|run| - 1];
      var m := Exec(wf, l, init);
      KindedRun(wf, l, init);
      KindedWrites(wf, m, Cut(wf, m, a));
      if a.DoArm? { KindStays(wf, ApplyAll(wf, m, Cut(wf, m, a)), Delete(wf.nameOf(a.q.head))); }
    }
  }

  // ---------------------------------------------------------------- one claim's fields

  /** What any write does to one object's claim. */
  lemma WriteOnClaim(wf: Workflow, l: Ledger, w: Write, n: string)
    requires HasClaim(l, n) && !w.Delete?
    ensures var l' := Apply(wf, l, w);
      && HasClaim(l', n)
      && ((w.Patch? && w.name == n) || ClaimOf(l', n) == ClaimOf(l, n))
  {
  }

  lemma {:induction false} SupersedeMembers(others: seq<string>, now: Time)
    ensures forall w :: w in SupersedeWrites(others, now) <==> exists o :: o in others && (w == Patch(o, Release(SUPERSEDED, now)) || w == Mark(o))
  {
    if others != [] {
      var init, o := others[..|others| - 1], others[|others| - 1];
      SupersedeMembers(init, now);
      assert others == init + [o];
      assert o in others;
    }
  }

  /** Every write of an arm is a creation, a supersession, the unmarking, or the commit. */
  lemma ArmWriteKinds(wf: Workflow, l: Ledger, q: ArmRequest, others: seq<string>, w: Write)
    requires w in ArmWrites(wf, l, q, others)
    ensures || w.Create? || w.Unmark? || w.Mark?
      || (w.Patch? && w.name in others && w.change == Release(SUPERSEDED, q.now))
      || (w == ArmCommit(wf, l, q) && GuardRefusal(l, wf.nameOf(q.head), q) == None && !BreakerOpen(l, wf.nameOf(q.head), q))
  {
    SupersedeMembers(others, q.now);
  }

  // ------------------------------------------------------------- dismissal is remembered

  /** The object carries the claim of (pr, head), dismissed no earlier than t. */
  predicate DismissedSince(l: Ledger, n: string, pr: string, head: string, t: Time) {
    && HasClaim(l, n) && SameClaim(ClaimOf(l, n), pr, head)
    && ClaimOf(l, n).dismissedAt.Some? && ClaimOf(l, n).dismissedAt.value >= t
  }

  /** The action keeps the object's pointer, and its clock is not before t. */
  predicate KeepsPointer(wf: Workflow, a: Action, n: string, pr: string, head: string, t: Time) {
    match a
    case DoArm(q, _, _, _) => wf.nameOf(q.head) == n ==> q.pr == pr && q.head == head
    case DoRelease(_, _, now, _) => now >= t
    case _ => true
  }

  lemma WriteKeepsDismissal(wf: Workflow, l: Ledger, w: Write, n: string, pr: string, head: string, t: Time)
    requires DismissedSince(l, n, pr, head, t) && !w.Delete?
    requires w.Patch? && w.name == n && w.change.Arm? ==> w.change.pr == pr && w.change.head == head
    requires w.Patch? && w.change.Release? && w.change.reason == HORIZON ==> w.change.now >= t
    ensures DismissedSince(Apply(wf, l, w), n, pr, head, t)
  {
  }

  ghost predicate DismissalSafe(ws: seq<Write>, n: string, pr: string, head: string, t: Time) {
    forall w :: w in ws ==>
      && !w.Delete?
      && (w.Patch? && w.name == n && w.change.Arm? ==> w.change.pr == pr && w.change.head == head)
      && (w.Patch? && w.change.Release? && w.change.reason == HORIZON ==> w.change.now >= t)
  }

  lemma {:induction false} WritesKeepDismissal(wf: Workflow, l: Ledger, ws: seq<Write>, n: string, pr: string, head: string, t: Time)
    requires DismissedSince(l, n, pr, head, t) && DismissalSafe(ws, n, pr, head, t)
    ensures DismissedSince(ApplyAll(wf, l, ws), n, pr, head, t)
  {
    hide DismissedSince, Apply;
    if ws != [] {
      WritesKeepDismissal(wf, l, ws[..|ws| - 1], n, pr, head, t);
      WriteKeepsDismissal(wf, ApplyAll(wf, l, ws[..|ws| - 1]), ws[|ws| - 1], n, pr, head, t);
    }
  }

  lemma ActionIsDismissalSafe(wf: Workflow, l: Ledger, a: Action, n: string, pr: string, head: string, t: Time)
    requires KeepsPointer(wf, a, n, pr, head, t)
    ensures DismissalSafe(Cut(wf, l, a), n, pr, head, t)
  {
    var ws := Writes(wf, l, a);
    assert SUPERSEDED != HORIZON by { assert |SUPERSEDED| == 10 && |HORIZON| == 7; }
    forall w | w in Cut(wf, l, a)
      ensures !w.Delete?
      ensures w.Patch? && w.name == n && w.change.Arm? ==> w.change.pr == pr && w.change.head == head
      ensures w.Patch? && w.change.Release? && w.change.reason == HORIZON ==> w.change.now >= t
    {
      assert w in ws;
      if a.DoArm? { ArmWriteKinds(wf, l, a.q, a.others, w); }
    }
  }

  lemma ActionKeepsDismissal(wf: Workflow, l: Ledger, a: Action, n: string, pr: string, head: string, t: Time)
    requires DismissedSince(l, n, pr, head, t) && KeepsPointer(wf, a, n, pr, head, t)
    ensures DismissedSince(Next(wf, l, a), n, pr, head, t)
  {
    ActionIsDismissalSafe(wf, l, a, n, pr, head, t);
    WritesKeepDismissal(wf, l, Cut(wf, l, a), n, pr, head, t);
    hide Writes, Cut, KeepsPointer, ApplyAll;
  }

  lemma {:induction false} DismissalIsKept(wf: Workflow, l: Ledger, run: seq<Action>, n: string, pr: string, head: string, t: Time)
    requires DismissedSince(l, n, pr, head, t) && forall a :: a in run ==> KeepsPointer(wf, a, n, pr, head, t)
    ensures DismissedSince(Exec(wf, l, run), n, pr, head, t)
  {
    hide DismissedSince, KeepsPointer, Next;
    if run != [] {
      var init, a := run[..|run| - 1], run[|run| - 1];
      assert forall b :: b in init ==> b in run;
      DismissalIsKept(wf, l, init, n, pr, head, t);
      ActionKeepsDismissal(wf, Exec(wf, l, init), a, n, pr, head, t);
    }
  }

  /** After a horizon release at t every automatic arm of the same pointer before t + horizon is
      refused and writes nothing, whatever happened in between, a human arm included. */
  lemma DismissalRefusesAutomaticArms(wf: Workflow, l: Ledger, n: string, t: Time, cut: nat, run: seq<Action>, a: Action)
    requires HasClaim(l, n) && cut >= 1 && a.DoArm? && wf.nameOf(a.q.head) == n
    requires SameClaim(ClaimOf(l, n), a.q.pr, a.q.head)
    requires forall b :: b in run ==> KeepsPointer(wf, b, n, a.q.pr, a.q.head, t)
    requires !a.q.human && a.q.hasGate && a.q.t0 < t + a.q.horizon
    ensures var m := Exec(wf, Next(wf, l, DoRelease(n, HORIZON, t, cut)), run);
      GuardRefusal(m, n, a.q) == Some(RecentlyDismissed) && Next(wf, m, a) == m
  {
    var l1 := Next(wf, l, DoRelease(n, HORIZON, t, cut));
    ReleasedNow(wf, l, n, t, cut);
    DismissalIsKept(wf, l1, run, n, a.q.pr, a.q.head, t);
    var m := Exec(wf, l1, run);
    NoWrites(wf, m);
    assert ArmWrites(wf, m, a.q, a.others) == [];
  }

  lemma ReleasedNow(wf: Workflow, l: Ledger, n: string, t: Time, cut: nat)
    requires HasClaim(l, n) && cut >= 1
    ensures DismissedSince(Next(wf, l, DoRelease(n, HORIZON, t, cut)), n, ClaimOf(l, n).pr, ClaimOf(l, n).head, t)
  {
    var p := Patch(n, Release(HORIZON, t));
    assert [p, Mark(n)][..1] == [] + [p] && [p, Mark(n)] == [p] + [Mark(n)];
    NoWrites(wf, l);
    ApplyAppend(wf, l, [], p);
    ApplyAppend(wf, l, [p], Mark(n));
  }

  // ------------------------------------------------------------------------ the breaker

  /** The arms that may forgive three deaths: a human's, or one of the object for another pointer. */
  predicate Forgives(wf: Workflow, l: Ledger, a: Action, n: string)
    requires HasClaim(l, n)
  {
    a.DoArm? && wf.nameOf(a.q.head) == n && (a.q.human || !SameClaim(ClaimOf(l, n), a.q.pr, a.q.head))
  }

  /** Broken: three dispatches died, and the claim is released. */
  predicate Broken(l: Ledger, n: string) { HasClaim(l, n) && ClaimOf(l, n).dead >= MAX_DEAD_DISPATCHES && ClaimOf(l, n).released }

  /** Whatever happens to a broken claim: it comes back, or its deaths are forgotten, only by an
      action that forgives. The age of its budget does not do it. */
  lemma {:induction false} BreakerHolds(wf: Workflow, l: Ledger, run: seq<Action>, n: string)
    requires Broken(l, n) && !Broken(Exec(wf, l, run), n)
    ensures exists i :: 0 <= i < |run| && Broken(Exec(wf, l, run[..i]), n) && Forgives(wf, Exec(wf, l, run[..i]), run[i], n)
  {
    hide Broken, Forgives, Next;
    if run != [] {
      var k := |run| - 1;
      BrokenHasClaim();
      if Broken(Exec(wf, l, run[..k]), n) {
        ActionKeepsBroken(wf, Exec(wf, l, run[..k]), run[k], n);
      } else {
        BreakerHolds(wf, l, run[..k], n);
        var i :| 0 <= i < k && Broken(Exec(wf, l, run[..k][..i]), n) && Forgives(wf, Exec(wf, l, run[..k][..i]), run[..k][i], n);
        assert run[..k][..i] == run[..i];
      }
    }
  }

  lemma BrokenHasClaim()
    ensures forall l, n :: Broken(l, n) ==> HasClaim(l, n)
  {
  }

  lemma ActionKeepsBroken(wf: Workflow, l: Ledger, a: Action, n: string)
    requires Broken(l, n)
    ensures Broken(Next(wf, l, a), n) || Forgives(wf, l, a, n)
  {
    if !Forgives(wf, l, a, n) {
      forall w | w in Cut(wf, l, a) ensures !w.Delete? && !(w.Patch? && w.name == n && w.change.Arm?) {
        assert w in Writes(wf, l, a);
        if a.DoArm? { ArmWriteKinds(wf, l, a.q, a.others, w); }
      }
      WritesKeepBroken(wf, l, Cut(wf, l, a), n);
      hide Writes, Cut, ApplyAll, Forgives;
    }
  }

  lemma {:induction false} WritesKeepBroken(wf: Workflow, l: Ledger, ws: seq<Write>, n: string)
    requires Broken(l, n) && forall w :: w in ws ==> !w.Delete? && !(w.Patch? && w.name == n && w.change.Arm?)
    ensures Broken(ApplyAll(wf, l, ws), n)
  {
    hide Broken, Apply;
    if ws != [] {
      WritesKeepBroken(wf, l, ws[..|ws| - 1], n);
      WriteKeepsBroken(wf, ApplyAll(wf, l, ws[..|ws| - 1]), ws[|ws| - 1], n);
    }
  }

  lemma WriteKeepsBroken(wf: Workflow, l: Ledger, w: Write, n: string)
    requires Broken(l, n) && !w.Delete? && !(w.Patch? && w.name == n && w.change.Arm?)
    ensures Broken(Apply(wf, l, w), n)
  {
  }

  /** An automatic arm of the same claim at three deaths leaves the claim as it is. */
  lemma BrokenArmIsRefused(wf: Workflow, l: Ledger, a: Action)
    requires a.DoArm? && Enabled(wf, l, a)
    requires var n := wf.nameOf(a.q.head);
      HasClaim(l, n) && ClaimOf(l, n).dead >= MAX_DEAD_DISPATCHES && SameClaim(ClaimOf(l, n), a.q.pr, a.q.head) && !a.q.human
    ensures var n := wf.nameOf(a.q.head);
      HasClaim(Next(wf, l, a), n) && ClaimOf(Next(wf, l, a), n) == ClaimOf(l, n)
  {
    var n := wf.nameOf(a.q.head);
    forall w | w in Cut(wf, l, a) ensures !w.Delete? && (w.Patch? ==> w.name != n) {
      assert w in ArmWrites(wf, l, a.q, a.others);
      ArmWriteKinds(wf, l, a.q, a.others, w);
    }
    ClaimUntouched(wf, l, Cut(wf, l, a), n);
  }

  lemma {:induction false} ClaimUntouched(wf: Workflow, l: Ledger, ws: seq<Write>, n: string)
    requires HasClaim(l, n) && forall w :: w in ws ==> !w.Delete? && (w.Patch? ==> w.name != n)
    ensures HasClaim(ApplyAll(wf, l, ws), n) && ClaimOf(ApplyAll(wf, l, ws), n) == ClaimOf(l, n)
  {
    if ws != [] {
      ClaimUntouched(wf, l, ws[..|ws| - 1], n);
      WriteOnClaim(wf, ApplyAll(wf, l, ws[..|ws| - 1]), ws[|ws| - 1], n);
    }
  }

  /** A refused arm still stands every other head of the pointer down: the breaker is asked after
      the supersession. */
  lemma BreakerRefusalStillSupersedes(wf: Workflow, l: Ledger, q: ArmRequest, others: seq<string>)
    requires LedgerOk(wf, l) && ListsOthers(wf, l, wf.nameOf(q.head), q.pr, others)
    requires GuardRefusal(l, wf.nameOf(q.head), q) == None && BreakerOpen(l, wf.nameOf(q.head), q)
    ensures var l' := ApplyAll(wf, l, ArmWrites(wf, l, q, others));
      forall m :: Live(wf, l', m) && ClaimOf(l', m).pr == q.pr ==> m == wf.nameOf(q.head)
  {
    var l' := ApplyAll(wf, l, ArmWrites(wf, l, q, others));
    forall m | Live(wf, l', m) && ClaimOf(l', m).pr == q.pr ensures m == wf.nameOf(q.head)
    {
      PreludeClearsPointer(wf, l, q, others, m);
    }
  }

  // ---------------------------------------------------------------------- era honesty

  predicate Unreleased(l: Ledger, n: string) { HasClaim(l, n) && !ClaimOf(l, n).released }

  /** The action brought a released claim back to life. */
  predicate Revives(l: Ledger, l': Ledger, n: string) { HasClaim(l, n) && ClaimOf(l, n).released && Unreleased(l', n) }

  function LastRevival(wf: Workflow, l: Ledger, run: seq<Action>, n: string): int {
    if run == [] then -1
    else if Revives(Exec(wf, l, run[..|run| - 1]), Exec(wf, l, run), n) then |run| - 1
    else LastRevival(wf, l, run[..|run| - 1], n)
  }

  predicate Intends(a: Action, n: string) { (a.DoIntent? || a.DoDispatched?) && a.name == n }

  function LastIntent(run: seq<Action>, n: string): int {
    if run == [] then -1
    else if Intends(run[|run| - 1], n) then |run| - 1
    else LastIntent(run[..|run| - 1], n)
  }

  lemma {:induction false} RevivalBound(wf: Workflow, l: Ledger, run: seq<Action>, n: string)
    ensures LastRevival(wf, l, run, n) < |run|
  {
    if run != [] { RevivalBound(wf, l, run[..|run| - 1], n); }
  }

  predicate InFlight(l: Ledger, n: string) { Unreleased(l, n) && ClaimOf(l, n).dispatchedAt.Some? }

  /** Without a dispatch intent a write neither puts a claim in flight nor revives one in flight. */
  lemma WriteAndFlight(wf: Workflow, l: Ledger, w: Write, n: string)
    requires !(w.Patch? && w.name == n && (w.change.Intent? || w.change.Dispatched?))
    requires InFlight(Apply(wf, l, w), n)
    ensures InFlight(l, n)
  {
  }

  lemma {:induction false} WritesAndFlight(wf: Workflow, l: Ledger, ws: seq<Write>, n: string)
    requires forall w :: w in ws ==> !(w.Patch? && w.name == n && (w.change.Intent? || w.change.Dispatched?))
    requires InFlight(ApplyAll(wf, l, ws), n)
    ensures InFlight(l, n)
  {
    hide Apply, InFlight;
    if ws != [] {
      WriteAndFlight(wf, ApplyAll(wf, l, ws[..|ws| - 1]), ws[|ws| - 1], n);
      WritesAndFlight(wf, l, ws[..|ws| - 1], n);
    }
  }

  lemma ActionAndFlight(wf: Workflow, l: Ledger, a: Action, n: string)
    requires !Intends(a, n) && InFlight(Next(wf, l, a), n)
    ensures InFlight(l, n)
  {
    var ws := Cut(wf, l, a);
    forall w | w in ws ensures !(w.Patch? && w.name == n && (w.change.Intent? || w.change.Dispatched?)) {
      assert w in Writes(wf, l, a);
      if a.DoArm? { ArmWriteKinds(wf, l, a.q, a.others, w); }
    }
    WritesAndFlight(wf, l, ws, n);
  }

  /** A live claim with a dispatch time was given that intent after its latest revival: no phantom
      dispatch survives a release. */
  lemma {:induction false} DispatchBelongsToEra(wf: Workflow, run: seq<Action>, n: string)
    requires InFlight(Exec(wf, map[], run), n)
    ensures LastIntent(run, n) > LastRevival(wf, map[], run, n)
  {
    if run != [] {
      var init, a := run[..|run| - 1], run[|run| - 1];
      var l := Exec(wf, map[], init);
      if Intends(a, n) {
        RevivalBound(wf, map[], init, n);
        IntentDoesNotRevive(wf, l, a, n);
      } else {
        ActionAndFlight(wf, l, a, n);
        DispatchBelongsToEra(wf, init, n);
      }
    }
  }

  lemma IntentDoesNotRevive(wf: Workflow, l: Ledger, a: Action, n: string)
    requires Intends(a, n)
    ensures !Revives(l, Next(wf, l, a), n)
  {
    var c := if a.DoIntent? then Intent(a.now) else Dispatched(a.job, a.now);
    SingleWrite(wf, l, Patch(n, c));
    assert Cut(wf, l, a) == [Patch(n, c)];
    hide Writes, Cut, Apply, ApplyAll, Revives;
    PatchDoesNotRevive(wf, l, n, c);
  }

  lemma SingleWrite(wf: Workflow, l: Ledger, w: Write)
    ensures ApplyAll(wf, l, [w]) == Apply(wf, l, w)
  {
    assert [w] == [] + [w];
    ApplyAppend(wf, l, [], w);
  }

  lemma PatchDoesNotRevive(wf: Workflow, l: Ledger, n: string, c: Change)
    requires c.Intent? || c.Dispatched?
    ensures !Revives(l, Apply(wf, l, Patch(n, c)), n)
  {
  }

  // ------------------------------------------------------------------------ cancellation

  /** Finalizing a cancellation never touches a live claim, never moves a breaker counter, keeps
      terminal run records and phases, and is idempotent. */
  lemma CancelSparesTheLiving(s: Status, reason: string, now: Time, later: Time)
    ensures var c := FinalizeCancelled(reason, now);
      && (s.review.Some? && !s.review.value.released ==> Changed(s, c) == s)
      && Changed(s, c).review == s.review
      && (s.phase !in {NoPhase, Reconciling} ==> Changed(s, c).phase == s.phase)
      && (forall i :: 0 <= i < |s.runs| && !Running(s.runs[i]) ==> Changed(s, c).runs[i] == s.runs[i])
      && Changed(Changed(s, c), FinalizeCancelled(reason, later)) == Changed(s, c)
  {
    var c := FinalizeCancelled(reason, now);
    assert "failed"[0] == 'f' && "running"[0] == 'r';
    assert FinalizedRuns(FinalizedRuns(s.runs, now), later) == FinalizedRuns(s.runs, now);
  }

  /** Observing one death twice counts it once. */
  lemma DeathCountsOnce(s: Status, reason: string, now: Time, again: string, later: Time)
    ensures Changed(Changed(s, ReleaseDead(reason, now)), ReleaseDead(again, later)) == Changed(s, ReleaseDead(reason, now))
  {
  }
}
