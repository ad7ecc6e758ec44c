/** What a sweep's own actions add up to: strikes, in-flight claims, and claims left alone. */
module SweepRuns {
  import opened Prelude
  import opened Claims
  import opened ClaimRuns
  import opened ClaimHistory

  predicate IsRelease(a: Action) { a.DoRelease? || a.DoReleaseDead? }

  lemma RunExtends(wf: Workflow, l: Ledger, run: seq<Action>, a: Action)
    requires IsRun(wf, l, run) && Enabled(wf, Exec(wf, l, run), a)
    ensures IsRun(wf, l, run + [a]) && Exec(wf, l, run + [a]) == Next(wf, Exec(wf, l, run), a)
  {
    hide Enabled, Next;
    assert (run + [a])[..|run|] == run;
  }

  // ------------------------------------------------------------------- releases alone

  predicate ReleasesOnly(run: seq<Action>) { forall a :: a in run ==> IsRelease(a) }

  /** A release touches no other object, and no object loses its claim. */
  lemma ReleaseFrame(wf: Workflow, l: Ledger, a: Action, n: string)
    requires IsRelease(a)
    ensures n != a.name && n in l ==> n in Next(wf, l, a) && Next(wf, l, a)[n] == l[n]
    ensures HasClaim(l, n) ==> HasClaim(Next(wf, l, a), n)
  {
    ReleaseLedgers(wf, l, a);
  }

  /** The ledgers a release can leave behind: after no write, the status write, or both. */
  lemma ReleaseLedgers(wf: Workflow, l: Ledger, a: Action)
    requires IsRelease(a)
    ensures var p := Writes(wf, l, a)[0];
      Next(wf, l, a) in [l, Apply(wf, l, p), Apply(wf, Apply(wf, l, p), Mark(a.name))]
    ensures a.cut == 0 ==> Next(wf, l, a) == l
    ensures a.cut >= 1 ==> Next(wf, l, a) in [Apply(wf, l, Writes(wf, l, a)[0]), Apply(wf, Apply(wf, l, Writes(wf, l, a)[0]), Mark(a.name))]
  {
    hide Apply;
    var ws := Writes(wf, l, a);
    var p := ws[0];
    NoWrites(wf, l);
    SingleWrite(wf, l, p);
    ApplyAppend(wf, l, [p], Mark(a.name));
    if a.cut == 0 { assert Cut(wf, l, a) == []; }
    else if a.cut == 1 || |ws| == 1 { assert Cut(wf, l, a) == [p]; }
    else { assert Cut(wf, l, a) == [p] + [Mark(a.name)]; }
  }

  lemma {:induction false} UntouchedByReleases(wf: Workflow, l: Ledger, run: seq<Action>, n: string)
    requires ReleasesOnly(run) && HasClaim(l, n)
    ensures HasClaim(Exec(wf, l, run), n)
    ensures (forall a :: a in run ==> a.name != n) ==> Exec(wf, l, run)[n] == l[n]
  {
    hide HasClaim, Next;
    if run != [] {
      UntouchedByReleases(wf, l, run[..|run| - 1], n);
      ReleaseFrame(wf, Exec(wf, l, run[..|run| - 1]), run[|run| - 1], n);
      HasClaimIsIn(Exec(wf, l, run[..|run| - 1]), n);
    }
  }

  lemma HasClaimIsIn(l: Ledger, n: string)
    requires HasClaim(l, n)
    ensures n in l
  {
  }

  // -------------------------------------------------------------------------- strikes

  function Rise(was: nat, now: nat): nat { if now > was then now - was else 0 }

  /** How many strikes, on either counter, the action adds to the claim. */
  function Strikes(l: Ledger, l': Ledger, n: string): nat {
    if HasClaim(l, n) && HasClaim(l', n)
    then Rise(ClaimOf(l, n).dead, ClaimOf(l', n).dead) + Rise(ClaimOf(l, n).lost, ClaimOf(l', n).lost)
    else 0
  }

  function TotalStrikes(wf: Workflow, l: Ledger, run: seq<Action>, n: string): nat {
    if run == [] then 0
    else
      var init := run[..|run| - 1];
      TotalStrikes(wf, l, init, n) + Strikes(Exec(wf, l, init), Exec(wf, l, run), n)
  }

  /** One release: no strike on a released claim; at most one, and the claim then released. */
  lemma ReleaseStrikesOnce(wf: Workflow, l: Ledger, a: Action, n: string)
    requires IsRelease(a) && Enabled(wf, l, a)
    ensures var l' := Next(wf, l, a);
      && Strikes(l, l', n) <= 1
      && (Strikes(l, l', n) == 1 ==> Unreleased(l, n) && HasClaim(l', n) && !Unreleased(l', n))
      && (HasClaim(l, n) && !Unreleased(l, n) ==> HasClaim(l', n) && !Unreleased(l', n))
  {
    ReleaseLedgers(wf, l, a);
    if n != a.name { ReleaseFrame(wf, l, a, n); }
  }

  lemma {:induction false} ReleasesStrikeOnce(wf: Workflow, l: Ledger, run: seq<Action>, n: string)
    requires ReleasesOnly(run) && IsRun(wf, l, run)
    ensures TotalStrikes(wf, l, run, n) <= 1
    ensures TotalStrikes(wf, l, run, n) == 1 ==> HasClaim(Exec(wf, l, run), n) && !Unreleased(Exec(wf, l, run), n)
  {
    hide Next, Enabled, HasClaim, Unreleased, Strikes;
    if run != [] {
      ReleasesStrikeOnce(wf, l, run[..|run| - 1], n);
      ReleaseStrikesOnce(wf, Exec(wf, l, run[..|run| - 1]), run[|run| - 1], n);
    }
  }

  /** What follows the passes: arms, releases for supersession, and finished cancellations. */
  predicate IsDrain(a: Action) { a.DoArm? || (a.DoRelease? && a.reason == SUPERSEDED) || a.DoFinalize? }

  predicate DrainOnly(run: seq<Action>) { forall a :: a in run ==> IsDrain(a) }

  predicate DrainWrite(w: Write) {
    match w
    case Delete(_) => true
    case Patch(_, c) => c.Arm? || (c.Release? && c.reason == SUPERSEDED) || c.FinalizeCancelled?
    case _ => true
  }

  predicate NoHigher(l: Ledger, l': Ledger, n: string) {
    HasClaim(l, n) && HasClaim(l', n) ==> ClaimOf(l', n).dead <= ClaimOf(l, n).dead && ClaimOf(l', n).lost <= ClaimOf(l, n).lost
  }

  lemma DrainWriteIsFree(wf: Workflow, l: Ledger, w: Write, n: string)
    requires DrainWrite(w)
    ensures NoHigher(l, Apply(wf, l, w), n)
    ensures !w.Delete? && HasClaim(l, n) ==> HasClaim(Apply(wf, l, w), n)
  {
    assert SUPERSEDED != DISPATCH_LOST by { assert |SUPERSEDED| == 10 && |DISPATCH_LOST| == 13; }
  }

  lemma {:induction false} DrainWritesAreFree(wf: Workflow, l: Ledger, ws: seq<Write>, n: string)
    requires forall w :: w in ws ==> DrainWrite(w) && !w.Delete?
    ensures NoHigher(l, ApplyAll(wf, l, ws), n)
    ensures HasClaim(l, n) ==> HasClaim(ApplyAll(wf, l, ws), n)
  {
    hide HasClaim, Apply, DrainWrite;
    if ws != [] {
      DrainWritesAreFree(wf, l, ws[..|ws| - 1], n);
      DrainWriteIsFree(wf, ApplyAll(wf, l, ws[..|ws| - 1]), ws[|ws| - 1], n);
    }
  }

  lemma DrainCut(wf: Workflow, l: Ledger, a: Action, w: Write)
    requires IsDrain(a) && w in Cut(wf, l, a)
    ensures DrainWrite(w) && !w.Delete?
  {
    assert w in Writes(wf, l, a);
    if a.DoArm? { ArmWriteKinds(wf, l, a.q, a.others, w); }
  }

  lemma DrainIsFree(wf: Workflow, l: Ledger, a: Action, n: string)
    requires IsDrain(a)
    ensures Strikes(l, Next(wf, l, a), n) == 0
  {
    forall w | w in Cut(wf, l, a) ensures DrainWrite(w) && !w.Delete? { DrainCut(wf, l, a, w); }
    hide Cut, ApplyAll, Apply;
    DrainWritesAreFree(wf, l, Cut(wf, l, a), n);
    if HasClaim(l, n) && HasClaim(Next(wf, l, a), n) { DeleteKeepsOthers(wf, ApplyAll(wf, l, Cut(wf, l, a)), n); }
  }

  lemma DeleteKeepsOthers(wf: Workflow, l: Ledger, n: string)
    ensures forall m :: HasClaim(Apply(wf, l, Delete(m)), n) ==> HasClaim(l, n) && ClaimOf(Apply(wf, l, Delete(m)), n) == ClaimOf(l, n)
  {
  }

  /** A sweep, all releases of its first passes and then the drain, adds at most one strike to each
      claim, over both counters together. */
  lemma {:induction false} SweepStrikesOnce(wf: Workflow, l: Ledger, passes: seq<Action>, drain: seq<Action>, n: string)
    requires ReleasesOnly(passes) && DrainOnly(drain) && IsRun(wf, l, passes)
    ensures TotalStrikes(wf, l, passes + drain, n) <= 1
  {
    hide Next, IsDrain, IsRelease, Strikes;
    if drain == [] {
      assert passes + drain == passes;
      ReleasesStrikeOnce(wf, l, passes, n);
    } else {
      var init, all := drain[..|drain| - 1], passes + drain;
      assert all[..|all| - 1] == passes + init;
      SweepStrikesOnce(wf, l, passes, init, n);
      DrainIsFree(wf, Exec(wf, l, passes + init), drain[|drain| - 1], n);
    }
  }

  // ------------------------------------------------------------------------- in flight

  /** The workflow's live claims with a dispatch recorded: the slots in use. */
  function SlotsTaken(wf: Workflow, l: Ledger): set<string> {
    set n | n in l && Live(wf, l, n) && ClaimOf(l, n).dispatchedAt.Some?
  }

  /** All unreleased dispatched claims of the workflow, seen by the gate or not. */
  function DispatchedClaims(wf: Workflow, l: Ledger): set<string> {
    set n | n in l && Open(wf, l, n) && ClaimOf(l, n).dispatchedAt.Some?
  }

  /** The slots counted are all of those if and only if each carries the kind. */
  lemma SlotsCountAll(wf: Workflow, l: Ledger)
    ensures SlotsTaken(wf, l) == DispatchedClaims(wf, l) <==> forall n :: n in DispatchedClaims(wf, l) ==> l[n].kind == wf.kind
  {
    if SlotsTaken(wf, l) == DispatchedClaims(wf, l) {
      forall n | n in DispatchedClaims(wf, l) ensures l[n].kind == wf.kind { assert n in SlotsTaken(wf, l); }
    }
  }

  lemma DrainWriteTakesNoSlot(wf: Workflow, l: Ledger, w: Write)
    requires DrainWrite(w)
    ensures SlotsTaken(wf, Apply(wf, l, w)) <= SlotsTaken(wf, l)
  {
  }

  lemma {:induction false} DrainWritesTakeNoSlot(wf: Workflow, l: Ledger, ws: seq<Write>)
    requires forall w :: w in ws ==> DrainWrite(w)
    ensures SlotsTaken(wf, ApplyAll(wf, l, ws)) <= SlotsTaken(wf, l)
  {
    hide SlotsTaken, Apply, DrainWrite;
    if ws != [] {
      DrainWritesTakeNoSlot(wf, l, ws[..|ws| - 1]);
      DrainWriteTakesNoSlot(wf, ApplyAll(wf, l, ws[..|ws| - 1]), ws[|ws| - 1]);
    }
  }

  /** No drain action puts a claim in flight; a completed supersession frees its slot. */
  lemma DrainTakesNoSlot(wf: Workflow, l: Ledger, a: Action)
    requires IsDrain(a)
    ensures SlotsTaken(wf, Next(wf, l, a)) <= SlotsTaken(wf, l)
    ensures a.DoRelease? && a.cut >= 1 ==> a.name !in SlotsTaken(wf, Next(wf, l, a))
  {
    forall w | w in Cut(wf, l, a) ensures DrainWrite(w) { DrainCut(wf, l, a, w); }
    DrainWritesTakeNoSlot(wf, l, Cut(wf, l, a));
    if a.DoArm? {
      DrainWriteTakesNoSlot(wf, ApplyAll(wf, l, Cut(wf, l, a)), Delete(wf.nameOf(a.q.head)));
    } else if a.DoRelease? {
      ReleaseLedgers(wf, l, a);
    }
  }

  /** A finished cancellation changes no claim. */
  lemma FinalizeFrame(wf: Workflow, l: Ledger, a: Action, n: string)
    requires a.DoFinalize?
    ensures HasClaim(Next(wf, l, a), n) <==> HasClaim(l, n)
    ensures HasClaim(l, n) ==> ClaimOf(Next(wf, l, a), n) == ClaimOf(l, n)
  {
    SingleWrite(wf, l, Patch(a.name, FinalizeCancelled(a.reason, a.now)));
  }

  // ------------------------------------------------------------- claims the drain spares

  /** Unreleased, and on one of two pointers. */
  predicate UnreleasedOn(l: Ledger, n: string, pr: string, newPr: string) {
    Unreleased(l, n) && ClaimOf(l, n).pr in [pr, newPr]
  }

  predicate SparingWrite(w: Write, n: string, pr: string) {
    match w
    case Delete(m) => m != n
    case Patch(m, c) => m == n ==> c.Arm? && c.pr == pr
    case _ => true
  }

  lemma WriteSpares(wf: Workflow, l: Ledger, w: Write, n: string, pr: string, newPr: string)
    requires UnreleasedOn(l, n, pr, newPr) && SparingWrite(w, n, newPr)
    ensures UnreleasedOn(Apply(wf, l, w), n, pr, newPr)
    ensures !(w.Patch? && w.name == n) ==> ClaimOf(Apply(wf, l, w), n) == ClaimOf(l, n)
  {
  }

  lemma {:induction false} WritesSpare(wf: Workflow, l: Ledger, ws: seq<Write>, n: string, pr: string, newPr: string)
    requires UnreleasedOn(l, n, pr, newPr) && forall w :: w in ws ==> SparingWrite(w, n, newPr)
    ensures UnreleasedOn(ApplyAll(wf, l, ws), n, pr, newPr)
  {
    hide UnreleasedOn, SparingWrite, Apply;
    if ws != [] {
      WritesSpare(wf, l, ws[..|ws| - 1], n, pr, newPr);
      WriteSpares(wf, ApplyAll(wf, l, ws[..|ws| - 1]), ws[|ws| - 1], n, pr, newPr);
    }
  }

  /** An arm releases only the others it lists; a claim it spares keeps its pointer or, being the
      object of the armed head, moves to the armed one. */
  lemma ArmSpares(wf: Workflow, l: Ledger, a: Action, n: string)
    requires a.DoArm? && Unreleased(l, n) && n !in a.others
    ensures UnreleasedOn(Next(wf, l, a), n, ClaimOf(l, n).pr, a.q.pr)
    ensures n != wf.nameOf(a.q.head) ==> ClaimOf(Next(wf, l, a), n).pr == ClaimOf(l, n).pr
  {
    var pr := ClaimOf(l, n).pr;
    var newPr := if n == wf.nameOf(a.q.head) then a.q.pr else pr;
    forall w | w in Cut(wf, l, a) ensures SparingWrite(w, n, newPr) {
      assert w in Writes(wf, l, a);
      ArmWriteKinds(wf, l, a.q, a.others, w);
    }
    hide Cut, ApplyAll;
    WritesSpare(wf, l, Cut(wf, l, a), n, pr, newPr);
    if n != wf.nameOf(a.q.head) {
      WriteSpares(wf, ApplyAll(wf, l, Cut(wf, l, a)), Delete(wf.nameOf(a.q.head)), n, pr, newPr);
    }
  }

  /** A release of another object spares the claim as it is. */
  lemma ReleaseSpares(wf: Workflow, l: Ledger, a: Action, n: string)
    requires IsRelease(a) && Unreleased(l, n) && a.name != n
    ensures Unreleased(Next(wf, l, a), n) && ClaimOf(Next(wf, l, a), n) == ClaimOf(l, n)
  {
    ReleaseFrame(wf, l, a, n);
  }
}
