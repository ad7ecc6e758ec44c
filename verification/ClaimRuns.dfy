/** The claim protocol over whole runs of one sequential gate that may be cut off between any two
    writes: what every write keeps, and what holds however long the run. */
module ClaimRuns {
  import opened Prelude
  import opened Claims

  // ------------------------------------------------------- writes cut anywhere

  /** Each write is quiet in the ledger it meets. */
  ghost predicate QuietAlong(wf: Workflow, l: Ledger, ws: seq<Write>) {
    ws != [] ==> QuietAlong(wf, l, ws[..|ws| - 1]) && Quiet(ApplyAll(wf, l, ws[..|ws| - 1]), ws[|ws| - 1])
  }

  lemma {:induction false} QuietAlongKeeps(wf: Workflow, l: Ledger, ws: seq<Write>)
    requires LedgerOk(wf, l) && QuietAlong(wf, l, ws)
    ensures LedgerOk(wf, ApplyAll(wf, l, ws))
    ensures var l' := ApplyAll(wf, l, ws);
      forall n :: Live(wf, l', n) ==> Live(wf, l, n) && ClaimOf(l', n).pr == ClaimOf(l, n).pr
  {
    hide Quiet, LedgerOk, Apply, Live;
    if ws != [] {
      QuietAlongKeeps(wf, l, ws[..|ws| - 1]);
      LiveHasClaim();
      QuietKeeps(wf, ApplyAll(wf, l, ws[..|ws| - 1]), ws[|ws| - 1]);
    }
  }

  lemma LiveHasClaim()
    ensures forall wf, l, n :: Live(wf, l, n) ==> HasClaim(l, n)
  {
  }

  lemma {:induction false} QuietPrefix(wf: Workflow, l: Ledger, ws: seq<Write>, cut: seq<Write>)
    requires QuietAlong(wf, l, ws) && cut <= ws
    ensures QuietAlong(wf, l, cut)
    decreases |ws|
  {
    if |cut| == |ws| { assert cut == ws; } else { QuietPrefix(wf, l, ws[..|ws| - 1], cut); }
  }

  lemma QuietAppend(wf: Workflow, l: Ledger, ws: seq<Write>, w: Write)
    requires QuietAlong(wf, l, ws) && Quiet(ApplyAll(wf, l, ws), w)
    ensures QuietAlong(wf, l, ws + [w])
  {
    assert (ws + [w])[..|ws|] == ws;
  }

  // -------------------------------------------------------------- superseding others

  ghost predicate Untouched(l: Ledger, l': Ledger, names: seq<string>) {
    forall m :: m !in names ==> (m in l <==> m in l') && (m in l ==> l'[m] == l[m])
  }

  ghost predicate AllReleased(l: Ledger, names: seq<string>) {
    forall o :: o in names ==> HasClaim(l, o) && ClaimOf(l, o).released
  }

  ghost predicate Candidates(wf: Workflow, l: Ledger, others: seq<string>) {
    && (forall i, j :: 0 <= i < j < |others| ==> others[i] != others[j])
    && (forall o :: o in others ==> Live(wf, l, o))
  }

  lemma ReleasePair(wf: Workflow, l: Ledger, o: string, reason: string, now: Time)
    requires HasClaim(l, o) && !ClaimOf(l, o).released
    ensures var l1 := Apply(wf, l, Patch(o, Release(reason, now)));
      var l2 := Apply(wf, l1, Mark(o));
      && Quiet(l, Patch(o, Release(reason, now))) && Quiet(l1, Mark(o))
      && HasClaim(l1, o) && ClaimOf(l1, o).released && HasClaim(l2, o) && ClaimOf(l2, o).released
      && Untouched(l, l1, [o]) && Untouched(l, l2, [o])
  {
  }

  lemma {:induction false} SupersedeIsQuiet(wf: Workflow, l: Ledger, l0: Ledger, pre: seq<Write>, others: seq<string>, now: Time)
    requires QuietAlong(wf, l0, pre) && ApplyAll(wf, l0, pre) == l && Candidates(wf, l, others)
    ensures QuietAlong(wf, l0, pre + SupersedeWrites(others, now))
    ensures var l' := ApplyAll(wf, l0, pre + SupersedeWrites(others, now)); AllReleased(l', others) && Untouched(l, l', others)
  {
    if others == [] {
      assert pre + [] == pre;
    } else {
      var init, o := others[..|others| - 1], others[|others| - 1];
      var ws, two := pre + SupersedeWrites(init, now), [Patch(o, Release(SUPERSEDED, now)), Mark(o)];
      assert o !in init && Candidates(wf, l, init) && Live(wf, l, o) && others == init + [o];
      assert pre + SupersedeWrites(others, now) == ws + two;
      hide ApplyAll, QuietAlong, SupersedeWrites, Live, AllReleased, Untouched, Candidates;
      SupersedeIsQuiet(wf, l, l0, pre, init, now);
      SupersedeOne(wf, l, l0, ws, init, o, now);
    }
  }

  lemma SupersedeOne(wf: Workflow, l: Ledger, l0: Ledger, ws: seq<Write>, init: seq<string>, o: string, now: Time)
    requires QuietAlong(wf, l0, ws) && o !in init && Live(wf, l, o)
    requires var m := ApplyAll(wf, l0, ws); AllReleased(m, init) && Untouched(l, m, init)
    ensures var two := ws + [Patch(o, Release(SUPERSEDED, now)), Mark(o)];
      && QuietAlong(wf, l0, two)
      && AllReleased(ApplyAll(wf, l0, two), init + [o]) && Untouched(l, ApplyAll(wf, l0, two), init + [o])
  {
    var m, p, k := ApplyAll(wf, l0, ws), Patch(o, Release(SUPERSEDED, now)), Mark(o);
    var one := ws + [p];
    assert ws + [p, k] == one + [k];
    hide Quiet, Apply;
    ReleasePair(wf, m, o, SUPERSEDED, now);
    ApplyAppend(wf, l0, ws, p);
    ApplyAppend(wf, l0, one, k);
    QuietAppend(wf, l0, ws, p);
    QuietAppend(wf, l0, one, k);
  }

  // ----------------------------------------------------------------- arming, cut anywhere

  /** Everything before the arm's last two writes. */
  function ArmPrelude(wf: Workflow, l: Ledger, q: ArmRequest, others: seq<string>): seq<Write> {
    CreateWrites(l, wf.nameOf(q.head), q.t0) + SupersedeWrites(others, q.now)
  }

  lemma CreatedFirst(wf: Workflow, l: Ledger, n: string, now: Time)
    ensures var pre := CreateWrites(l, n, now);
      var l1 := ApplyAll(wf, l, pre);
      && QuietAlong(wf, l, pre) && n in l1
      && (if n in l then l1 == l else l1 == l[n := Attempt(wf.name, wf.kind, wf.ref, Some(now), false, Status(NoPhase, None, []))])
  {
    NoWrites(wf, l);
    if n !in l { assert CreateWrites(l, n, now)[..0] == []; }
  }

  lemma PreludeIsQuiet(wf: Workflow, l: Ledger, q: ArmRequest, others: seq<string>)
    requires LedgerOk(wf, l) && ListsOthers(wf, l, wf.nameOf(q.head), q.pr, others)
    ensures QuietAlong(wf, l, ArmPrelude(wf, l, q, others))
    ensures var n, l' := wf.nameOf(q.head), ApplyAll(wf, l, ArmPrelude(wf, l, q, others));
      && n in l' && AllReleased(l', others) && (n in l ==> l'[n] == l[n]) && (n !in l ==> l'[n].status.review == None)
  {
    var n := wf.nameOf(q.head);
    var pre := CreateWrites(l, n, q.t0);
    var l1 := ApplyAll(wf, l, pre);
    CreatedFirst(wf, l, n, q.t0);
    assert Candidates(wf, l1, others);
    hide QuietAlong, ApplyAll, Live, Listed;
    SupersedeIsQuiet(wf, l1, l, pre, others, q.now);
  }

  /** No live claim is left on the pointer besides the arm's own object. */
  lemma PreludeClearsPointer(wf: Workflow, l: Ledger, q: ArmRequest, others: seq<string>, m: string)
    requires LedgerOk(wf, l) && ListsOthers(wf, l, wf.nameOf(q.head), q.pr, others)
    requires var l' := ApplyAll(wf, l, ArmPrelude(wf, l, q, others)); Live(wf, l', m) && ClaimOf(l', m).pr == q.pr
    ensures m == wf.nameOf(q.head)
  {
    PreludeIsQuiet(wf, l, q, others);
    QuietAlongKeeps(wf, l, ArmPrelude(wf, l, q, others));
    ListHasTheLive(wf, l);
    assert Listed(wf, l, m) && ClaimOf(l, m).pr == q.pr;
  }

  /** The arm's verdict on its own counters: what survives the guards is below both bounds. */
  lemma ArmedIsBelowBounds(l: Ledger, n: string, q: ArmRequest)
    requires StrikesBounded(l) && TimesOrdered(q)
    requires GuardRefusal(l, n, q) == None && !BreakerOpen(l, n, q)
    ensures var was := if n in l then l[n].status.review else None;
      StrikesOk(ArmReview(was, q.pr, q.head, q.gateLabel, q.human, BudgetExpiry(l, n, q), q.now))
  {
    if AsksSameClaim(l, n, q) && !q.human {
      var r := ClaimOf(l, n);
      assert StrikesOk(r);
      if r.lost >= MAX_DISPATCH_LOST { assert BudgetExpiry(l, n, q); }
    }
  }

  function ArmCommit(wf: Workflow, l: Ledger, q: ArmRequest): Write {
    var n := wf.nameOf(q.head);
    Patch(n, Arm(q.pr, q.head, q.gateLabel, q.human, BudgetExpiry(l, n, q), q.now))
  }

  /** The commit itself: with the object unmarked and the pointer cleared, all invariants hold. */
  lemma CommitKeeps(wf: Workflow, l: Ledger, l1: Ledger, q: ArmRequest)
    requires LedgerOk(wf, l) && LedgerOk(wf, l1) && TimesOrdered(q)
    requires var n := wf.nameOf(q.head);
      && GuardRefusal(l, n, q) == None && !BreakerOpen(l, n, q) && n in l1 && !l1[n].marked
      && l1[n].status.review == (if n in l then l[n].status.review else None)
    requires forall m :: Live(wf, l1, m) && ClaimOf(l1, m).pr == q.pr ==> m == wf.nameOf(q.head)
    ensures LedgerOk(wf, Apply(wf, l1, ArmCommit(wf, l, q)))
  {
    var n, l2 := wf.nameOf(q.head), Apply(wf, l1, ArmCommit(wf, l, q));
    ArmedIsBelowBounds(l, n, q);
    forall m | HasClaim(l2, m) ensures StrikesOk(ClaimOf(l2, m)) {
      if m != n { assert HasClaim(l1, m); }
    }
    forall a, b | Live(wf, l2, a) && Live(wf, l2, b) && ClaimOf(l2, a).pr == ClaimOf(l2, b).pr ensures a == b {
      if a != n { assert Live(wf, l1, a) && ClaimOf(l1, a).pr == ClaimOf(l2, a).pr; }
      if b != n { assert Live(wf, l1, b) && ClaimOf(l1, b).pr == ClaimOf(l2, b).pr; }
    }
  }

  lemma UnmarkedAfterPrelude(wf: Workflow, l: Ledger, q: ArmRequest, others: seq<string>)
    requires LedgerOk(wf, l) && ListsOthers(wf, l, wf.nameOf(q.head), q.pr, others)
    ensures var n, pre := wf.nameOf(q.head), ArmPrelude(wf, l, q, others);
      var l1 := ApplyAll(wf, l, pre + [Unmark(n)]);
      && QuietAlong(wf, l, pre + [Unmark(n)]) && LedgerOk(wf, l1) && n in l1 && !l1[n].marked
      && l1[n].status.review == (if n in l then l[n].status.review else None)
      && (forall m :: Live(wf, l1, m) && ClaimOf(l1, m).pr == q.pr ==> m == n)
      && AllReleased(l1, others)
  {
    var n, pre := wf.nameOf(q.head), ArmPrelude(wf, l, q, others);
    PreludeIsQuiet(wf, l, q, others);
    ApplyAppend(wf, l, pre, Unmark(n));
    QuietAppend(wf, l, pre, Unmark(n));
    QuietAlongKeeps(wf, l, pre + [Unmark(n)]);
    var l0, l1 := ApplyAll(wf, l, pre), ApplyAll(wf, l, pre + [Unmark(n)]);
    forall m | Live(wf, l1, m) && ClaimOf(l1, m).pr == q.pr ensures m == n {
      assert Live(wf, l0, m) && ClaimOf(l0, m).pr == q.pr;
      PreludeClearsPointer(wf, l, q, others, m);
    }
  }

  /** After any number of an arm's writes the label still never hides a live claim, no pointer has
      two live claims, and the counters are within bounds. */
  lemma ArmCutAnywhere(wf: Workflow, l: Ledger, q: ArmRequest, others: seq<string>, cut: seq<Write>)
    requires LedgerOk(wf, l) && TimesOrdered(q) && ListsOthers(wf, l, wf.nameOf(q.head), q.pr, others)
    requires cut <= ArmWrites(wf, l, q, others)
    ensures LedgerOk(wf, ApplyAll(wf, l, cut))
  {
    var n, pre, ws := wf.nameOf(q.head), ArmPrelude(wf, l, q, others), ArmWrites(wf, l, q, others);
    PreludeIsQuiet(wf, l, q, others);
    UnmarkedAfterPrelude(wf, l, q, others);
    hide LedgerOk, ApplyAll, QuietAlong, ListsOthers, AllReleased, Live;
    var quiet := pre + [Unmark(n)];
    if GuardRefusal(l, n, q).Some? {
      NoWrites(wf, l);
      assert cut == [];
    } else if BreakerOpen(l, n, q) {
      assert ws == pre;
      QuietPrefix(wf, l, pre, cut);
      QuietAlongKeeps(wf, l, cut);
    } else {
      assert ws == quiet + [ArmCommit(wf, l, q)];
      if |cut| <= |quiet| {
        assert cut <= quiet;
        QuietPrefix(wf, l, quiet, cut);
        QuietAlongKeeps(wf, l, cut);
      } else {
        assert cut == quiet + [ArmCommit(wf, l, q)];
        ApplyAppend(wf, l, quiet, ArmCommit(wf, l, q));
        CommitKeeps(wf, l, ApplyAll(wf, l, quiet), q);
      }
    }
  }

  lemma NoWrites(wf: Workflow, l: Ledger)
    ensures ApplyAll(wf, l, []) == l
  {
  }

  /** A completed arm: its object holds the claim, unreleased and unmarked, and no other live claim
      is left on the pointer. It is listed exactly if the object carries the workflow's kind, which a
      new one does; and if all objects carry it no other unreleased claim is left on the pointer. */
  lemma ArmedAlone(wf: Workflow, l: Ledger, q: ArmRequest, others: seq<string>)
    requires LedgerOk(wf, l) && TimesOrdered(q) && ListsOthers(wf, l, wf.nameOf(q.head), q.pr, others)
    requires var n := wf.nameOf(q.head); GuardRefusal(l, n, q) == None && !BreakerOpen(l, n, q)
    ensures var n, l' := wf.nameOf(q.head), ApplyAll(wf, l, ArmWrites(wf, l, q, others));
      && HasClaim(l', n) && !ClaimOf(l', n).released && !l'[n].marked && SameClaim(ClaimOf(l', n), q.pr, q.head)
      && (Listed(wf, l', n) <==> (n in l ==> Mine(wf, l[n])))
      && (forall m :: Live(wf, l', m) && ClaimOf(l', m).pr == q.pr ==> m == n)
      && (Kinded(wf, l) ==> forall m :: Open(wf, l', m) && ClaimOf(l', m).pr == q.pr ==> m == n)
  {
    var n, quiet := wf.nameOf(q.head), ArmPrelude(wf, l, q, others) + [Unmark(wf.nameOf(q.head))];
    assert ArmWrites(wf, l, q, others) == quiet + [ArmCommit(wf, l, q)];
    UnmarkedAfterPrelude(wf, l, q, others);
    PreludeKeepsIdentity(wf, l, q, others);
    hide LedgerOk, ListsOthers, AllReleased, ApplyAll, ArmWrites, QuietAlong, ArmPrelude;
    ApplyAppend(wf, l, quiet, ArmCommit(wf, l, q));
    if Kinded(wf, l) { KindedWrites(wf, l, quiet); }
    CommittedAlone(wf, l, ApplyAll(wf, l, quiet), q);
  }

  /** The commit on the ledger the writes before it leave. */
  lemma CommittedAlone(wf: Workflow, l: Ledger, l1: Ledger, q: ArmRequest)
    requires var n := wf.nameOf(q.head);
      && n in l1 && !l1[n].marked && SameIdentity(wf, l, l1, n)
      && forall m :: Live(wf, l1, m) && ClaimOf(l1, m).pr == q.pr ==> m == n
    ensures var n, l' := wf.nameOf(q.head), Apply(wf, l1, ArmCommit(wf, l, q));
      && HasClaim(l', n) && !ClaimOf(l', n).released && !l'[n].marked && SameClaim(ClaimOf(l', n), q.pr, q.head)
      && (Listed(wf, l', n) <==> (n in l ==> Mine(wf, l[n])))
      && (forall m :: Live(wf, l', m) && ClaimOf(l', m).pr == q.pr ==> m == n)
      && (Kinded(wf, l1) ==> forall m :: Open(wf, l', m) && ClaimOf(l', m).pr == q.pr ==> m == n)
  {
    var n, l' := wf.nameOf(q.head), Apply(wf, l1, ArmCommit(wf, l, q));
    forall m | m != n && HasClaim(l', m) ensures HasClaim(l1, m) && ClaimOf(l1, m) == ClaimOf(l', m) && l1[m] == l'[m] {}
    forall m | Live(wf, l', m) && ClaimOf(l', m).pr == q.pr ensures m == n {
      if m != n { assert Live(wf, l1, m); }
    }
    if Kinded(wf, l1) {
      forall m | Open(wf, l', m) && ClaimOf(l', m).pr == q.pr ensures m == n {
        if m != n { assert Live(wf, l1, m); }
      }
    }
  }

  lemma {:induction false} KindedWrites(wf: Workflow, l: Ledger, ws: seq<Write>)
    requires Kinded(wf, l)
    ensures Kinded(wf, ApplyAll(wf, l, ws))
  {
    hide Kinded, Apply;
    if ws != [] {
      KindedWrites(wf, l, ws[..|ws| - 1]);
      KindStays(wf, ApplyAll(wf, l, ws[..|ws| - 1]), ws[|ws| - 1]);
    }
  }

  /** The object stays, with its workflow, kind and reference; a new one is the workflow's own. */
  ghost predicate SameIdentity(wf: Workflow, l: Ledger, l': Ledger, n: string) {
    if n in l then n in l' && l'[n].workflow == l[n].workflow && l'[n].kind == l[n].kind && l'[n].ref == l[n].ref
    else n in l' ==> Mine(wf, l'[n])
  }

  lemma {:induction false} IdentityKept(wf: Workflow, l: Ledger, ws: seq<Write>, n: string)
    requires forall w :: w in ws ==> !w.Delete?
    ensures SameIdentity(wf, l, ApplyAll(wf, l, ws), n)
  {
    if ws != [] { IdentityKept(wf, l, ws[..|ws| - 1], n); }
  }

  lemma PreludeKeepsIdentity(wf: Workflow, l: Ledger, q: ArmRequest, others: seq<string>)
    ensures var n, quiet := wf.nameOf(q.head), ArmPrelude(wf, l, q, others) + [Unmark(wf.nameOf(q.head))];
      SameIdentity(wf, l, ApplyAll(wf, l, quiet), n)
  {
    var n, quiet := wf.nameOf(q.head), ArmPrelude(wf, l, q, others) + [Unmark(wf.nameOf(q.head))];
    SupersedeHasNoDelete(others, q.now);
    IdentityKept(wf, l, quiet, n);
  }

  lemma {:induction false} SupersedeHasNoDelete(others: seq<string>, now: Time)
    ensures forall w :: w in SupersedeWrites(others, now) ==> !w.Delete?
  {
    if others != [] { SupersedeHasNoDelete(others[..|others| - 1], now); }
  }

  // ------------------------------------------------------------ objects without the kind

  /** Why the list needs the kind: an arm takes an existing object of the workflow as it is, so on one
      without the kind the armed claim is unreleased, unmarked and still not listed. */
  lemma KindlessArmIsUnseen(wf: Workflow, q: ArmRequest)
    requires wf.kind != "" && TimesOrdered(q)
    ensures var n := wf.nameOf(q.head);
      var l := map[n := Attempt(wf.name, "", wf.ref, None, false, Status(NoPhase, None, []))];
      var l' := ApplyAll(wf, l, ArmWrites(wf, l, q, []));
      && LedgerOk(wf, l) && ListsOthers(wf, l, n, q.pr, []) && LedgerOk(wf, l')
      && Open(wf, l', n) && !l'[n].marked && !Listed(wf, l', n)
  {
    var n := wf.nameOf(q.head);
    var l := map[n := Attempt(wf.name, "", wf.ref, None, false, Status(NoPhase, None, []))];
    ArmCutAnywhere(wf, l, q, [], ArmWrites(wf, l, q, []));
    ArmedAlone(wf, l, q, []);
    ArmKeepsIdentity(wf, l, q, [], n);
  }

  /** And such a claim is not superseded: arming another head of its pull request leaves two
      unreleased claims on the pointer. */
  lemma KindlessClaimIsNotSuperseded(wf: Workflow, q: ArmRequest, m: string, r: Review)
    requires wf.kind != "" && TimesOrdered(q) && m != wf.nameOf(q.head)
    requires r.pr == q.pr && !r.released && StrikesOk(r)
    ensures var n := wf.nameOf(q.head);
      var l := map[m := Attempt(wf.name, "", wf.ref, None, false, Status(Reconciling, Some(r), []))];
      var l' := ApplyAll(wf, l, ArmWrites(wf, l, q, []));
      && LedgerOk(wf, l) && ListsOthers(wf, l, n, q.pr, []) && LedgerOk(wf, l')
      && Open(wf, l', m) && ClaimOf(l', m).pr == q.pr && Open(wf, l', n) && ClaimOf(l', n).pr == q.pr
  {
    var n := wf.nameOf(q.head);
    var l := map[m := Attempt(wf.name, "", wf.ref, None, false, Status(Reconciling, Some(r), []))];
    var ws := ArmWrites(wf, l, q, []);
    ArmCutAnywhere(wf, l, q, [], ws);
    ArmedAlone(wf, l, q, []);
    ArmKeepsIdentity(wf, l, q, [], n);
    assert forall w :: w in ws ==> !w.Delete? && w.name == n;
    OtherUntouched(wf, l, ws, m);
  }

  lemma ArmKeepsIdentity(wf: Workflow, l: Ledger, q: ArmRequest, others: seq<string>, n: string)
    ensures SameIdentity(wf, l, ApplyAll(wf, l, ArmWrites(wf, l, q, others)), n)
  {
    SupersedeHasNoDelete(others, q.now);
    IdentityKept(wf, l, ArmWrites(wf, l, q, others), n);
  }

  lemma {:induction false} OtherUntouched(wf: Workflow, l: Ledger, ws: seq<Write>, m: string)
    requires m in l && forall w :: w in ws ==> w.name != m
    ensures m in ApplyAll(wf, l, ws) && ApplyAll(wf, l, ws)[m] == l[m]
  {
    if ws != [] { OtherUntouched(wf, l, ws[..|ws| - 1], m); }
  }
}
