/** The trigger slot (internal/controller/workflow_controller.go, attempt_trigger.go): a compare-and-
    set on a workflow's last run, raced by reconciles that may read stale copies. */
module TriggerSlot {
  import opened Prelude

  /** Instants and intervals in milliseconds. */
  type Millis = nat

  const SECOND: Millis := 1000
  const WEBHOOK_INTERVAL: Millis := 10000

  /** Times are stored in whole seconds. */
  function Stored(t: Millis): Millis { t - t % SECOND }

  /** gated: the status holds review-gate aggregates. */
  datatype Workflow = Workflow(annotation: string, processed: string, lastRunAt: Option<Millis>, gated: bool)

  /** One committed version of the object. */
  datatype Version = Version(wf: Workflow, at: Millis)

  /** A slot won: what the winning read saw, when it was checked and stamped, and which version it made. */
  datatype Win = Win(version: nat, from: Workflow, seen: seq<Millis>, checked: Millis, stamp: Millis)

  /** endings: when the terminal runs recorded so far ended. */
  datatype State = State(now: Millis, versions: seq<Version>, endings: seq<Millis>, wins: seq<Win>)

  // --------------------------------------------------------------------- the decision

  predicate Unprocessed(wf: Workflow) { wf.annotation != "" && wf.annotation != wf.processed }

  predicate Eligible(wf: Workflow, ended: Millis) { wf.gated && wf.lastRunAt.Some? && Stored(ended) > wf.lastRunAt.value }

  /** A live claim's attempt recorded a terminal run since the last dispatch. */
  predicate TerminalRunPending(wf: Workflow, seen: seq<Millis>) { exists e :: e in seen && Eligible(wf, e) }

  function MinInterval(wf: Workflow, seen: seq<Millis>, poll: Millis): Millis {
    if Unprocessed(wf) || TerminalRunPending(wf, seen) then WEBHOOK_INTERVAL else poll
  }

  predicate OnCooldown(wf: Workflow, seen: seq<Millis>, checked: Millis, poll: Millis) {
    wf.lastRunAt.Some? && checked < wf.lastRunAt.value + MinInterval(wf, seen, poll)
  }

  // ----------------------------------------------------------------------- the machine

  /** Claim: a reconcile that read version read and the endings seen, checked the cooldown, stamped
      and now patches. Report: any other writer of the last run, the worker's outcome included. */
  datatype Event =
    | Pass(ms: Millis)
    | RunEnds(at: Millis)
    | Wake(revision: string)
    | Clear
    | Gate(gated: bool)
    | Report(stamp: Millis, processed: Option<string>)
    | Claim(read: nat, seen: seq<Millis>, checked: Millis, stamp: Millis)

  function Latest(s: State): Workflow
    requires s.versions != []
  {
    s.versions[|s.versions| - 1].wf
  }

  predicate Enabled(s: State, e: Event) {
    s.versions != [] &&
    match e
    case RunEnds(at) => at <= s.now
    case Report(stamp, _) => s.versions[|s.versions| - 1].at <= stamp <= s.now
    case Claim(read, seen, checked, stamp) =>
      read < |s.versions| && s.versions[read].at <= checked <= stamp <= s.now && forall at :: at in seen ==> at in s.endings && at <= checked
    case _ => true
  }

  function Commit(s: State, wf: Workflow): State { s.(versions := s.versions + [Version(wf, s.now)]) }

  /** The patch carries the version it read: any newer one refuses it. */
  predicate Wins(s: State, e: Event, poll: Millis) {
    && e.Claim? && Enabled(s, e) && e.read == |s.versions| - 1
    && !OnCooldown(s.versions[e.read].wf, e.seen, e.checked, poll)
  }

  function Next(s: State, e: Event, poll: Millis): State
    requires Enabled(s, e)
  {
    match e
    case Pass(ms) => s.(now := s.now + ms)
    case RunEnds(at) => s.(endings := s.endings + [at])
    case Wake(revision) => Commit(s, Latest(s).(annotation := revision))
    case Clear => Commit(s, Latest(s).(annotation := ""))
    case Gate(gated) => Commit(s, Latest(s).(gated := gated))
    case Report(stamp, processed) =>
      Commit(s, Latest(s).(lastRunAt := Some(Stored(stamp)), processed := if processed.Some? then processed.value else Latest(s).processed))
    case Claim(read, seen, checked, stamp) =>
      if Wins(s, e, poll)
      then Commit(s, Latest(s).(lastRunAt := Some(Stored(stamp)))).(wins := s.wins + [Win(|s.versions|, Latest(s), seen, checked, stamp)])
      else s
  }

  ghost predicate IsRun(s: State, run: seq<Event>, poll: Millis)
  {
    run != [] ==> IsRun(s, run[..|run| - 1], poll) && Enabled(Exec(s, run[..|run| - 1], poll), run[|run| - 1])
  }

  ghost function Exec(s: State, run: seq<Event>, poll: Millis): State {
    if run == [] then s
    else
      var before := Exec(s, run[..|run| - 1], poll);
      if Enabled(before, run[|run| - 1]) then Next(before, run[|run| - 1], poll) else before
  }

  // ----------------------------------------------------------------------- invariants

  predicate NotLater(a: Option<Millis>, b: Option<Millis>) { a.Some? ==> b.Some? && a.value <= b.value }

  /** Versions are committed in time order, and their last-run stamps, whole seconds not in the
      future of the commit, never go back. */
  ghost predicate Ordered(s: State) {
    && s.versions != []
    && (forall i :: 0 <= i < |s.versions| ==> VersionOk(s.versions[i], s.now))
    && (forall i, j :: 0 <= i <= j < |s.versions| ==> NotLater(s.versions[i].wf.lastRunAt, s.versions[j].wf.lastRunAt))
  }

  predicate VersionOk(v: Version, now: Millis) {
    v.at <= now && (v.wf.lastRunAt.Some? ==> v.wf.lastRunAt.value <= v.at && v.wf.lastRunAt.value % SECOND == 0)
  }

  predicate WinOk(s: State, w: Win, poll: Millis) {
    && 0 < w.version < |s.versions| && s.versions[w.version - 1].wf == w.from
    && s.versions[w.version].wf.lastRunAt == Some(Stored(w.stamp))
    && !OnCooldown(w.from, w.seen, w.checked, poll) && w.checked <= w.stamp
    && (forall e :: e in w.seen ==> e <= w.checked)
  }

  ghost predicate WinsOk(s: State, poll: Millis) {
    && (forall i :: 0 <= i < |s.wins| ==> WinOk(s, s.wins[i], poll))
    && (forall i, j :: 0 <= i < j < |s.wins| ==> s.wins[i].version < s.wins[j].version)
  }

  ghost predicate Inv(s: State, poll: Millis) { Ordered(s) && WinsOk(s, poll) }

  lemma StoredIsFloor(a: Millis, t: Millis)
    ensures Stored(t) <= t < Stored(t) + SECOND && Stored(t) % SECOND == 0
    ensures a % SECOND == 0 && a <= t ==> a <= Stored(t)
  {
    if a % SECOND == 0 && a <= t {
      assert t / SECOND >= a / SECOND;
      assert Stored(t) == SECOND * (t / SECOND);
    }
  }

  lemma CommitKeepsOrder(s: State, wf: Workflow, stamp: Millis)
    requires Ordered(s) && (wf.lastRunAt == Latest(s).lastRunAt || (wf.lastRunAt == Some(Stored(stamp)) && s.versions[|s.versions| - 1].at <= stamp <= s.now))
    ensures Ordered(Commit(s, wf))
  {
    var last := s.versions[|s.versions| - 1];
    assert VersionOk(last, s.now);
    StoredIsFloor(if last.wf.lastRunAt.Some? then last.wf.lastRunAt.value else 0, stamp);
    var s' := Commit(s, wf);
    forall i, j | 0 <= i <= j < |s'.versions| ensures NotLater(s'.versions[i].wf.lastRunAt, s'.versions[j].wf.lastRunAt) {
      if i < j == |s.versions| { assert NotLater(s.versions[i].wf.lastRunAt, last.wf.lastRunAt); }
    }
  }

  lemma CommitKeepsWins(s: State, wf: Workflow, poll: Millis)
    requires WinsOk(s, poll)
    ensures WinsOk(Commit(s, wf), poll)
  {
    forall i | 0 <= i < |s.wins| ensures WinOk(Commit(s, wf), s.wins[i], poll) { assert WinOk(s, s.wins[i], poll); }
  }

  lemma StepKeeps(s: State, e: Event, poll: Millis)
    requires Inv(s, poll) && Enabled(s, e)
    ensures Inv(Next(s, e, poll), poll)
  {
    var s' := Next(s, e, poll);
    if e.Pass? {
      forall i | 0 <= i < |s.versions| ensures VersionOk(s'.versions[i], s'.now) { assert VersionOk(s.versions[i], s.now); }
      forall i | 0 <= i < |s.wins| ensures WinOk(s', s'.wins[i], poll) { assert WinOk(s, s.wins[i], poll); }
    } else if e.RunEnds? {
      forall i | 0 <= i < |s.wins| ensures WinOk(s', s'.wins[i], poll) { assert WinOk(s, s.wins[i], poll); }
    } else if e.Claim? {
      if Wins(s, e, poll) { WinKeeps(s, e, poll); }
    } else {
      var wf := s'.versions[|s.versions|].wf;
      CommitKeepsOrder(s, wf, if e.Report? then e.stamp else 0);
      CommitKeepsWins(s, wf, poll);
    }
  }

  lemma WinKeeps(s: State, e: Event, poll: Millis)
    requires Inv(s, poll) && Wins(s, e, poll)
    ensures Inv(Next(s, e, poll), poll)
  {
    var wf := Latest(s).(lastRunAt := Some(Stored(e.stamp)));
    CommitKeepsOrder(s, wf, e.stamp);
    CommitKeepsWins(s, wf, poll);
    var s', c := Next(s, e, poll), Commit(s, wf);
    forall i | 0 <= i < |s'.wins| ensures WinOk(s', s'.wins[i], poll) && (i < |s.wins| ==> s'.wins[i].version < |s.versions|) {
      if i < |s.wins| { assert WinOk(c, s.wins[i], poll) && WinOk(s, s.wins[i], poll); }
    }
  }

  lemma {:induction false} InvHolds(s: State, run: seq<Event>, poll: Millis)
    requires Inv(s, poll) && IsRun(s, run, poll)
    ensures Inv(Exec(s, run, poll), poll)
  {
    hide Inv, Enabled, Next;
    if run != [] {
      InvHolds(s, run[..|run| - 1], poll);
      StepKeeps(Exec(s, run[..|run| - 1], poll), run[|run| - 1], poll);
    }
  }

  // -------------------------------------------------------------------------- theorems

  /** A later win read a last run no older than the earlier win's stamp. */
  lemma LaterReads(s: State, poll: Millis, i: nat, j: nat)
    requires Inv(s, poll) && i < j < |s.wins|
    ensures var a, b := s.wins[i], s.wins[j];
      && b.from.lastRunAt.Some? && Stored(a.stamp) <= b.from.lastRunAt.value
      && b.from.lastRunAt.value + MinInterval(b.from, b.seen, poll) <= b.checked <= b.stamp
  {
    var a, b := s.wins[i], s.wins[j];
    assert WinOk(s, a, poll) && WinOk(s, b, poll);
    assert NotLater(s.versions[a.version].wf.lastRunAt, s.versions[b.version - 1].wf.lastRunAt);
  }

  /** Any two won slots, whatever was read stale, are at least the webhook interval apart between
      one's stamp and the other's stored anchor, and at least the poll interval unless the later
      read saw an unprocessed wake or a pending terminal run; as instants they may be up to a second
      closer, as stored whole seconds they are not. */
  lemma WonSlotsApart(s: State, run: seq<Event>, poll: Millis, i: nat, j: nat)
    requires Inv(s, poll) && IsRun(s, run, poll) && i < j < |Exec(s, run, poll).wins|
    ensures var a, b := Exec(s, run, poll).wins[i], Exec(s, run, poll).wins[j];
      var gap := if Unprocessed(b.from) || TerminalRunPending(b.from, b.seen) then WEBHOOK_INTERVAL else poll;
      && b.stamp - Stored(a.stamp) >= gap
      && b.stamp - a.stamp > gap - SECOND
      && (gap % SECOND == 0 ==> Stored(b.stamp) - Stored(a.stamp) >= gap)
  {
    hide Stored, Exec, IsRun, Inv, Unprocessed, TerminalRunPending;
    var end := Exec(s, run, poll);
    InvHolds(s, run, poll);
    LaterReads(end, poll, i, j);
    GapBetween(end.wins[i].stamp, end.wins[j].stamp, MinInterval(end.wins[j].from, end.wins[j].seen, poll));
  }

  lemma GapBetween(a: Millis, b: Millis, gap: Millis)
    requires Stored(a) + gap <= b
    ensures b - a > gap - SECOND && (gap % SECOND == 0 ==> Stored(b) - Stored(a) >= gap)
  {
    hide Stored;
    StoredIsFloor(0, a);
    if gap % SECOND == 0 { StoredIsFloor(Stored(a) + gap, b); }
  }

  const WOKEN := State(0, [Version(Workflow("a", "", None, false), 0)], [], [])

  const NINE_SECONDS := [Pass(1999), Claim(0, [], 1999, 1999), Pass(9001), Claim(1, [], 11000, 11000)]

  /** The missing second is real: two wins nine seconds and one millisecond apart. */
  lemma SubSecondGap(poll: Millis)
    requires poll >= WEBHOOK_INTERVAL
    ensures Inv(WOKEN, poll) && IsRun(WOKEN, NINE_SECONDS, poll)
    ensures var wins := Exec(WOKEN, NINE_SECONDS, poll).wins; |wins| == 2 && wins[1].stamp - wins[0].stamp == 9001 < WEBHOOK_INTERVAL
  {
    var e1, e2, e3, e4 := Pass(1999), Claim(0, [], 1999, 1999), Pass(9001), Claim(1, [], 11000, 11000);
    var w0, w1 := Workflow("a", "", None, false), Workflow("a", "", Some(1000), false);
    var s1 := WOKEN.(now := 1999);
    var s2 := State(1999, [Version(w0, 0), Version(w1, 1999)], [], [Win(1, w0, [], 1999, 1999)]);
    var s3 := s2.(now := 11000);
    assert Next(WOKEN, e1, poll) == s1;
    assert Unprocessed(w0) && Unprocessed(w1) && Wins(s1, e2, poll) && Next(s1, e2, poll) == s2;
    assert Next(s2, e3, poll) == s3 && Wins(s3, e4, poll);
    FourSteps(WOKEN, e1, e2, e3, e4, poll);
  }

  lemma FourSteps(s: State, e1: Event, e2: Event, e3: Event, e4: Event, poll: Millis)
    requires Enabled(s, e1) && Enabled(Next(s, e1, poll), e2) && Enabled(Next(Next(s, e1, poll), e2, poll), e3)
    requires Enabled(Next(Next(Next(s, e1, poll), e2, poll), e3, poll), e4)
    ensures IsRun(s, [e1, e2, e3, e4], poll)
    ensures Exec(s, [e1, e2, e3, e4], poll) == Next(Next(Next(Next(s, e1, poll), e2, poll), e3, poll), e4, poll)
  {
    hide *;
    var s1 := Next(s, e1, poll);
    NoEvents(s, poll);
    Extend(s, [], s, e1, poll);
    assert [] + [e1] == [e1];
    Extend(s, [e1], s1, e2, poll);
    assert [e1] + [e2] == [e1, e2];
    Extend(s, [e1, e2], Next(s1, e2, poll), e3, poll);
    assert [e1, e2] + [e3] == [e1, e2, e3];
    Extend(s, [e1, e2, e3], Next(Next(s1, e2, poll), e3, poll), e4, poll);
    assert [e1, e2, e3] + [e4] == [e1, e2, e3, e4];
  }

  lemma NoEvents(s: State, poll: Millis)
    ensures IsRun(s, [], poll) && Exec(s, [], poll) == s
  {
  }

  lemma Extend(s: State, run: seq<Event>, t: State, e: Event, poll: Millis)
    requires IsRun(s, run, poll) && Exec(s, run, poll) == t && Enabled(t, e)
    ensures IsRun(s, run + [e], poll) && Exec(s, run + [e], poll) == Next(t, e, poll)
  {
    Unfold(s, run, e, poll);
  }

  lemma Unfold(s: State, run: seq<Event>, e: Event, poll: Millis)
    ensures IsRun(s, run + [e], poll) <==> IsRun(s, run, poll) && Enabled(Exec(s, run, poll), e)
    ensures Enabled(Exec(s, run, poll), e) ==> Exec(s, run + [e], poll) == Next(Exec(s, run, poll), e, poll)
  {
    assert (run + [e])[..|run|] == run;
  }

  /** Each terminal run makes at most one won slot eligible. */
  lemma RunWakesOnce(s: State, run: seq<Event>, poll: Millis, i: nat, j: nat, ended: Millis)
    requires Inv(s, poll) && IsRun(s, run, poll) && i < j < |Exec(s, run, poll).wins|
    requires var a := Exec(s, run, poll).wins[i]; ended in a.seen && Eligible(a.from, ended)
    ensures !Eligible(Exec(s, run, poll).wins[j].from, ended)
  {
    var end := Exec(s, run, poll);
    var a := end.wins[i];
    InvHolds(s, run, poll);
    LaterReads(end, poll, i, j);
    assert WinOk(end, a, poll);
    StoredIsFloor(0, ended);
    StoredIsFloor(Stored(ended), a.stamp);
  }

  lemma {:induction false} LastRunNeverGoesBack(s: State, run: seq<Event>, poll: Millis)
    requires Inv(s, poll) && IsRun(s, run, poll)
    ensures Exec(s, run, poll).versions != [] && s.versions != [] && s.versions <= Exec(s, run, poll).versions
    ensures NotLater(Latest(s).lastRunAt, Latest(Exec(s, run, poll)).lastRunAt)
  {
    if run != [] {
      var init := run[..|run| - 1];
      LastRunNeverGoesBack(s, init, poll);
    }
    InvHolds(s, run, poll);
    var end := Exec(s, run, poll);
    assert end.versions[|s.versions| - 1] == s.versions[|s.versions| - 1];
  }

  /** A run that ended no later than the second of the last dispatch never makes a slot eligible:
      one completing within the very second of the stamp waits for the poll. */
  lemma PassedRunNeverWakes(s: State, run: seq<Event>, poll: Millis, ended: Millis)
    requires Inv(s, poll) && IsRun(s, run, poll)
    requires Latest(s).lastRunAt.Some? && Stored(ended) <= Latest(s).lastRunAt.value
    ensures Exec(s, run, poll).versions != [] && !Eligible(Latest(Exec(s, run, poll)), ended)
  {
    LastRunNeverGoesBack(s, run, poll);
  }

  /** The i-th event is a claim that read the newest version there was. */
  ghost predicate ReadsNewest(s: State, run: seq<Event>, i: nat, poll: Millis) {
    i < |run| && run[i].Claim? && run[i].read == |Exec(s, run[..i], poll).versions| - 1
  }

  /** A workflow never dispatched, and reported by nobody else, is won exactly if some claim reads the
      object unchanged; the first to do so makes the first win, whatever else was written. */
  lemma FirstDispatchWins(s: State, run: seq<Event>, poll: Millis)
    requires s.versions != [] && Latest(s).lastRunAt.None? && IsRun(s, run, poll) && forall e :: e in run ==> !e.Report?
    ensures Exec(s, run, poll).wins == s.wins <==> forall i :: 0 <= i < |run| ==> !ReadsNewest(s, run, i, poll)
    ensures forall i :: 0 <= i < |run| && ReadsNewest(s, run, i, poll) && (forall j :: 0 <= j < i ==> !ReadsNewest(s, run, j, poll)) ==>
      var end := Exec(s, run, poll);
      |s.wins| < |end.wins| && end.wins[|s.wins|].stamp == run[i].stamp && end.wins[|s.wins|].version == |Exec(s, run[..i], poll).versions|
  {
    hide Exec, IsRun, ReadsNewest;
    if forall i :: 0 <= i < |run| ==> !ReadsNewest(s, run, i, poll) {
      NeverStamped(s, run, poll);
    } else {
      var i: nat := FirstReader(s, run, poll);
      FirstReaderWins(s, run, poll, i);
    }
    forall i | 0 <= i < |run| && ReadsNewest(s, run, i, poll) && (forall j :: 0 <= j < i ==> !ReadsNewest(s, run, j, poll))
      ensures var end := Exec(s, run, poll);
        |s.wins| < |end.wins| && end.wins[|s.wins|].stamp == run[i].stamp && end.wins[|s.wins|].version == |Exec(s, run[..i], poll).versions|
    {
      FirstReaderWins(s, run, poll, i);
    }
  }

  lemma {:induction false} FirstReader(s: State, run: seq<Event>, poll: Millis) returns (i: nat)
    requires exists k :: 0 <= k < |run| && ReadsNewest(s, run, k, poll)
    ensures i < |run| && ReadsNewest(s, run, i, poll) && forall j :: 0 <= j < i ==> !ReadsNewest(s, run, j, poll)
  {
    i := 0;
    while !ReadsNewest(s, run, i, poll)
      invariant i < |run| && forall j :: 0 <= j < i ==> !ReadsNewest(s, run, j, poll)
      decreases |run| - i
    {
      i := i + 1;
    }
  }

  lemma FirstReaderWins(s: State, run: seq<Event>, poll: Millis, i: nat)
    requires s.versions != [] && Latest(s).lastRunAt.None? && IsRun(s, run, poll) && forall e :: e in run ==> !e.Report?
    requires ReadsNewest(s, run, i, poll) && forall j :: 0 <= j < i ==> !ReadsNewest(s, run, j, poll)
    ensures var end := Exec(s, run, poll);
      |s.wins| < |end.wins| && end.wins[|s.wins|].stamp == run[i].stamp && end.wins[|s.wins|].version == |Exec(s, run[..i], poll).versions|
  {
    hide Wins, Enabled, Next, Exec, IsRun;
    var before := Exec(s, run[..i], poll);
    RunStarts(s, run, poll, i);
    forall j | 0 <= j < i ensures !ReadsNewest(s, run[..i], j, poll) {
      assert run[..i][..j] == run[..j] && !ReadsNewest(s, run, j, poll);
    }
    NeverStamped(s, run[..i], poll);
    UnstampedStep(before, run[i], poll);
    WinStep(before, run[i], poll);
    assert run[..i + 1] == run[..i] + [run[i]];
    Unfold(s, run[..i], run[i], poll);
    WinsStay(s, run, poll, i + 1);
  }

  lemma WinStep(s: State, e: Event, poll: Millis)
    requires Wins(s, e, poll)
    ensures var wins := Next(s, e, poll).wins;
      |wins| == |s.wins| + 1 && wins[|s.wins|].stamp == e.stamp && wins[|s.wins|].version == |s.versions|
  {
  }

  /** What has been won stays won. */
  lemma {:induction false} WinsStay(s: State, run: seq<Event>, poll: Millis, k: nat)
    requires IsRun(s, run, poll) && k <= |run|
    ensures Exec(s, run[..k], poll).wins <= Exec(s, run, poll).wins
  {
    hide Enabled, Next;
    if k == |run| {
      assert run[..k] == run;
    } else {
      var init := run[..|run| - 1];
      assert init[..k] == run[..k];
      WinsStay(s, init, poll, k);
      NextKeepsWins(Exec(s, init, poll), run[|run| - 1], poll);
    }
  }

  lemma NextKeepsWins(s: State, e: Event, poll: Millis)
    requires Enabled(s, e)
    ensures s.wins <= Next(s, e, poll).wins
  {
  }

  lemma UnstampedStep(s: State, e: Event, poll: Millis)
    requires Enabled(s, e) && Latest(s).lastRunAt.None?
    ensures Wins(s, e, poll) <==> e.Claim? && e.read == |s.versions| - 1
    ensures !e.Report? && !Wins(s, e, poll) ==>
      Next(s, e, poll).versions != [] && Latest(Next(s, e, poll)).lastRunAt.None? && Next(s, e, poll).wins == s.wins
  {
  }

  lemma {:induction false} NeverStamped(s: State, run: seq<Event>, poll: Millis)
    requires s.versions != [] && Latest(s).lastRunAt.None? && IsRun(s, run, poll)
    requires forall j :: 0 <= j < |run| ==> !run[j].Report? && !ReadsNewest(s, run, j, poll)
    ensures var end := Exec(s, run, poll); end.versions != [] && Latest(end).lastRunAt.None? && end.wins == s.wins
  {
    hide Wins, Enabled, Next;
    if run != [] {
      var k := |run| - 1;
      forall j | 0 <= j < k ensures !ReadsNewest(s, run[..k], j, poll) {
        assert run[..k][..j] == run[..j] && !ReadsNewest(s, run, j, poll);
      }
      NeverStamped(s, run[..k], poll);
      assert !ReadsNewest(s, run, k, poll);
      UnstampedStep(Exec(s, run[..k], poll), run[k], poll);
    }
  }

  lemma {:induction false} RunStarts(s: State, run: seq<Event>, poll: Millis, k: nat)
    requires IsRun(s, run, poll) && k <= |run|
    ensures IsRun(s, run[..k], poll)
    ensures k < |run| ==> Enabled(Exec(s, run[..k], poll), run[k])
  {
    hide Enabled, Next;
    if k < |run| {
      RunStarts(s, run[..|run| - 1], poll, k);
      assert run[..|run| - 1][..k] == run[..k];
    } else {
      assert run[..k] == run;
    }
  }

  // -------------------------------------------------------------------------- wakes

  /** The events that write the annotation. */
  predicate Speaks(e: Event) { e.Wake? || e.Clear? }

  function LastWord(run: seq<Event>): (k: int)
    ensures -1 <= k < |run|
    ensures k >= 0 ==> Speaks(run[k])
    ensures forall j :: k < j < |run| ==> !Speaks(run[j])
  {
    if run == [] then -1 else if Speaks(run[|run| - 1]) then |run| - 1 else LastWord(run[..|run| - 1])
  }

  lemma AnnotationStep(s: State, e: Event, poll: Millis)
    requires Enabled(s, e)
    ensures Next(s, e, poll).versions != []
    ensures Latest(Next(s, e, poll)).annotation == if e.Wake? then e.revision else if e.Clear? then "" else Latest(s).annotation
  {
  }

  /** After any run the annotation is what the last wake or clear wrote, whoever won or reported in
      between. */
  lemma {:induction false} AnnotationIsTheLastWord(s: State, run: seq<Event>, poll: Millis)
    requires s.versions != [] && IsRun(s, run, poll)
    ensures var k, end := LastWord(run), Exec(s, run, poll);
      && end.versions != []
      && Latest(end).annotation == if k < 0 then Latest(s).annotation else if run[k].Wake? then run[k].revision else ""
  {
    hide Enabled, Next;
    if run != [] {
      AnnotationIsTheLastWord(s, run[..|run| - 1], poll);
      AnnotationStep(Exec(s, run[..|run| - 1], poll), run[|run| - 1], poll);
    }
  }

  /** A wake whose revision no later wake repeats still stands if and only if nobody cleared or
      overwrote it: no claim and no report takes it back. */
  lemma WakeSurvives(s: State, run: seq<Event>, poll: Millis, i: nat)
    requires s.versions != [] && IsRun(s, run, poll) && i < |run| && run[i].Wake? && run[i].revision != ""
    requires forall j :: i < j < |run| && run[j].Wake? ==> run[j].revision != run[i].revision
    ensures Exec(s, run, poll).versions != []
    ensures Latest(Exec(s, run, poll)).annotation == run[i].revision <==> forall j :: i < j < |run| ==> !Speaks(run[j])
  {
    AnnotationIsTheLastWord(s, run, poll);
    if forall j :: i < j < |run| ==> !Speaks(run[j]) { assert LastWord(run) == i; }
  }

  /** The winner's clear takes whatever stands on the object: a newer wake that arrived since the
      winning read is removed without having been published or processed. */
  lemma NewerWakeIsSwallowed(a: string, b: string, poll: Millis)
    requires a != "" && b != "" && a != b
    ensures var s := State(0, [Version(Workflow(a, "", None, false), 0)], [], []);
      var run := [Claim(0, [], 0, 0), Wake(b), Clear];
      var end := Exec(s, run, poll);
      && Inv(s, poll) && IsRun(s, run, poll) && |end.wins| == 1 && end.wins[0].from.annotation == a
      && Latest(end).annotation == "" && Latest(end).processed != b
  {
    var w0, w1 := Workflow(a, "", None, false), Workflow(a, "", Some(0), false);
    var s := State(0, [Version(w0, 0)], [], []);
    var e1, e2, e3 := Claim(0, [], 0, 0), Wake(b), Clear;
    var s1 := State(0, [Version(w0, 0), Version(w1, 0)], [], [Win(1, w0, [], 0, 0)]);
    assert Wins(s, e1, poll) && Next(s, e1, poll) == s1;
    assert [] + [e1] == [e1] && [e1] + [e2] == [e1, e2] && [e1, e2] + [e3] == [e1, e2, e3];
    Unfold(s, [], e1, poll);
    Unfold(s, [e1], e2, poll);
    Unfold(s, [e1, e2], e3, poll);
    hide Exec, IsRun, Wins, OnCooldown;
  }

  // ------------------------------------------------------------------ due, and the slot

  const MANUAL_PREFIX := "manual-"

  datatype Reason = Manual | Webhook | SpecChanged | Schedule

  function DueReason(wf: Workflow, specChanged: bool): Reason {
    if wf.annotation != "" then (if MANUAL_PREFIX <= wf.annotation then Manual else Webhook)
    else if specChanged then SpecChanged
    else Schedule
  }

  /** The published reason and the slot's own test are not the same: they agree exactly when a
      manual wake is one already processed, and a pushed one is not. */
  lemma ReasonIsNotTheSlotTest(wf: Workflow, specChanged: bool)
    ensures (DueReason(wf, specChanged) == Webhook <==> Unprocessed(wf))
      <==> (wf.annotation == "" || (MANUAL_PREFIX <= wf.annotation <==> wf.annotation == wf.processed))
  {
  }

  datatype Source = WebhookOnly | Cron(nextActivation: Option<Millis>) | Interval

  const INVALID_SCHEDULE_RETRY: Millis := 300000
  const MIN_SCHEDULE_REQUEUE: Millis := 60000

  /** Whether a run is due, and when to look again. A cron without a next activation is unreadable. */
  function IsDue(wf: Workflow, specChanged: bool, armed: bool, source: Source, poll: Millis, now: Millis): (bool, Millis) {
    if Unprocessed(wf) then (true, 0)
    else if specChanged || (wf.gated && armed) then (true, poll)
    else
      match source
      case WebhookOnly => (false, poll)
      case Cron(next) =>
        if next.None? then (false, INVALID_SCHEDULE_RETRY)
        else if next.value > now then (false, if next.value - now > MIN_SCHEDULE_REQUEUE then next.value - now else MIN_SCHEDULE_REQUEUE)
        else (true, poll)
      case Interval =>
        if wf.lastRunAt.Some? && now - wf.lastRunAt.value < poll then (false, poll - (now - wf.lastRunAt.value)) else (true, poll)
  }

  /** When a reconcile that publishes nothing is called again. */
  function Requeue(due: (bool, Millis), terminalWake: bool, poll: Millis): Millis {
    var wait := if terminalWake then 0 else due.1;
    if due.0 || terminalWake then (if wait == 0 then WEBHOOK_INTERVAL else wait) else due.1
  }

  /** No reconcile spins, and on a plain interval one that is not due looks again no later than the
      slot's poll cooldown ends. */
  lemma RequeuesLater(wf: Workflow, specChanged: bool, armed: bool, source: Source, poll: Millis, now: Millis, terminalWake: bool)
    requires poll > 0 && (wf.lastRunAt.Some? ==> wf.lastRunAt.value <= now)
    ensures Requeue(IsDue(wf, specChanged, armed, source, poll, now), terminalWake, poll) > 0
    ensures source == Interval && !IsDue(wf, specChanged, armed, source, poll, now).0 ==>
      var later := now + IsDue(wf, specChanged, armed, source, poll, now).1;
      OnCooldown(wf, [], now, poll) && !OnCooldown(wf, [], later, poll) && IsDue(wf, specChanged, armed, source, poll, later).0
  {
  }

  /** b is a without anything taken back. */
  predicate Later(a: State, b: State) { a.now <= b.now && a.versions <= b.versions && a.endings <= b.endings }

  const BACKOFF_STEPS: nat := 4

  /** The object on the API server, with every other writer at work between our calls. */
  class WorkflowStore {
    const poll: Millis
    const start: State
    var state: State
    ghost var log: seq<Event>

    ghost predicate Valid()
      reads this
    {
      Inv(start, poll) && IsRun(start, log, poll) && state == Exec(start, log, poll) && Inv(state, poll)
    }

    constructor (s: State, poll: Millis)
      requires Inv(s, poll)
      ensures Valid() && this.poll == poll && start == s && log == []
    {
      this.poll, start, state, log := poll, s, s, [];
    }

    method Perform(e: Event)
      requires Valid() && Enabled(state, e)
      modifies this
      ensures Valid() && log == old(log) + [e] && state == Next(old(state), e, poll)
    {
      Unfold(start, log, e, poll);
      StepKeeps(state, e, poll);
      state := Next(state, e, poll);
      log := log + [e];
    }

    /** Any number of anybody else's events. */
    method Others()
      modifies this
      requires Valid()
      ensures Valid() && old(log) <= log && Later(old(state), state)
    {
      var n :| 0 <= n;
      for i := 0 to n
        invariant Valid() && old(log) <= log && Later(old(state), state)
      {
        var e: Event := *;
        if Enabled(state, e) { Perform(e); }
      }
    }

    /** One read, check, stamp and patch; others may write between any two. e: what was read and when
        it was checked. Not won, the version read was on cooldown, or the patch met a newer one. */
    method TryClaim(endings: seq<Millis>) returns (won: bool, conflict: bool, ghost e: Event)
      requires Valid()
      modifies this
      ensures Valid() && old(log) <= log && !(won && conflict) && e.Claim? && e.read < |state.versions|
      ensures won ==> old(log) < log && log[|log| - 1] == e && WonBy(|log| - 1)
      ensures conflict ==> e.read < |state.versions| - 1
      ensures !won && !conflict ==> OnCooldown(state.versions[e.read].wf, e.seen, e.checked, poll)
    {
      hide *;
      Others();
      VersionsOk();
      var k: nat :| k < |state.versions|;
      var seen := Observed(endings, state.endings, state.now);
      var wf, checked := state.versions[k].wf, state.now;
      ghost var read := state;
      e := Claim(k, seen, checked, checked);
      if OnCooldown(wf, seen, checked, poll) { return false, false, e; }
      Others();
      var stamp := state.now;
      ghost var stamped := state;
      Others();
      e := Claim(k, seen, checked, stamp);
      ReadIsOld(read, stamped, state, k);
      if k != |state.versions| - 1 { return false, true, e; }
      WinsNow(read, state, k, seen, checked, stamp, poll);
      PatchSlot(k, seen, checked, stamp);
      return true, false, e;
    }

    lemma VersionsOk()
      requires Valid()
      ensures state.versions != [] && forall k :: 0 <= k < |state.versions| ==> state.versions[k].at <= state.now
    {
      hide Exec, IsRun, WinsOk;
      forall k | 0 <= k < |state.versions| ensures state.versions[k].at <= state.now { assert VersionOk(state.versions[k], state.now); }
    }

    /** What was read is still there, and time has not gone back. */
    static lemma ReadIsOld(a: State, b: State, c: State, k: nat)
      requires Later(a, b) && Later(b, c) && k < |a.versions|
      ensures Later(a, c) && a.now <= b.now <= c.now && k < |c.versions| && c.versions[k] == a.versions[k]
    {
    }

    static lemma WinsNow(a: State, s: State, k: nat, seen: seq<Millis>, checked: Millis, stamp: Millis, poll: Millis)
      requires Later(a, s) && k == |s.versions| - 1 < |a.versions| && s.versions[k].at <= checked == a.now <= stamp <= s.now
      requires !OnCooldown(s.versions[k].wf, seen, checked, poll) && forall e :: e in seen ==> e in a.endings && e <= checked
      ensures Wins(s, Claim(k, seen, checked, stamp), poll)
    {
      hide OnCooldown;
      assert forall e :: e in a.endings ==> e in s.endings;
    }

    /** The patch meets the version it was made from. */
    method PatchSlot(k: nat, seen: seq<Millis>, checked: Millis, stamp: Millis)
      requires Valid() && Wins(state, Claim(k, seen, checked, stamp), poll)
      modifies this
      ensures Valid() && log == old(log) + [Claim(k, seen, checked, stamp)] && WonBy(|log| - 1)
      ensures state.versions != [] && k < |state.versions|
    {
      hide IsRun, Exec, OnCooldown;
      ghost var before := log;
      assert state == Exec(start, before, poll);
      Perform(Claim(k, seen, checked, stamp));
      assert log[..|log| - 1] == before;
    }

    /** The event at this position of the log won the slot. */
    ghost predicate WonBy(i: nat)
      reads this
    {
      i < |log| && Wins(Exec(start, log[..i], poll), log[i], poll)
    }

    /** Claims the slot, retrying on a conflict: won by the log's last event, lost to the cooldown of
        the version last read, or failed after that many conflicts. */
    method ClaimTriggerSlot(endings: seq<Millis>) returns (won: bool, failed: bool, ghost e: Event)
      requires Valid()
      modifies this
      ensures Valid() && old(log) <= log && !(won && failed) && e.Claim? && e.read < |state.versions|
      ensures won ==> old(log) < log && log[|log| - 1] == e && WonBy(|log| - 1)
      ensures !won && !failed ==> OnCooldown(state.versions[e.read].wf, e.seen, e.checked, poll)
      ensures failed ==> e.read < |state.versions| - 1
    {
      e := Clear;
      for tries := 0 to BACKOFF_STEPS
        invariant Valid() && old(log) <= log
        invariant tries > 0 ==> e.Claim? && e.read < |state.versions| - 1
      {
        hide *;
        var conflict;
        won, conflict, e := TryClaim(endings);
        if !conflict { return won, false, e; }
      }
      return false, true, e;
    }

    /** The recorded endings among those asked for. */
    static method Observed(wanted: seq<Millis>, recorded: seq<Millis>, now: Millis) returns (seen: seq<Millis>)
      ensures forall e :: e in seen ==> e in recorded && e <= now
    {
      seen := [];
      for i := 0 to |wanted|
        invariant forall e :: e in seen ==> e in recorded && e <= now
      {
        if wanted[i] in recorded && wanted[i] <= now { seen := seen + [wanted[i]]; }
      }
    }
  }
}
