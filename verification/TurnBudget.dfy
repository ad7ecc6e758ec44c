/** The turn-budget decision machine (extensions/turn-budget/policy.ts): loop breaker, wall margins
    and the numeric cap, over any sequence of calls. */
module TurnBudget {
  import opened Prelude

  type Millis = int

  const STAGNATION_THRESHOLD: nat := 4
  const STAGNATION_MAX_FIRES: nat := 2

  /** One tool call: the arguments the lane looks at, and its fingerprint over all arguments. */
  datatype Call = Call(tool: string, command: string, path: string, filePath: string, fingerprint: string)

  /** budget and nudgeAt: 0 when unset; margins and wall in seconds. */
  datatype Options = Options(
    lanes: seq<string>, budget: nat, nudgeAt: nat, loopBreaker: bool, wall: nat, runStarted: Option<Millis>, convergeMargin: nat, finalizeMargin: nat)

  datatype Decision = Allow | LoopRefusal | Stagnation | FinalizeOnly | Converge | CountCheckpoint | Exhausted

  datatype Budget = Budget(
    seen: set<string>, loopStreak: nat, stagnationFired: nat, wallConverged: bool, startedAt: Option<Millis>, executed: nat, nudged: bool)

  const NEW_BUDGET := Budget({}, 0, 0, false, None, 0, false)

  // ----------------------------------------------------------------------------- lane

  /** A file tool, or a call whose command or path names an allowed substring. */
  predicate InLane(c: Call, o: Options) {
    c.tool in {"write", "edit"} || exists s :: s in o.lanes && (Contains(c.command, s) || Contains(c.path, s) || Contains(c.filePath, s))
  }

  // ------------------------------------------------------------------------- decisions

  predicate WallArmed(o: Options) { o.loopBreaker && o.wall > 0 }

  function Anchored(b: Budget, o: Options, now: Millis): Budget {
    if WallArmed(o) && b.startedAt.None? then b.(startedAt := Some(if o.runStarted.Some? then o.runStarted.value else now)) else b
  }

  /** Milliseconds of wall left. */
  function Remaining(b: Budget, o: Options, now: Millis): Millis
    requires b.startedAt.Some?
  {
    o.wall * 1000 - (now - b.startedAt.value)
  }

  predicate PastFinalize(b: Budget, o: Options, now: Millis) {
    WallArmed(o) && b.startedAt.Some? && Remaining(b, o, now) <= o.finalizeMargin * 1000
  }

  predicate ConvergeDue(b: Budget, o: Options, now: Millis) {
    && WallArmed(o) && b.startedAt.Some? && !PastFinalize(b, o, now)
    && Remaining(b, o, now) <= o.convergeMargin * 1000 && !b.wallConverged
  }

  predicate CountDue(b: Budget, o: Options) { o.budget > 0 && o.nudgeAt > 0 && !b.nudged && b.executed == o.nudgeAt < o.budget }

  /** What one call is told once the clock is anchored: loops first, then time, then count. */
  function Told(b: Budget, o: Options, c: Call, now: Millis): Decision {
    var lane := InLane(c, o);
    if o.loopBreaker && c.fingerprint in b.seen && !lane then
      (if b.loopStreak + 1 >= STAGNATION_THRESHOLD && b.stagnationFired < STAGNATION_MAX_FIRES then Stagnation else LoopRefusal)
    else if PastFinalize(b, o, now) && !lane then FinalizeOnly
    else if ConvergeDue(b, o, now) then Converge
    else if CountDue(b, o) then CountCheckpoint
    else if o.budget > 0 && b.executed >= o.budget && !lane then Exhausted
    else Allow
  }

  function Recorded(b: Budget, d: Decision, fingerprint: string): Budget {
    match d
    case Allow => b.(seen := b.seen + {fingerprint}, loopStreak := 0, executed := b.executed + 1)
    case LoopRefusal => b.(loopStreak := b.loopStreak + 1)
    case Stagnation => b.(stagnationFired := b.stagnationFired + 1, loopStreak := 0)
    case Converge => b.(wallConverged := true)
    case CountCheckpoint => b.(nudged := true)
    case _ => b
  }

  function Verdict(b: Budget, o: Options, c: Call, now: Millis): Decision { Told(Anchored(b, o, now), o, c, now) }

  function After(b: Budget, o: Options, c: Call, now: Millis): Budget {
    Recorded(Anchored(b, o, now), Verdict(b, o, c, now), c.fingerprint)
  }

  /** The caller's state, changed in place by each decision. */
  class BudgetState {
    var seen: set<string>
    var loopStreak: nat
    var stagnationFired: nat
    var wallConverged: bool
    var startedAt: Option<Millis>
    var executed: nat
    var nudged: bool

    function View(): Budget
      reads this
    {
      Budget(seen, loopStreak, stagnationFired, wallConverged, startedAt, executed, nudged)
    }

    constructor ()
      ensures View() == NEW_BUDGET
    {
      seen, loopStreak, stagnationFired, wallConverged, startedAt, executed, nudged := {}, 0, 0, false, None, 0, false;
    }

    method Decide(c: Call, o: Options, now: Millis) returns (d: Decision)
      modifies this
      ensures d == Verdict(old(View()), o, c, now) && View() == After(old(View()), o, c, now)
    {
      if o.loopBreaker && o.wall > 0 && startedAt == None {
        startedAt := Some(if o.runStarted.Some? then o.runStarted.value else now);
      }
      hide Told, Recorded;
      d := Judge(c, o, now);
    }

    method Judge(c: Call, o: Options, now: Millis) returns (d: Decision)
      requires WallArmed(o) ==> startedAt.Some?
      modifies this
      ensures d == Told(old(View()), o, c, now) && View() == Recorded(old(View()), d, c.fingerprint)
    {
      var lane := InLane(c, o);
      hide InLane;
      if o.loopBreaker && c.fingerprint in seen && !lane {
        loopStreak := loopStreak + 1;
        if loopStreak >= STAGNATION_THRESHOLD && stagnationFired < STAGNATION_MAX_FIRES {
          stagnationFired, loopStreak := stagnationFired + 1, 0;
          return Stagnation;
        }
        return LoopRefusal;
      }
      if o.loopBreaker && o.wall > 0 && startedAt.Some? {
        var remaining := o.wall * 1000 - (now - startedAt.value);
        if remaining <= o.finalizeMargin * 1000 {
          if !lane { return FinalizeOnly; }
        } else if remaining <= o.convergeMargin * 1000 && !wallConverged {
          wallConverged := true;
          return Converge;
        }
      }
      if o.budget > 0 {
        if o.nudgeAt > 0 && !nudged && executed == o.nudgeAt && executed < o.budget {
          nudged := true;
          return CountCheckpoint;
        }
        if executed >= o.budget && !lane { return Exhausted; }
      }
      seen, loopStreak, executed := seen + {c.fingerprint}, 0, executed + 1;
      return Allow;
    }
  }

  // ------------------------------------------------------------------------------ sessions

  datatype Timed = Timed(call: Call, now: Millis)

  function StateAfter(o: Options, run: seq<Timed>): Budget {
    if run == [] then NEW_BUDGET
    else
      var t := run[|run| - 1];
      After(StateAfter(o, run[..|run| - 1]), o, t.call, t.now)
  }

  /** The decision on the k-th call of a session with fixed options. */
  function DecisionAt(o: Options, run: seq<Timed>, k: nat): Decision
    requires k < |run|
  {
    Verdict(StateAfter(o, run[..k]), o, run[k].call, run[k].now)
  }

  function Count(o: Options, run: seq<Timed>, d: Decision): nat {
    if run == [] then 0
    else Count(o, run[..|run| - 1], d) + if DecisionAt(o, run, |run| - 1) == d then 1 else 0
  }

  /** Calls outside the lane that were allowed. */
  function AllowedOutside(o: Options, run: seq<Timed>): nat {
    if run == [] then 0
    else
      var k := |run| - 1;
      AllowedOutside(o, run[..k]) + if DecisionAt(o, run, k) == Allow && !InLane(run[k].call, o) then 1 else 0
  }

  /** Calls in the lane that were refused. */
  function RefusedInLane(o: Options, run: seq<Timed>): nat {
    if run == [] then 0
    else
      var k := |run| - 1;
      RefusedInLane(o, run[..k]) + if DecisionAt(o, run, k) != Allow && InLane(run[k].call, o) then 1 else 0
  }

  /** A refusal leaves the memory and the count as they were. */
  lemma RefusalIsNoWork(b: Budget, o: Options, c: Call, now: Millis)
    ensures Verdict(b, o, c, now) != Allow ==> After(b, o, c, now).seen == b.seen && After(b, o, c, now).executed == b.executed
    ensures Verdict(b, o, c, now) == Allow ==> After(b, o, c, now).seen == b.seen + {c.fingerprint} && After(b, o, c, now).executed == b.executed + 1
  {
  }

  /** What each decision adds to the record, and when it can be given. */
  lemma OneDecision(b: Budget, o: Options, c: Call, now: Millis)
    ensures var d, b' := Verdict(b, o, c, now), After(b, o, c, now);
      && b'.startedAt == Anchored(b, o, now).startedAt
      && b'.executed == b.executed + (if d == Allow then 1 else 0)
      && b'.stagnationFired == b.stagnationFired + (if d == Stagnation then 1 else 0)
      && (d == Stagnation ==> b.stagnationFired < STAGNATION_MAX_FIRES)
      && b'.wallConverged == (b.wallConverged || d == Converge) && (d == Converge ==> !b.wallConverged)
      && b'.nudged == (b.nudged || d == CountCheckpoint) && (d == CountCheckpoint ==> !b.nudged)
      && (d == Allow && !InLane(c, o) && o.budget > 0 ==> b.executed < o.budget)
      && (d != Allow && InLane(c, o) ==> d == Converge || d == CountCheckpoint)
  {
    hide InLane;
  }

  /** The state is the session's own record: executed counts the allowed calls, and each one-shot
      flag the checkpoints fired. */
  lemma {:induction false} StateRecords(o: Options, run: seq<Timed>)
    ensures var b := StateAfter(o, run);
      && b.executed == Count(o, run, Allow)
      && b.stagnationFired == Count(o, run, Stagnation) <= STAGNATION_MAX_FIRES
      && Count(o, run, Converge) == (if b.wallConverged then 1 else 0)
      && Count(o, run, CountCheckpoint) == (if b.nudged then 1 else 0)
      && AllowedOutside(o, run) <= b.executed && (o.budget > 0 ==> AllowedOutside(o, run) <= o.budget)
      && RefusedInLane(o, run) <= Count(o, run, Converge) + Count(o, run, CountCheckpoint)
  {
    if run != [] {
      var k := |run| - 1;
      StateRecords(o, run[..k]);
      OneDecision(StateAfter(o, run[..k]), o, run[k].call, run[k].now);
      hide Verdict, After, InLane;
    }
  }

  /** However long the session: at most two stagnation, one wall and one count checkpoint; with a
      cap, no more calls outside the lane than the cap; and at most two calls in the lane are ever
      refused, each by a one-shot checkpoint. */
  lemma SessionBounds(o: Options, run: seq<Timed>)
    ensures Count(o, run, Stagnation) <= 2 && Count(o, run, Converge) <= 1 && Count(o, run, CountCheckpoint) <= 1
    ensures o.budget > 0 ==> AllowedOutside(o, run) <= o.budget
    ensures RefusedInLane(o, run) <= 2
  {
    StateRecords(o, run);
  }

  /** A call in the lane is refused exactly when a checkpoint still has to fire. */
  lemma LaneIsOpen(b: Budget, o: Options, c: Call, now: Millis)
    requires InLane(c, o)
    ensures Verdict(b, o, c, now) != Allow <==> ConvergeDue(Anchored(b, o, now), o, now) || CountDue(b, o)
  {
  }

  predicate AllowedBefore(o: Options, run: seq<Timed>, f: string) {
    exists i :: 0 <= i < |run| && DecisionAt(o, run, i) == Allow && run[i].call.fingerprint == f
  }

  lemma DecisionStays(o: Options, run: seq<Timed>, k: nat, i: nat)
    requires i < k <= |run|
    ensures DecisionAt(o, run[..k], i) == DecisionAt(o, run, i)
  {
    assert run[..k][..i] == run[..i];
  }

  lemma AllowedGrows(o: Options, run: seq<Timed>, f: string)
    requires run != []
    ensures var k := |run| - 1;
      AllowedBefore(o, run, f) <==> AllowedBefore(o, run[..k], f) || (DecisionAt(o, run, k) == Allow && run[k].call.fingerprint == f)
  {
    var k := |run| - 1;
    hide DecisionAt;
    forall i | 0 <= i < k ensures DecisionAt(o, run[..k], i) == DecisionAt(o, run, i) { DecisionStays(o, run, k, i); }
    if AllowedBefore(o, run[..k], f) {
      var i :| 0 <= i < k && DecisionAt(o, run[..k], i) == Allow && run[..k][i].call.fingerprint == f;
      assert DecisionAt(o, run, i) == Allow && run[i].call.fingerprint == f;
    }
  }

  /** seen holds exactly the fingerprints of the calls allowed so far. */
  lemma {:induction false} SeenIsAllowed(o: Options, run: seq<Timed>, f: string)
    ensures f in StateAfter(o, run).seen <==> AllowedBefore(o, run, f)
  {
    if run != [] {
      hide AllowedBefore, After, Verdict;
      var k := |run| - 1;
      SeenIsAllowed(o, run[..k], f);
      RefusalIsNoWork(StateAfter(o, run[..k]), o, run[k].call, run[k].now);
      AllowedGrows(o, run, f);
    }
  }

  /** With the loop breaker on, no call allowed outside the lane repeats one allowed before it. */
  lemma NoRepeatOutsideLane(o: Options, run: seq<Timed>, i: nat, j: nat)
    requires o.loopBreaker && i < j < |run|
    requires DecisionAt(o, run, i) == Allow && DecisionAt(o, run, j) == Allow && !InLane(run[j].call, o)
    ensures run[i].call.fingerprint != run[j].call.fingerprint
  {
    SeenIsAllowed(o, run[..j], run[j].call.fingerprint);
    DecisionStays(o, run, j, i);
    assert run[..j][i] == run[i];
  }

  lemma AnchorIsSet(b: Budget, o: Options, c: Call, now: Millis)
    requires WallArmed(o)
    ensures After(b, o, c, now).startedAt == Anchored(b, o, now).startedAt && Anchored(b, o, now).startedAt.Some?
    ensures b.startedAt.Some? ==> Anchored(b, o, now).startedAt == b.startedAt
  {
    OneDecision(b, o, c, now);
  }

  lemma LastCall(o: Options, run: seq<Timed>, k: nat)
    requires |run| == k + 1
    ensures StateAfter(o, run) == After(StateAfter(o, run[..k]), o, run[k].call, run[k].now)
  {
  }

  /** The anchor, once set, stays. */
  lemma {:induction false} AnchorStays(o: Options, run: seq<Timed>, i: nat)
    requires WallArmed(o) && i < |run|
    ensures StateAfter(o, run).startedAt.Some?
    ensures StateAfter(o, run).startedAt == Anchored(StateAfter(o, run[..i]), o, run[i].now).startedAt
  {
    hide *;
    var k := |run| - 1;
    LastCall(o, run, k);
    AnchorIsSet(StateAfter(o, run[..k]), o, run[k].call, run[k].now);
    if i < k {
      AnchorStays(o, run[..k], i);
      assert run[..k][..i] == run[..i];
    }
  }

  /** Once a call has found the finalize margin passed, only calls in the lane are allowed. */
  lemma PastTheMarginOnlyTheLane(o: Options, run: seq<Timed>, i: nat, j: nat)
    requires WallArmed(o) && i <= j < |run| && run[i].now <= run[j].now
    requires PastFinalize(Anchored(StateAfter(o, run[..i]), o, run[i].now), o, run[i].now)
    ensures DecisionAt(o, run, j) == Allow ==> InLane(run[j].call, o)
  {
    if i < j {
      AnchorStays(o, run[..j], i);
      assert run[..j][..i] == run[..i];
    }
  }

  // ---------------------------------------------------------------------------- fingerprints

  datatype Arg = Arg(key: string, value: string)

  function Canon(args: seq<Arg>): string {
    if args == [] then ""
    else if |args| == 1 then args[0].key + "=" + args[0].value
    else args[0].key + "=" + args[0].value + "&" + Canon(args[1..])
  }

  function IndexOf(s: string, c: char): (i: nat)
    ensures i <= |s| && (forall j :: 0 <= j < i ==> s[j] != c) && (i < |s| ==> s[i] == c)
  {
    if s == "" || s[0] == c then 0 else 1 + IndexOf(s[1..], c)
  }

  /** A key and "=" stand before any "&": the text can be read as an argument. */
  predicate Opens(t: string) { IndexOf(t, '=') < |t| && IndexOf(t, '=') < IndexOf(t, '&') }

  predicate OpensAt(t: string, i: nat) { i < |t| && t[i] == '&' && Opens(t[i + 1..]) }

  /** Where a value ends: at the first "&" that is followed by an argument. */
  function ValueEnd(t: string): (i: nat)
    ensures i <= |t| && (i < |t| ==> OpensAt(t, i)) && forall j :: 0 <= j < i ==> !OpensAt(t, j)
  {
    FirstOpening(t, 0)
  }

  function FirstOpening(t: string, from: nat): (i: nat)
    requires from <= |t|
    ensures from <= i <= |t| && (i < |t| ==> OpensAt(t, i)) && forall j :: from <= j < i ==> !OpensAt(t, j)
    decreases |t| - from
  {
    if from == |t| || OpensAt(t, from) then from else FirstOpening(t, from + 1)
  }

  /** What a text holds after its first "=". */
  function AfterKey(t: string): (x: string)
    requires IndexOf(t, '=') < |t|
    ensures |x| < |t|
  {
    t[IndexOf(t, '=') + 1..]
  }

  /** What follows a value and its "&". */
  function AfterArg(x: string): (u: string)
    ensures |u| <= |x|
  {
    if ValueEnd(x) < |x| then x[ValueEnd(x) + 1..] else ""
  }

  function FirstArg(t: string): Arg
    requires IndexOf(t, '=') < |t|
  {
    Arg(t[..IndexOf(t, '=')], AfterKey(t)[..ValueEnd(AfterKey(t))])
  }

  /** The arguments a fingerprint can be read as. */
  function Read(t: string): seq<Arg>
    decreases |t|
  {
    if IndexOf(t, '=') == |t| then [] else [FirstArg(t)] + Read(AfterArg(AfterKey(t)))
  }

  /** The value holds an "&" and, later, an "=". */
  predicate HoldsPair(v: string) { exists i, j :: 0 <= i < j < |v| && v[i] == '&' && v[j] == '=' }

  /** No "=" in a key, no "&" in a key that follows another argument, no pair in a value. */
  predicate Legible(args: seq<Arg>) {
    forall i :: 0 <= i < |args| ==>
      '=' !in args[i].key && (i > 0 ==> '&' !in args[i].key) && !HoldsPair(args[i].value)
  }

  /** What follows a value: nothing, or the separator and the remaining arguments. */
  function Following(rest: seq<Arg>): string { if rest == [] then "" else "&" + Canon(rest) }

  lemma CanonCons(args: seq<Arg>)
    requires args != []
    ensures Canon(args) == args[0].key + ("=" + (args[0].value + Following(args[1..])))
  {
  }

  lemma KeyIsRead(k: string, x: string)
    requires '=' !in k
    ensures var t := k + ("=" + x); IndexOf(t, '=') == |k| < |t| && t[..|k|] == k && t[|k| + 1..] == x
    ensures '&' !in k ==> Opens(k + ("=" + x))
  {
    var t := k + ("=" + x);
    assert t[|k|] == '=' && forall j :: 0 <= j < |k| ==> t[j] == k[j];
  }

  /** A value without a pair opens no argument inside, whatever follows; what follows it does. */
  lemma NothingOpens(v: string, rest: seq<Arg>, n: nat)
    requires !HoldsPair(v) && n < |v|
    ensures !OpensAt(v + Following(rest), n)
  {
    hide Canon;
    if v[n] == '&' {
      var m, u := |v| - n - 1, (v + Following(rest))[n + 1..];
      assert forall j :: 0 <= j < m ==> u[j] == v[n + 1 + j];
      assert rest != [] ==> u[m] == '&';
    }
  }

  lemma NextOpens(v: string, rest: seq<Arg>)
    requires rest != [] && '=' !in rest[0].key && '&' !in rest[0].key
    ensures OpensAt(v + Following(rest), |v|)
  {
    CanonCons(rest);
    KeyIsRead(rest[0].key, rest[0].value + Following(rest[1..]));
    AfterValue(v, rest);
    hide Opens, Canon;
  }

  /** A value without a pair ends where it should. */
  lemma ValueIsRead(v: string, rest: seq<Arg>)
    requires !HoldsPair(v) && (rest != [] ==> '=' !in rest[0].key && '&' !in rest[0].key)
    ensures ValueEnd(v + Following(rest)) == |v|
  {
    hide OpensAt, HoldsPair, Canon;
    var x := v + Following(rest);
    forall n | 0 <= n < |v| ensures !OpensAt(x, n) { NothingOpens(v, rest, n); }
    if rest != [] { NextOpens(v, rest); }
  }

  /** One argument off the front, or none. */
  lemma ReadFirst(t: string)
    ensures Read(t) == if IndexOf(t, '=') == |t| then [] else [FirstArg(t)] + Read(AfterArg(AfterKey(t)))
  {
    hide FirstArg, AfterArg, AfterKey, IndexOf;
  }

  lemma NoneIsLegible()
    ensures Legible([]) && Read("") == []
  {
  }

  lemma {:induction false} LegibleIsRead(args: seq<Arg>)
    requires Legible(args)
    ensures Read(Canon(args)) == args
  {
    hide *;
    if args == [] {
      CanonOfNone();
      NoneIsLegible();
    } else {
      LegibleParts(args);
      ReadFirst(Canon(args));
      ArgIsRead(args);
      LegibleIsRead(args[1..]);
    }
  }

  lemma CanonOfNone()
    ensures Canon([]) == ""
  {
  }

  /** The first of legible arguments is read as it is, and leaves the others to read. */
  lemma ArgIsRead(args: seq<Arg>)
    requires Legible(args) && args != []
    ensures var t := Canon(args); IndexOf(t, '=') < |t| && FirstArg(t) == args[0] && AfterArg(AfterKey(t)) == Canon(args[1..])
  {
    var a, rest := args[0], args[1..];
    LegibleParts(args);
    CanonCons(args);
    CanonOfNone();
    hide Canon, Legible, Following, HoldsPair, ValueEnd;
    KeyIsRead(a.key, a.value + Following(rest));
    ValueIsRead(a.value, rest);
    AfterValue(a.value, rest);
  }

  lemma LegibleParts(args: seq<Arg>)
    requires Legible(args) && args != []
    ensures args == [args[0]] + args[1..] && [args[0]] + [] == [args[0]] && args[0] == Arg(args[0].key, args[0].value)
    ensures '=' !in args[0].key && !HoldsPair(args[0].value) && Legible(args[1..])
    ensures args[1..] != [] ==> '=' !in args[1..][0].key && '&' !in args[1..][0].key
  {
  }

  lemma AfterValue(v: string, rest: seq<Arg>)
    ensures var x := v + Following(rest); x[..|v|] == v && (rest != [] ==> x[|v|..] == "&" + Canon(rest)) && (rest != [] ==> |v| < |x| && x[|v| + 1..] == Canon(rest)) && (rest == [] ==> |x| == |v|)
  {
    hide Canon;
    assert (v + Following(rest))[|v|..] == Following(rest);
  }

  /** A pair opens an argument, at its last "&" if not before. */
  lemma PairOpens(x: string, i: nat, j: nat) returns (k: nat)
    requires i < j < |x| && x[i] == '&' && x[j] == '='
    ensures i <= k < j && OpensAt(x, k)
  {
    k := j - 1;
    while x[k] != '&'
      invariant i <= k < j && forall m :: k < m <= j ==> x[m] != '&'
      decreases k
    {
      k := k - 1;
    }
    var u := x[k + 1..];
    assert u[j - k - 1] == '=' && forall m :: 0 <= m <= j - k - 1 ==> u[m] == x[k + 1 + m];
  }

  lemma ValueHoldsNoPair(x: string)
    ensures !HoldsPair(x[..ValueEnd(x)])
  {
    hide OpensAt;
    var v := x[..ValueEnd(x)];
    forall i, j | 0 <= i < j < |v| && v[i] == '&' ensures v[j] != '=' {
      if v[j] == '=' { var k := PairOpens(x, i, j); }
    }
  }

  lemma LegibleCons(a: Arg, rest: seq<Arg>)
    requires '=' !in a.key && !HoldsPair(a.value) && Legible(rest) && (rest != [] ==> '&' !in rest[0].key)
    ensures Legible([a] + rest)
  {
    hide HoldsPair;
    assert forall i :: 0 < i < |[a] + rest| ==> ([a] + rest)[i] == rest[i - 1];
  }

  lemma {:induction false} ReadIsLegible(t: string)
    ensures Legible(Read(t))
    ensures Opens(t) ==> Read(t) != [] && '&' !in Read(t)[0].key
    decreases |t|
  {
    hide *;
    ReadFirst(t);
    NoneIsLegible();
    OpensHere(t);
    if IndexOf(t, '=') < |t| {
      ReadIsLegible(AfterArg(AfterKey(t)));
      FirstIsLegible(t);
      AfterArgOpens(AfterKey(t));
      LegibleCons(FirstArg(t), Read(AfterArg(AfterKey(t))));
    }
  }

  lemma OpensHere(t: string)
    ensures Opens(t) ==> IndexOf(t, '=') < |t|
  {
  }

  lemma FirstIsLegible(t: string)
    requires IndexOf(t, '=') < |t|
    ensures var a := FirstArg(t); '=' !in a.key && !HoldsPair(a.value) && (Opens(t) ==> '&' !in a.key)
  {
    hide HoldsPair, ValueEnd;
    ValueHoldsNoPair(AfterKey(t));
  }

  lemma AfterArgOpens(x: string)
    ensures if ValueEnd(x) < |x| then x[ValueEnd(x)] == '&' && Opens(AfterArg(x)) else AfterArg(x) == "" && Read(AfterArg(x)) == []
  {
    hide Opens;
    NoneIsLegible();
  }

  /** The text a reading took apart is what it is put together to. */
  lemma {:induction false} ReadWritesBack(t: string)
    requires t == "" || '=' in t
    ensures Canon(Read(t)) == t
    decreases |t|
  {
    hide *;
    CanonOfNone();
    NoneIsLegible();
    if t != "" {
      HasIndex(t);
      var x := AfterKey(t);
      AfterArgOpens(x);
      OpensHolds(AfterArg(x));
      ReadWritesBack(AfterArg(x));
      ReadFirst(t);
      OneMoreWritten(t, Read(AfterArg(x)));
    }
  }

  lemma HasIndex(t: string)
    ensures '=' in t <==> IndexOf(t, '=') < |t|
  {
  }

  lemma OpensHolds(t: string)
    ensures Opens(t) ==> '=' in t && Read(t) != []
  {
    HasIndex(t);
    ReadFirst(t);
    hide Read, FirstArg;
  }

  lemma OneMoreWritten(t: string, rest: seq<Arg>)
    requires IndexOf(t, '=') < |t| && Canon(rest) == AfterArg(AfterKey(t))
    requires var x := AfterKey(t); if ValueEnd(x) < |x| then x[ValueEnd(x)] == '&' && rest != [] else rest == []
    ensures Canon([FirstArg(t)] + rest) == t
  {
    hide Canon, ValueEnd;
    PutTogether(t[..IndexOf(t, '=')], AfterKey(t), ValueEnd(AfterKey(t)), rest);
    SplitAt(t, IndexOf(t, '='));
  }

  lemma PutTogether(k: string, x: string, n: nat, rest: seq<Arg>)
    requires n <= |x|
    requires if n < |x| then x[n] == '&' && rest != [] && Canon(rest) == x[n + 1..] else rest == []
    ensures Canon([Arg(k, x[..n])] + rest) == k + ("=" + x)
  {
    assert ([Arg(k, x[..n])] + rest)[1..] == rest;
    CanonCons([Arg(k, x[..n])] + rest);
    hide Canon;
    assert x == x[..n] + Following(rest);
  }

  lemma SplitAt(t: string, e: nat)
    requires e < |t| && t[e] == '='
    ensures t == t[..e] + ("=" + t[e + 1..])
  {
  }

  /** A fingerprint reads back as the arguments it was made from if and only if those are legible. */
  lemma FingerprintReadsBack(args: seq<Arg>)
    ensures Read(Canon(args)) == args <==> Legible(args)
  {
    if Legible(args) { LegibleIsRead(args); }
    ReadIsLegible(Canon(args));
  }

  /** Whatever the arguments, one list among all that share their fingerprint is legible: the one it
      is read as. */
  lemma OneLegible(args: seq<Arg>, other: seq<Arg>)
    ensures Legible(Read(Canon(args))) && Canon(Read(Canon(args))) == Canon(args)
    ensures Legible(other) && Canon(other) == Canon(args) <==> other == Read(Canon(args))
  {
    HoldsEquals(args);
    hide *;
    ReadIsLegible(Canon(args));
    ReadWritesBack(Canon(args));
    FingerprintReadsBack(other);
  }

  /** Two calls share a fingerprint exactly if it is read alike; so two legible ones never do. */
  lemma FingerprintsTellApart(a: seq<Arg>, b: seq<Arg>)
    ensures Canon(a) == Canon(b) <==> Read(Canon(a)) == Read(Canon(b))
    ensures Legible(a) && Legible(b) && Canon(a) == Canon(b) ==> a == b
  {
    hide *;
    OneLegible(a, a);
    OneLegible(b, b);
  }

  /** The shortest case: legible arguments share theirs with one whose value holds a pair. */
  lemma FingerprintsCollide()
    ensures Canon([Arg("a", "1&b=2")]) == Canon([Arg("a", "1"), Arg("b", "2")])
  {
    assert Canon([Arg("a", "1"), Arg("b", "2")][1..]) == "b=2";
  }

  // ------------------------------------------------ which fingerprints stand for one call

  lemma HoldsEquals(args: seq<Arg>)
    ensures if args == [] then Canon(args) == "" else '=' in Canon(args)
  {
    if args != [] {
      CanonCons(args);
      assert Canon(args)[|args[0].key|] == '=';
    }
  }

  /** Lexicographic order. */
  predicate Before(s: string, t: string) {
    t != "" && (s == "" || s[0] < t[0] || (s[0] == t[0] && Before(s[1..], t[1..])))
  }

  /** The keys are distinct and in order, as those of a call are. */
  predicate Sorted(args: seq<Arg>) { forall i, j :: 0 <= i < j < |args| ==> Before(args[i].key, args[j].key) }

  /** At most one argument, without an "=" of its own. */
  predicate Unmistakable(args: seq<Arg>) {
    args == [] || (|args| == 1 && '=' !in args[0].key && '=' !in args[0].value)
  }

  /** Another call with the same fingerprint: the second argument folded into the first, or a single
      one split at another "=". */
  function Impostor(args: seq<Arg>): seq<Arg>
    requires !Unmistakable(args)
  {
    var a := args[0];
    if |args| > 1 then [Arg(a.key, a.value + "&" + args[1].key + "=" + args[1].value)] + args[2..]
    else if '=' in a.key then
      var i := IndexOf(a.key, '=');
      [Arg(a.key[..i], a.key[i + 1..] + "=" + a.value)]
    else
      var i := IndexOf(a.value, '=');
      [Arg(a.key + "=" + a.value[..i], a.value[i + 1..])]
  }

  lemma ImpostorShares(args: seq<Arg>)
    requires !Unmistakable(args)
    ensures var b := Impostor(args); b != args && Canon(b) == Canon(args) && (Sorted(args) ==> Sorted(b))
  {
    hide Canon, Sorted;
    if |args| > 1 {
      FoldShares(args[0], args[1], args[2..]);
      assert args == [args[0], args[1]] + args[2..];
      FoldKeepsOrder(args, Impostor(args));
    } else {
      SplitShares(args[0]);
      assert args == [args[0]];
      SingleIsSorted(Impostor(args));
    }
  }

  lemma SingleIsSorted(args: seq<Arg>)
    requires |args| == 1
    ensures Sorted(args)
  {
  }

  lemma FoldKeepsOrder(args: seq<Arg>, b: seq<Arg>)
    requires |args| > 1 && |b| == |args| - 1 && b[0].key == args[0].key && b[1..] == args[2..]
    ensures Sorted(args) ==> Sorted(b)
  {
    assert forall i :: 0 < i < |b| ==> b[i] == b[1..][i - 1] == args[i + 1];
  }

  lemma SplitShares(a: Arg)
    requires !Unmistakable([a])
    ensures Canon(Impostor([a])) == Canon([a]) && Impostor([a]) != [a]
  {
    var b := Impostor([a])[0];
    Single(a);
    Single(b);
    hide Canon;
    if '=' in a.key {
      SplitInKey(a.key, IndexOf(a.key, '='), a.value);
      assert |b.key| < |a.key|;
    } else {
      SplitInValue(a.key, a.value, IndexOf(a.value, '='));
      assert |b.key| > |a.key|;
    }
  }

  lemma Single(a: Arg)
    ensures Canon([a]) == a.key + "=" + a.value
  {
  }

  lemma SplitInKey(k: string, i: nat, v: string)
    requires i < |k| && k[i] == '='
    ensures k[..i] + "=" + (k[i + 1..] + "=" + v) == k + "=" + v
  {
    SplitAt(k, i);
  }

  lemma SplitInValue(k: string, v: string, i: nat)
    requires i < |v| && v[i] == '='
    ensures (k + "=" + v[..i]) + "=" + v[i + 1..] == k + "=" + v
  {
    SplitAt(v, i);
  }

  lemma FoldShares(x: Arg, y: Arg, rest: seq<Arg>)
    ensures Canon([Arg(x.key, x.value + "&" + y.key + "=" + y.value)] + rest) == Canon([x, y] + rest)
  {
    var folded := Arg(x.key, x.value + "&" + y.key + "=" + y.value);
    assert ([folded] + rest)[1..] == rest && ([x, y] + rest)[1..] == [y] + rest && ([y] + rest)[1..] == rest;
    CanonCons([folded] + rest);
    CanonCons([x, y] + rest);
    CanonCons([y] + rest);
    hide Canon;
    var f := Following(rest);
    assert folded.value + f == x.value + ("&" + (y.key + ("=" + (y.value + f))));
  }

  /** A text with one "=" can be taken apart one way only. */
  lemma UnmistakableIsAlone(args: seq<Arg>, b: seq<Arg>)
    requires Unmistakable(args) && Canon(b) == Canon(args)
    ensures b == args
  {
    HoldsEquals(args);
    HoldsEquals(b);
    if args != [] {
      var k, v, t := args[0].key, args[0].value, Canon(args);
      var x := b[0].value + Following(b[1..]);
      CanonCons(b);
      HoldsEquals(b[1..]);
      hide Canon;
      assert t == k + ("=" + v) == b[0].key + ("=" + x);
      OneEquals(k, v, b[0].key, x);
      if b[1..] != [] { FollowingHolds(b[0].value, b[1..]); }
      assert b == [b[0]] && args == [args[0]];
      assert b[0].value == x && b[0] == args[0];
    }
  }

  lemma FollowingHolds(v: string, rest: seq<Arg>)
    requires rest != []
    ensures '=' in v + Following(rest)
  {
    HoldsEquals(rest);
    hide Canon;
    var i :| 0 <= i < |Canon(rest)| && Canon(rest)[i] == '=';
    assert (v + Following(rest))[|v| + 1 + i] == '=';
  }

  lemma OneEquals(k: string, v: string, l: string, x: string)
    requires k + ("=" + v) == l + ("=" + x) && '=' !in k && '=' !in v
    ensures k == l && v == x
  {
    var t := k + ("=" + v);
    assert t[|l|] == '=' && forall i :: 0 <= i < |k| ==> t[i] == k[i];
    assert forall i :: |k| < i < |t| ==> t[i] == v[i - |k| - 1];
    assert |l| == |k|;
    assert t[..|k|] == k && t[..|l|] == l && t[|k| + 1..] == v && t[|l| + 1..] == x;
  }

  /** No other call has the fingerprint if and only if there is at most one argument, without an "="
      in its key or value: two or more arguments always share theirs with another call. It makes no
      difference that the keys of a call are distinct and in order. */
  lemma FingerprintIdentifies(args: seq<Arg>)
    ensures (forall b: seq<Arg> :: Canon(b) == Canon(args) ==> b == args) <==> Unmistakable(args)
    ensures Sorted(args) ==>
      ((forall b: seq<Arg> :: Sorted(b) && Canon(b) == Canon(args) ==> b == args) <==> Unmistakable(args))
  {
    hide Canon, Sorted, Unmistakable, Impostor;
    if Unmistakable(args) {
      forall b: seq<Arg> | Canon(b) == Canon(args) ensures b == args { UnmistakableIsAlone(args, b); }
    } else {
      ImpostorShares(args);
    }
  }
}
