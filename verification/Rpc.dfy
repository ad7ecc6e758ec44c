/** The agent's event stream (internal/agent/rpc.go): token accounting from conversation snapshots,
    and the line-wise log of the agent's error stream. */
module Rpc {

  // ----------------------------------------------------------------------------- usage

  /** Token counts and cost; the cost is kept exact. */
  datatype Usage = Usage(input: int, output: int, cacheRead: int, cacheWrite: int, cost: real)

  const NO_USAGE := Usage(0, 0, 0, 0, 0.0)

  function Plus(a: Usage, b: Usage): Usage {
    Usage(a.input + b.input, a.output + b.output, a.cacheRead + b.cacheRead, a.cacheWrite + b.cacheWrite, a.cost + b.cost)
  }

  function Total(us: seq<Usage>): Usage { if us == [] then NO_USAGE else Plus(Total(us[..|us| - 1]), us[|us| - 1]) }

  /** A message of the conversation snapshot; text is its first non-empty text block. */
  datatype Message = Message(assistant: bool, hasUsage: bool, usage: Usage, text: string)

  function Counted(m: Message): Usage { if m.assistant && m.hasUsage then m.usage else NO_USAGE }

  function AssistantSum(ms: seq<Message>): Usage { if ms == [] then NO_USAGE else Plus(AssistantSum(ms[..|ms| - 1]), Counted(ms[|ms| - 1])) }

  lemma {:induction false} SumOfTwo(a: seq<Message>, b: seq<Message>)
    ensures AssistantSum(a + b) == Plus(AssistantSum(a), AssistantSum(b))
  {
    if b == [] {
      assert a + b == a;
    } else {
      assert (a + b)[..|a + b| - 1] == a + b[..|b| - 1];
      SumOfTwo(a, b[..|b| - 1]);
    }
  }

  // -------------------------------------------------------------------------- absorption

  predicate Silent(u: Usage) { u.input == 0 && u.output == 0 }

  /** A snapshot shorter than the watermark restarts the accounting. */
  function Watermark(seen: nat, snapshot: seq<Message>): nat { if |snapshot| < seen then 0 else seen }

  function Fresh(seen: nat, snapshot: seq<Message>): seq<Message> {
    snapshot[Watermark(seen, snapshot)..]
  }

  /** The usage of one turn: what the message events carried, and the snapshot's fresh messages if
      they carried no input or output tokens. */
  function TurnUsage(seen: nat, events: Usage, snapshot: seq<Message>): Usage {
    if Silent(events) then Plus(events, AssistantSum(Fresh(seen, snapshot))) else events
  }

  /** The last fresh assistant message that says something. */
  function LastText(ms: seq<Message>): string {
    if ms == [] then ""
    else if ms[|ms| - 1].assistant && ms[|ms| - 1].text != "" then ms[|ms| - 1].text
    else LastText(ms[..|ms| - 1])
  }

  /** The warm session: how much of the conversation has been accounted for. */
  class Session {
    var seen: nat

    constructor ()
      ensures seen == 0
    {
      seen := 0;
    }

    method AbsorbAgentEnd(snapshot: seq<Message>, events: Usage, said: string) returns (usage: Usage, response: string)
      modifies this
      ensures seen == |snapshot|
      ensures usage == TurnUsage(old(seen), events, snapshot)
      ensures response == if said != "" then said else LastText(Fresh(old(seen), snapshot))
    {
      usage, response := events, said;
      if |snapshot| < seen { seen := 0; }
      NothingFresh(usage);
      if |snapshot| <= seen { return; }
      var turn := snapshot[seen..];
      if usage.input == 0 && usage.output == 0 { usage := AddAssistants(events, turn); }
      if response == "" { response := FindText(turn); }
      seen := |snapshot|;
    }

    static method AddAssistants(events: Usage, turn: seq<Message>) returns (usage: Usage)
      ensures usage == Plus(events, AssistantSum(turn))
    {
      usage := events;
      NothingFresh(events);
      for i := 0 to |turn|
        invariant usage == Plus(events, AssistantSum(turn[..i]))
      {
        assert turn[..i + 1][..i] == turn[..i];
        if turn[i].assistant && turn[i].hasUsage { usage := Plus(usage, turn[i].usage); }
      }
      assert turn[..|turn|] == turn;
    }

    static method FindText(turn: seq<Message>) returns (text: string)
      ensures text == LastText(turn)
    {
      var i := |turn|;
      assert turn[..i] == turn;
      while i > 0
        invariant i <= |turn| && LastText(turn) == LastText(turn[..i])
      {
        assert turn[..i][..i - 1] == turn[..i - 1];
        if turn[i - 1].assistant && turn[i - 1].text != "" { return turn[i - 1].text; }
        i := i - 1;
      }
      return "";
    }
  }

  lemma NothingFresh(u: Usage)
    ensures Plus(u, AssistantSum([])) == u && LastText([]) == ""
  {
  }

  // ------------------------------------------------------------------------- whole sessions

  /** One prompt: what its message events carried, and the snapshot at its end. */
  datatype Turn = Turn(events: Usage, snapshot: seq<Message>)

  function SeenAfter(turns: seq<Turn>): nat { if turns == [] then 0 else |turns[|turns| - 1].snapshot| }

  function UsageAt(turns: seq<Turn>, k: nat): Usage
    requires k < |turns|
  {
    TurnUsage(SeenAfter(turns[..k]), turns[k].events, turns[k].snapshot)
  }

  function SessionUsage(turns: seq<Turn>): Usage {
    if turns == [] then NO_USAGE
    else Plus(SessionUsage(turns[..|turns| - 1]), UsageAt(turns, |turns| - 1))
  }

  function LastSnapshot(turns: seq<Turn>): seq<Message> { if turns == [] then [] else turns[|turns| - 1].snapshot }

  /** Snapshots only ever extend. */
  predicate Extending(turns: seq<Turn>) {
    turns != [] ==> Extending(turns[..|turns| - 1]) && LastSnapshot(turns[..|turns| - 1]) <= LastSnapshot(turns)
  }

  /** The usage the turn's own messages add to the conversation. */
  function Delta(turns: seq<Turn>, k: nat): Usage
    requires k < |turns|
  {
    AssistantSum(Fresh(SeenAfter(turns[..k]), turns[k].snapshot))
  }

  /** The turn's events carry nothing at all, or all of its usage with some input or output in it. */
  predicate Exact(turns: seq<Turn>, k: nat)
    requires k < |turns|
  {
    turns[k].events == NO_USAGE || (turns[k].events == Delta(turns, k) && !Silent(turns[k].events))
  }

  /** A turn is charged what its own messages add if and only if its events carried nothing, or
      everything with some input or output in it. */
  lemma ChargedOnce(turns: seq<Turn>, k: nat)
    requires k < |turns|
    ensures UsageAt(turns, k) == Delta(turns, k) <==> Exact(turns, k)
  {
  }

  /** Over a session whose snapshots only extend, the absorbed totals are the last snapshot's
      assistant sum: nothing is counted twice and nothing is missed, whichever shape the events take
      in each turn. */
  lemma {:induction false} TotalsAreTheSnapshots(turns: seq<Turn>)
    requires Extending(turns) && forall k :: 0 <= k < |turns| ==> Exact(turns, k)
    ensures SessionUsage(turns) == AssistantSum(LastSnapshot(turns))
  {
    if turns != [] {
      var n := |turns| - 1;
      var init := turns[..n];
      forall k | 0 <= k < n ensures Exact(init, k) {
        assert Exact(turns, k) && init[..k] == turns[..k];
      }
      TotalsAreTheSnapshots(init);
      ChargedOnce(turns, n);
      assert Exact(turns, n);
      var before, after := LastSnapshot(init), LastSnapshot(turns);
      assert after == before + after[|before|..];
      SumOfTwo(before, after[|before|..]);
    }
  }

  /** Events that carry cache tokens alone are charged again from the snapshot. */
  lemma CacheOnlyIsChargedTwice(n: int)
    requires n > 0
    ensures var u := Usage(0, 0, n, 0, 0.0);
      var turns := [Turn(u, [Message(true, true, u, "x")])];
      Extending(turns) && SessionUsage(turns).cacheRead == 2 * n && AssistantSum(LastSnapshot(turns)).cacheRead == n
  {
    var u := Usage(0, 0, n, 0, 0.0);
    var m := Message(true, true, u, "x");
    var turns := [Turn(u, [m])];
    assert turns[..0] == [] && [m][0..] == [m] && [m][..0] == [];
    assert AssistantSum([m]) == u;
    assert UsageAt(turns, 0) == Plus(u, u);
  }

  // ------------------------------------------------------------- replaced conversations

  /** What turn k is charged is the usage of its messages from position kept on: the first kept ones
      were there before, and the others are new. */
  predicate ChargesNew(turns: seq<Turn>, k: nat, kept: nat)
    requires k < |turns| && kept <= |turns[k].snapshot|
  {
    UsageAt(turns, k) == AssistantSum(turns[k].snapshot[kept..])
  }

  /** A snapshot that keeps a prefix of the old one and replaces the rest is charged right if and only
      if the events make up the difference between the kept prefix and what lies before the watermark,
      or, with input or output in them, are the usage of the new messages. */
  lemma CompactionCharge(turns: seq<Turn>, k: nat, kept: nat)
    requires k < |turns| && kept <= |turns[k].snapshot|
    ensures var events, snapshot := turns[k].events, turns[k].snapshot;
      var seen := Watermark(SeenAfter(turns[..k]), snapshot);
      ChargesNew(turns, k, kept) <==>
        if Silent(events) then Plus(events, AssistantSum(snapshot[..kept])) == AssistantSum(snapshot[..seen])
        else events == AssistantSum(snapshot[kept..])
  {
    var snapshot := turns[k].snapshot;
    var seen := Watermark(SeenAfter(turns[..k]), snapshot);
    hide AssistantSum, SeenAfter, Plus, Watermark;
    SplitSum(snapshot, kept);
    SplitSum(snapshot, seen);
    Balance(turns[k].events, AssistantSum(snapshot[..kept]), AssistantSum(snapshot[kept..]),
      AssistantSum(snapshot[..seen]), AssistantSum(snapshot[seen..]));
  }

  lemma Balance(e: Usage, a: Usage, b: Usage, c: Usage, d: Usage)
    requires Plus(a, b) == Plus(c, d)
    ensures Plus(e, d) == b <==> Plus(e, a) == c
  {
  }

  lemma SplitSum(ms: seq<Message>, k: nat)
    requires k <= |ms|
    ensures AssistantSum(ms) == Plus(AssistantSum(ms[..k]), AssistantSum(ms[k..]))
  {
    assert ms == ms[..k] + ms[k..];
    hide AssistantSum;
    SumOfTwo(ms[..k], ms[k..]);
  }

  /** The usage of all the messages that were ever new. */
  function NewUsage(turns: seq<Turn>, kept: seq<nat>): Usage
    requires |kept| == |turns| && forall k :: 0 <= k < |turns| ==> kept[k] <= |turns[k].snapshot|
  {
    if turns == [] then NO_USAGE
    else
      var n := |turns| - 1;
      Plus(NewUsage(turns[..n], kept[..n]), AssistantSum(turns[n].snapshot[kept[n]..]))
  }

  /** A session charged right in every turn reports what all its messages used, replaced ones
      included. */
  lemma {:induction false} SessionChargesNew(turns: seq<Turn>, kept: seq<nat>)
    requires |kept| == |turns| && forall k :: 0 <= k < |turns| ==> kept[k] <= |turns[k].snapshot| && ChargesNew(turns, k, kept[k])
    ensures SessionUsage(turns) == NewUsage(turns, kept)
  {
    if turns != [] {
      var n := |turns| - 1;
      forall k | 0 <= k < n ensures ChargesNew(turns[..n], k, kept[..n][k]) {
        assert ChargesNew(turns, k, kept[k]) && turns[..n][..k] == turns[..k];
      }
      SessionChargesNew(turns[..n], kept[..n]);
      assert ChargesNew(turns, n, kept[n]);
    }
  }

  /** A conversation that got shorter starts the accounting over: a kept message is charged again. */
  lemma ShrunkIsChargedAgain(turns: seq<Turn>, a: Message, b: Message)
    requires turns == [Turn(NO_USAGE, [a, b]), Turn(NO_USAGE, [a])]
    ensures SessionUsage(turns) == Plus(NewUsage(turns, [0, 1]), Counted(a))
    ensures ChargesNew(turns, 1, 1) <==> Counted(a) == NO_USAGE
  {
    OneMessage(a);
    hide AssistantSum, NewUsage, SessionUsage, UsageAt, Counted;
    TwoTurns(turns[0], turns[1], 1);
    assert [a, b][0..] == [a, b] && [a][0..] == [a] && [a][1..] == [];
  }

  lemma OneMessage(m: Message)
    ensures AssistantSum([m]) == Counted(m) && AssistantSum([]) == NO_USAGE
  {
    hide Counted, Plus;
    var ms := [m];
    assert ms[..|ms| - 1] == [] && ms[|ms| - 1] == m;
    AddToNone(Counted(m));
  }

  lemma AddToNone(u: Usage)
    ensures Plus(NO_USAGE, u) == u
  {
  }

  /** One that was replaced and grew back to the old length or beyond is not noticed: its messages
      before the old watermark are never charged. */
  lemma GrownBackIsMissed(turns: seq<Turn>, a: Message, b: Message, s: Message, x: Message, y: Message)
    requires turns == [Turn(NO_USAGE, [a, b]), Turn(NO_USAGE, [s, x, y])]
    ensures Plus(SessionUsage(turns), AssistantSum([s, x])) == NewUsage(turns, [0, 0])
    ensures ChargesNew(turns, 1, 0) <==> AssistantSum([s, x]) == NO_USAGE
  {
    hide AssistantSum, NewUsage, SessionUsage, UsageAt;
    TwoTurns(turns[0], turns[1], 0);
    assert [a, b][0..] == [a, b] && [s, x, y][0..] == [s, x] + [y] && [s, x, y][2..] == [y];
    SumOfTwo([s, x], [y]);
  }

  /** Two turns, the second on a watermark of the first snapshot's length. */
  lemma TwoTurns(t: Turn, u: Turn, kept: nat)
    requires kept <= |u.snapshot|
    ensures var turns := [t, u];
      && SessionUsage(turns) == Plus(TurnUsage(0, t.events, t.snapshot), TurnUsage(|t.snapshot|, u.events, u.snapshot))
      && UsageAt(turns, 1) == TurnUsage(|t.snapshot|, u.events, u.snapshot)
      && NewUsage(turns, [0, kept]) == Plus(AssistantSum(t.snapshot[0..]), AssistantSum(u.snapshot[kept..]))
  {
    var turns, ks := [t, u], [0 as nat, kept];
    assert turns[..1] == [t] && [t][..0] == [] && turns[..0] == [] && ks[..1] == [0] && [0 as nat][..0] == [];
    hide TurnUsage, AssistantSum;
    assert SessionUsage([t]) == TurnUsage(0, t.events, t.snapshot);
    assert NewUsage([t], [0]) == AssistantSum(t.snapshot[0..]);
  }

  // -------------------------------------------------------------------------- log lines

  const NEWLINE := '\n'

  predicate IsSpace(c: char) { c == ' ' || 9 <= c as int <= 13 }

  function TrimLeft(s: string): string { if s != "" && IsSpace(s[0]) then TrimLeft(s[1..]) else s }

  function TrimRight(s: string): string { if s != "" && IsSpace(s[|s| - 1]) then TrimRight(s[..|s| - 1]) else s }

  function Trim(s: string): string { TrimRight(TrimLeft(s)) }

  /** The position of the first newline, or the length. */
  function FirstNewline(s: string): (i: nat)
    ensures i <= |s| && NEWLINE !in s[..i] && (i < |s| ==> s[i] == NEWLINE)
  {
    if s == "" || s[0] == NEWLINE then 0 else 1 + FirstNewline(s[1..])
  }

  function Shown(line: string): seq<string> { if Trim(line) == "" then [] else [Trim(line)] }

  /** The log entries of a text's complete lines. */
  function Logged(s: string): seq<string>
    decreases |s|
  {
    var i := FirstNewline(s);
    if i == |s| then [] else Shown(s[..i]) + Logged(s[i + 1..])
  }

  /** What follows the last newline. */
  function Unfinished(s: string): string
    decreases |s|
  {
    var i := FirstNewline(s);
    if i == |s| then s else Unfinished(s[i + 1..])
  }

  lemma {:induction false} FirstNewlineIs(s: string, i: nat)
    requires i <= |s| && NEWLINE !in s[..i] && (i < |s| ==> s[i] == NEWLINE)
    ensures FirstNewline(s) == i
  {
    if i > 0 {
      assert s[0] in s[..i] && s[1..][..i - 1] == s[..i][1..];
      FirstNewlineIs(s[1..], i - 1);
    }
  }

  /** One line off the front, or none. */
  lemma LoggedFirst(s: string, i: nat)
    requires i <= |s| && NEWLINE !in s[..i] && (i < |s| ==> s[i] == NEWLINE)
    ensures i < |s| ==> Logged(s) == Shown(s[..i]) + Logged(s[i + 1..]) && Unfinished(s) == Unfinished(s[i + 1..])
    ensures i == |s| ==> Logged(s) == [] && Unfinished(s) == s
  {
    hide *;
    FirstNewlineIs(s, i);
    LoggedUpTo(s);
    UnfinishedUpTo(s);
  }

  lemma LoggedUpTo(s: string)
    ensures var i := FirstNewline(s); Logged(s) == if i == |s| then [] else Shown(s[..i]) + Logged(s[i + 1..])
  {
    hide Shown, FirstNewline;
  }

  lemma UnfinishedUpTo(s: string)
    ensures var i := FirstNewline(s); Unfinished(s) == if i == |s| then s else Unfinished(s[i + 1..])
  {
    hide FirstNewline;
  }

  /** Text that arrives in two pieces logs the same lines as in one. */
  lemma {:induction false} LoggedInTwo(a: string, b: string)
    ensures Logged(a + b) == Logged(a) + Logged(Unfinished(a) + b)
    ensures Unfinished(a + b) == Unfinished(Unfinished(a) + b)
    decreases |a|
  {
    var i := FirstNewline(a);
    LoggedFirst(a, i);
    hide *;
    if i < |a| {
      var rest := a[i + 1..];
      SplitOff(a, b, i);
      LoggedFirst(a + b, i);
      LoggedInTwo(rest, b);
      Regroup(Shown(a[..i]), Logged(rest), Logged(Unfinished(rest) + b));
    } else {
      assert [] + Logged(a + b) == Logged(a + b);
    }
  }

  lemma SplitOff(a: string, b: string, i: nat)
    requires i < |a|
    ensures (a + b)[..i] == a[..i] && (a + b)[i] == a[i] && (a + b)[i + 1..] == a[i + 1..] + b
  {
  }

  lemma Regroup<T>(a: seq<T>, b: seq<T>, c: seq<T>)
    ensures a + (b + c) == (a + b) + c
  {
  }

  /** text: everything written so far. */
  class LineLogWriter {
    var buf: string
    var log: seq<string>
    ghost var text: string

    /** The log is that of the whole text, however it was cut into writes. */
    ghost predicate Valid()
      reads this
    {
      log == Logged(text) && buf == Unfinished(text)
    }

    constructor ()
      ensures Valid() && text == ""
    {
      buf, log, text := "", [], "";
    }

    method Write(p: string)
      requires Valid()
      modifies this
      ensures Valid() && text == old(text) + p
    {
      LoggedInTwo(text, p);
      buf, text := buf + p, text + p;
      hide *;
      while true
        invariant log + Logged(buf) == Logged(text) && Unfinished(buf) == Unfinished(text) && text == old(text) + p
        decreases |buf|
      {
        var i := IndexByte(buf);
        LoggedFirst(buf, i);
        if i == |buf| { break; }
        Regroup(log, Shown(buf[..i]), Logged(buf[i + 1..]));
        Emit(buf[..i]);
        buf := buf[i + 1..];
      }
      assert log + [] == log;
      ValidWhenEven();
    }

    lemma ValidWhenEven()
      requires log == Logged(text) && buf == Unfinished(text)
      ensures Valid()
    {
    }

    method Emit(raw: string)
      modifies `log
      ensures log == old(log) + Shown(raw)
    {
      var line := Trim(raw);
      if line != "" { log := log + [line]; }
    }

    static method IndexByte(s: string) returns (i: nat)
      ensures i <= |s| && NEWLINE !in s[..i] && (i < |s| ==> s[i] == NEWLINE)
    {
      i := 0;
      while i < |s| && s[i] != NEWLINE
        invariant i <= |s| && NEWLINE !in s[..i]
      {
        i := i + 1;
      }
    }
  }
}
