/** Pull-request pointers and repository scope (internal/gate/sweep.go): host/owner/name#N. */
module Pointers {
  import opened Prelude

  const MAX_INT: int := 0x7FFF_FFFF_FFFF_FFFF

  // -------------------------------------------------------------------------- numbers

  predicate IsDigit(c: char) { '0' <= c <= '9' }

  function Digit(n: nat): char
    requires n < 10
  {
    '0' + n as char
  }

  function Decimal(n: nat): (s: string)
    ensures s != "" && forall c :: c in s ==> IsDigit(c)
  {
    if n < 10 then [Digit(n)] else Decimal(n / 10) + [Digit(n % 10)]
  }

  function Value(s: string): nat
    requires forall c :: c in s ==> IsDigit(c)
  {
    if s == "" then 0
    else
      assert IsDigit(s[|s| - 1]) by { assert s[|s| - 1] in s; }
      10 * Value(s[..|s| - 1]) + (s[|s| - 1] as int - '0' as int)
  }

  lemma {:induction false} ValueOfDecimal(n: nat)
    ensures Value(Decimal(n)) == n
  {
    if n >= 10 {
      ValueOfDecimal(n / 10);
      assert Decimal(n)[..|Decimal(n)| - 1] == Decimal(n / 10);
    } else {
      assert [Digit(n)][..0] == "";
    }
  }

  /** A decimal integer of the machine's width, with an optional sign. */
  function ParseInt(s: string): Option<int> {
    var body := if s != "" && s[0] in {'+', '-'} then s[1..] else s;
    if body == "" || (exists c :: c in body && !IsDigit(c)) then None
    else
      var v: int := if s[0] == '-' then 0 - Value(body) as int else Value(body) as int;
      if -MAX_INT - 1 <= v <= MAX_INT then Some(v) else None
  }

  // -------------------------------------------------------------------------- pointers

  datatype Pointer = Pointer(repo: string, number: nat)

  /** The position of the last occurrence, or -1. */
  function LastIndex(s: string, c: char): (i: int)
    ensures -1 <= i < |s| && (i >= 0 ==> s[i] == c) && forall j :: i < j < |s| ==> s[j] != c
  {
    if s == "" then -1 else if s[|s| - 1] == c then |s| - 1 else LastIndex(s[..|s| - 1], c)
  }

  function ParsePointer(s: string): Option<Pointer> {
    var i := LastIndex(s, '#');
    if i < 0 then None
    else
      var n := ParseInt(s[i + 1..]);
      if n.None? || n.value <= 0 || '/' !in s[..i] then None else Some(Pointer(s[..i], n.value))
  }

  function Format(p: Pointer): string { p.repo + "#" + Decimal(p.number) }

  /** A written pointer reads back as itself exactly when its repository has a path and its number
      is a positive machine integer. */
  lemma ReadsBack(p: Pointer)
    ensures ParsePointer(Format(p)) == Some(p) <==> '/' in p.repo && 0 < p.number <= MAX_INT
  {
    var s, d := Format(p), Decimal(p.number);
    var i := LastIndex(s, '#');
    forall j | |p.repo| < j < |s| ensures s[j] != '#' { assert s[j] == d[j - |p.repo| - 1] && s[j] in d; }
    assert s[|p.repo|] == '#';
    assert i == |p.repo| && s[..i] == p.repo && s[i + 1..] == d;
    assert d[0] in d;
    ValueOfDecimal(p.number);
  }

  // ---------------------------------------------------------------------------- scope

  function Slashes(s: string): nat { if s == "" then 0 else Slashes(s[1..]) + if s[0] == '/' then 1 else 0 }

  /** How many parts a path has between its slashes. */
  function Parts(s: string): nat { 1 + Slashes(s) }

  predicate EndsWith(s: string, suffix: string) { |suffix| <= |s| && s[|s| - |suffix|..] == suffix }

  /** The first full entry of the scope that names the bare repository. */
  function FullEntry(scope: seq<string>, repo: string): Option<string> {
    if scope == [] then None
    else if Parts(scope[0]) == 3 && EndsWith(scope[0], "/" + repo) then Some(scope[0])
    else FullEntry(scope[1..], repo)
  }

  function Normalize(scope: seq<string>, repo: string): string {
    if Parts(repo) != 2 then repo
    else if FullEntry(scope, repo).Some? then FullEntry(scope, repo).value
    else "github.com/" + repo
  }

  predicate InScope(scope: seq<string>, repo: string) {
    exists r :: r in scope && (r == repo || (Parts(r) == 2 && repo == "github.com/" + r))
  }

  lemma {:induction false} FullEntryIsFull(scope: seq<string>, repo: string)
    ensures FullEntry(scope, repo).Some? ==> FullEntry(scope, repo).value in scope && Parts(FullEntry(scope, repo).value) == 3
  {
    if scope != [] { FullEntryIsFull(scope[1..], repo); }
  }

  lemma {:induction false} SlashesAdd(a: string, b: string)
    ensures Slashes(a + b) == Slashes(a) + Slashes(b)
  {
    if a == "" {
      assert a + b == b;
    } else {
      assert (a + b)[1..] == a[1..] + b;
      SlashesAdd(a[1..], b);
    }
  }

  const HOST := "github.com/"

  lemma {:induction false} NoSlash(s: string)
    requires '/' !in s
    ensures Slashes(s) == 0
  {
    if s != "" {
      assert s == [s[0]] + s[1..] && s[0] in s;
      NoSlash(s[1..]);
    }
  }

  lemma JustASlash()
    ensures Slashes(['/']) == 1
  {
  }

  lemma OneSlashInHost()
    ensures Slashes(HOST) == 1
  {
    var name := "github.com";
    assert HOST == name + ['/'] && '/' !in name;
    hide Slashes;
    SlashesAdd(name, ['/']);
    NoSlash(name);
    JustASlash();
  }

  /** Normalizing settles: every bare name gets a host, and a second pass changes nothing. */
  lemma NormalizeSettles(scope: seq<string>, repo: string)
    ensures Parts(Normalize(scope, repo)) != 2
    ensures Normalize(scope, Normalize(scope, repo)) == Normalize(scope, repo)
  {
    FullEntryIsFull(scope, repo);
    OneSlashInHost();
    SlashesAdd(HOST, repo);
  }

  /** Every configured repository, normalized, is in scope: its scan candidates are never refused. */
  lemma ConfiguredIsInScope(scope: seq<string>, repo: string)
    requires repo in scope
    ensures InScope(scope, Normalize(scope, repo))
  {
    FullEntryIsFull(scope, repo);
  }
}
