/** Claim-type globs (internal/claim/trust.go): the one-star-memory matcher against the
    recursive meaning of '*'.  Strings are sequences of byte-valued characters. */
module Glob {

  /** The meaning of a pattern: '*' stands for any run of characters, everything else for itself. */
  predicate Matches(pattern: string, s: string)
    decreases |pattern| + |s|
  {
    if pattern == "" then s == ""
    else if pattern[0] == '*' then
      Matches(pattern[1..], s) || (s != "" && Matches(pattern, s[1..]))
    else s != "" && pattern[0] == s[0] && Matches(pattern[1..], s[1..])
  }

  /** A leading star matches exactly when the rest matches some suffix. */
  lemma {:induction false} StarSplits(rest: string, s: string)
    ensures Matches("*" + rest, s) <==> exists k :: 0 <= k <= |s| && Matches(rest, s[k..])
    decreases |s|
  {
    var p := "*" + rest;
    assert p[1..] == rest;
    assert s[0..] == s;
    if s != "" {
      StarSplits(rest, s[1..]);
      if Matches(p, s[1..]) {
        var k :| 0 <= k <= |s[1..]| && Matches(rest, s[1..][k..]);
        assert s[1..][k..] == s[k + 1..];
      }
      if k :| 0 < k <= |s| && Matches(rest, s[k..]) {
        assert s[k..] == s[1..][k - 1..];
      }
    }
  }

  /** A star-free prefix matches itself and nothing else. */
  lemma {:induction false} LiteralPrefix(lit: string, rest: string, s: string)
    requires '*' !in lit
    ensures Matches(lit + rest, s) <==> lit <= s && Matches(rest, s[|lit|..])
    decreases |lit|
  {
    if lit == "" {
      assert lit + rest == rest && s[0..] == s;
    } else {
      assert (lit + rest)[0] == lit[0] && (lit + rest)[1..] == lit[1..] + rest;
      if s != "" && lit[0] == s[0] {
        LiteralPrefix(lit[1..], rest, s[1..]);
        assert lit <= s <==> lit[1..] <= s[1..] by {
          assert lit == [lit[0]] + lit[1..] && s == [s[0]] + s[1..];
        }
        if lit <= s { assert s[1..][|lit| - 1..] == s[|lit|..]; }
      }
    }
  }

  /** The hard half: once the text after a star was matched literally, a second star makes every
      earlier choice for the first one redundant, so only the last star need be remembered. */
  lemma LastStarSuffices(lit: string, rest: string, s: string)
    requires '*' !in lit && lit <= s
    ensures Matches("*" + lit + "*" + rest, s) <==> Matches("*" + rest, s[|lit|..])
  {
    var star := "*" + rest;
    assert "*" + lit + "*" + rest == "*" + (lit + star);
    StarSplits(lit + star, s);
    if Matches(lit + star, s[0..]) || Matches(star, s[|lit|..]) {
      assert s[0..] == s;
      LiteralPrefix(lit, star, s);
    }
    if k :| 0 <= k <= |s| && Matches(lit + star, s[k..]) {
      LiteralPrefix(lit, star, s[k..]);
      var t := s[k..][|lit|..];
      StarSplits(rest, t);
      var j :| 0 <= j <= |t| && Matches(rest, t[j..]);
      assert t[j..] == s[|lit|..][k + j..];
      StarSplits(rest, s[|lit|..]);
    }
  }

  /** One step of backtracking: with the star's shortest choice refuted, it must eat a character. */
  lemma StarEats(rest: string, s: string)
    requires s != "" && !Matches(rest, s)
    ensures Matches("*" + rest, s) <==> Matches("*" + rest, s[1..])
  {
    assert ("*" + rest)[1..] == rest;
  }

  /** A star followed by matched literal text at the end of the input: the star can eat nothing more. */
  lemma StarAtEnd(lit: string, rest: string, s: string)
    requires '*' !in lit && lit == s
    ensures Matches("*" + lit + rest, s) <==> Matches(rest, "")
  {
    assert "*" + lit + rest == "*" + (lit + rest);
    StarSplits(lit + rest, s);
    assert s[0..] == s && s[|lit|..] == "";
    LiteralPrefix(lit, rest, s);
    if k :| 0 <= k <= |s| && Matches(lit + rest, s[k..]) {
      LiteralPrefix(lit, rest, s[k..]);
    }
  }

  /** What the loop remembers: matching the whole is matching what is left, restarting from the
      last star (if any), whose following literal text up to pi has been seen in s[mark..si]. */
  ghost predicate Remembers(p: string, s: string, star: int, mark: int, pi: int, si: int)
  {
    && 0 <= pi <= |p| && 0 <= mark <= si <= |s| && -1 <= star < |p|
    && if star < 0 then Matches(p, s) <==> Matches(p[pi..], s[si..])
       else && star < pi && p[star] == '*'
            && '*' !in p[star + 1..pi] && p[star + 1..pi] == s[mark..si]
            && (Matches(p, s) <==> Matches(p[star..], s[mark..]))
  }

  lemma RemembersAll(p: string, s: string)
    ensures Remembers(p, s, -1, 0, 0, 0)
  {
    assert p[0..] == p && s[0..] == s;
  }

  /** Against the empty text, stars are skipped, and anything else fails. */
  lemma StarOfNothing(p: string, pi: nat)
    requires pi < |p| && p[pi] == '*'
    ensures Matches(p[pi..], "") <==> Matches(p[pi + 1..], "")
  {
    assert p[pi..][1..] == p[pi + 1..];
  }

  lemma OnlyNothing(p: string, pi: nat)
    requires pi <= |p| && (pi < |p| ==> p[pi] != '*')
    ensures Matches(p[pi..], "") <==> pi == |p|
  {
  }

  lemma OnStar(p: string, s: string, star: int, mark: int, pi: int, si: int)
    requires Remembers(p, s, star, mark, pi, si) && pi < |p| && p[pi] == '*'
    ensures Remembers(p, s, pi, si, pi + 1, si)
  {
    if star >= 0 {
      var lit, rest := p[star + 1..pi], p[pi + 1..];
      assert p[star..] == "*" + lit + "*" + rest;
      assert p[pi..] == "*" + rest && s[mark..][|lit|..] == s[si..];
      LastStarSuffices(lit, rest, s[mark..]);
    }
  }

  lemma OnEqual(p: string, s: string, star: int, mark: int, pi: int, si: int)
    requires Remembers(p, s, star, mark, pi, si) && pi < |p| && si < |s|
    requires p[pi] != '*' && p[pi] == s[si]
    ensures Remembers(p, s, star, mark, pi + 1, si + 1)
  {
    if star < 0 {
      assert p[pi..][1..] == p[pi + 1..] && s[si..][1..] == s[si + 1..];
    } else {
      assert p[star + 1..pi + 1] == p[star + 1..pi] + [p[pi]];
      assert s[mark..si + 1] == s[mark..si] + [s[si]];
    }
  }

  /** With the last star's shortest choice refuted at pi, si, it eats one more character. */
  lemma OnMismatch(p: string, s: string, star: int, mark: int, pi: int, si: int)
    requires Remembers(p, s, star, mark, pi, si) && star >= 0 && si < |s|
    requires pi < |p| ==> p[pi] != '*' && p[pi] != s[si]
    ensures Remembers(p, s, star, mark + 1, star + 1, mark + 1)
  {
    var lit, rest, t := p[star + 1..pi], p[pi..], s[mark..];
    assert !Matches(lit + rest, t) by {
      LiteralPrefix(lit, rest, t);
      assert t[|lit|..] == s[si..];
    }
    assert p[star..] == "*" + (lit + rest) && t[1..] == s[mark + 1..];
    StarEats(lit + rest, t);
  }

  lemma OnDeadEnd(p: string, s: string, mark: int, pi: int, si: int)
    requires Remembers(p, s, -1, mark, pi, si) && si < |s|
    requires pi < |p| ==> p[pi] != '*' && p[pi] != s[si]
    ensures !Matches(p, s)
  {
  }

  lemma OnExhausted(p: string, s: string, star: int, mark: int, pi: int)
    requires Remembers(p, s, star, mark, pi, |s|)
    ensures Matches(p, s) <==> Matches(p[pi..], "")
  {
    if star >= 0 {
      var lit, rest := p[star + 1..pi], p[pi..];
      assert p[star..] == "*" + lit + rest && s[mark..] == lit;
      StarAtEnd(lit, rest, s[mark..]);
    }
  }

  method MatchGlob(pattern: string, s: string) returns (matched: bool)
    ensures matched <==> Matches(pattern, s)
  {
    var pi, si := 0, 0;
    var star := -1;
    var mark := 0;
    RemembersAll(pattern, s);
    hide Matches;
    while si < |s|
      invariant Remembers(pattern, s, star, mark, pi, si)
      decreases |s| - mark, |pattern| - pi + |s| - si
    {
      if pi < |pattern| && pattern[pi] == '*' {
        OnStar(pattern, s, star, mark, pi, si);
        star, mark := pi, si;
        pi := pi + 1;
      } else if pi < |pattern| && pattern[pi] == s[si] {
        OnEqual(pattern, s, star, mark, pi, si);
        pi, si := pi + 1, si + 1;
      } else if star >= 0 {
        OnMismatch(pattern, s, star, mark, pi, si);
        pi := star + 1;
        mark := mark + 1;
        si := mark;
      } else {
        OnDeadEnd(pattern, s, mark, pi, si);
        return false;
      }
    }
    OnExhausted(pattern, s, star, mark, pi);
    while pi < |pattern| && pattern[pi] == '*'
      invariant 0 <= pi <= |pattern|
      invariant Matches(pattern, s) <==> Matches(pattern[pi..], "")
    {
      StarOfNothing(pattern, pi);
      pi := pi + 1;
    }
    OnlyNothing(pattern, pi);
    matched := pi == |pattern|;
  }
}
