/** The memo of refused re-reviews and the gate's time bounds (api/v1alpha1/reviewready.go). */
module Refusals {
  import opened Prelude

  const MAX_REFUSALS: nat := 16

  datatype Key = Key(repo: string, pr: int, head: string)

  datatype Refusal = Refusal(key: Key, reason: string, verdictUrl: string, emitted: bool, hostNotified: bool)

  // ----------------------------------------------------------------------- recording

  /** The position of the key, or the length. */
  function IndexOf(list: seq<Refusal>, k: Key): (i: nat)
    ensures i <= |list| && (forall j :: 0 <= j < i ==> list[j].key != k) && (i < |list| ==> list[i].key == k)
  {
    if list == [] || list[0].key == k then 0 else 1 + IndexOf(list[1..], k)
  }

  /** A re-refusal with the same verdict keeps the notice already given. */
  function Refreshed(list: seq<Refusal>, r: Refusal): Refusal {
    var i := IndexOf(list, r.key);
    if i < |list| && list[i].verdictUrl == r.verdictUrl then r.(hostNotified := list[i].hostNotified) else r
  }

  /** The list moved to the front, however long. */
  function MovedToFront(list: seq<Refusal>, r: Refusal): seq<Refusal> {
    var i := IndexOf(list, r.key);
    [Refreshed(list, r)] + if i < |list| then list[..i] + list[i + 1..] else list
  }

  function Capped<T>(s: seq<T>): seq<T> { if |s| > MAX_REFUSALS then s[..MAX_REFUSALS] else s }

  function Record(list: seq<Refusal>, r: Refusal): seq<Refusal> { Capped(MovedToFront(list, r)) }

  /** The newest entry of the pull request, at whatever head. */
  function RefusalFor(list: seq<Refusal>, repo: string, pr: int): Option<Refusal> {
    if list == [] then None
    else if list[0].key.repo == repo && list[0].key.pr == pr then Some(list[0])
    else RefusalFor(list[1..], repo, pr)
  }

  function LowerChar(c: char): char { if 'A' <= c <= 'Z' then c + 32 as char else c }

  function Lower(s: string): (t: string)
    ensures |t| == |s|
  {
    seq(|s|, i requires 0 <= i < |s| => LowerChar(s[i]))
  }

  /** The entry covers the head, either being an abbreviation of the other. */
  predicate Covers(memo: string, head: string) {
    if memo == "" || head == "" then false
    else if |Lower(memo)| <= |Lower(head)| then Lower(memo) <= Lower(head)
    else Lower(head) <= Lower(memo)
  }

  /** Two revisions cover each other exactly when both are known and agree, letter case aside, as far
      as the shorter goes; an empty one covers nothing. */
  lemma CoversEachOther(memo: string, head: string)
    ensures Covers(memo, head) <==> Covers(head, memo)
    ensures Covers(memo, head) <==>
      (memo != "" && head != "" && forall i :: 0 <= i < |memo| && i < |head| ==> LowerChar(memo[i]) == LowerChar(head[i]))
  {
    var a, b := Lower(memo), Lower(head);
    assert forall i :: 0 <= i < |memo| ==> a[i] == LowerChar(memo[i]);
    assert forall i :: 0 <= i < |head| ==> b[i] == LowerChar(head[i]);
  }

  // ------------------------------------------------------------------------ histories

  /** Notify: the host notice for an entry was posted. */
  datatype Step = Refuse(r: Refusal) | Notify(key: Key)

  function Notified(list: seq<Refusal>, k: Key): seq<Refusal> {
    var i := IndexOf(list, k);
    if i < |list| then list[i := list[i].(hostNotified := true)] else list
  }

  function Memo(run: seq<Step>): seq<Refusal> {
    if run == [] then []
    else
      var before := Memo(run[..|run| - 1]);
      match run[|run| - 1]
      case Refuse(r) => Record(before, r)
      case Notify(k) => Notified(before, k)
  }

  function Keys(list: seq<Refusal>): (ks: seq<Key>)
    ensures |ks| == |list| && forall i :: 0 <= i < |list| ==> ks[i] == list[i].key
  {
    seq(|list|, i requires 0 <= i < |list| => list[i].key)
  }

  /** The keys refused, most recent first, each once: a list without a bound. */
  function Recent(run: seq<Step>): seq<Key> {
    if run == [] then []
    else
      var before := Recent(run[..|run| - 1]);
      match run[|run| - 1]
      case Refuse(r) => [r.key] + Without(before, r.key)
      case Notify(_) => before
  }

  function Without(ks: seq<Key>, k: Key): seq<Key> {
    if ks == [] then [] else (if ks[0] == k then [] else [ks[0]]) + Without(ks[1..], k)
  }

  predicate Distinct(ks: seq<Key>) { forall i, j :: 0 <= i < j < |ks| ==> ks[i] != ks[j] }

  lemma {:induction false} WithoutAbsent(ks: seq<Key>, k: Key)
    requires k !in ks
    ensures Without(ks, k) == ks
  {
    if ks != [] { WithoutAbsent(ks[1..], k); }
  }

  lemma {:induction false} WithoutOne(ks: seq<Key>, i: nat)
    requires Distinct(ks) && i < |ks|
    ensures Without(ks, ks[i]) == ks[..i] + ks[i + 1..]
  {
    if i == 0 {
      WithoutAbsent(ks[1..], ks[0]);
    } else {
      assert ks[1..][i - 1] == ks[i];
      WithoutOne(ks[1..], i - 1);
      assert ks[..i] == [ks[0]] + ks[1..][..i - 1] && ks[1..][i - 1 + 1..] == ks[i + 1..];
    }
  }

  lemma {:induction false} WithoutKeeps(ks: seq<Key>, k: Key)
    ensures forall x :: x in Without(ks, k) <==> x in ks && x != k
    ensures Distinct(ks) ==> Distinct(Without(ks, k))
  {
    if ks != [] {
      WithoutKeeps(ks[1..], k);
      assert ks == [ks[0]] + ks[1..];
      if Distinct(ks) {
        assert forall i :: 0 <= i < |ks[1..]| ==> ks[1..][i] == ks[i + 1] != ks[0];
        assert ks[0] !in Without(ks[1..], k) && Distinct(Without(ks[1..], k));
      }
    }
  }

  /** Removing a key that stands within the first n leaves the rest of them; one beyond, all. */
  lemma {:induction false} WithoutPrefix(ks: seq<Key>, k: Key, n: nat)
    requires n <= |ks| && Distinct(ks)
    ensures Without(ks[..n], k) <= Without(ks, k)
    ensures |Without(ks[..n], k)| == if k in ks[..n] then n - 1 else n
  {
    if n > 0 {
      assert ks[..n][1..] == ks[1..][..n - 1];
      WithoutPrefix(ks[1..], k, n - 1);
      if ks[0] == k {
        assert k !in ks[1..][..n - 1];
      } else {
        assert ks[..n] == [ks[0]] + ks[1..][..n - 1];
      }
    }
  }

  lemma RecordKeys(list: seq<Refusal>, r: Refusal)
    requires Distinct(Keys(list))
    ensures Keys(MovedToFront(list, r)) == [r.key] + Without(Keys(list), r.key)
  {
    var i, ks := IndexOf(list, r.key), Keys(list);
    hide Distinct, Without;
    KeysCons(Refreshed(list, r), if i < |list| then list[..i] + list[i + 1..] else list);
    if i < |list| {
      WithoutOne(ks, i);
      KeysSplit(list, i);
    } else {
      forall j | 0 <= j < |ks| ensures ks[j] != r.key {}
      WithoutAbsent(ks, r.key);
    }
  }

  lemma KeysCons(r: Refusal, list: seq<Refusal>)
    ensures Keys([r] + list) == [r.key] + Keys(list)
  {
  }

  lemma KeysSplit(list: seq<Refusal>, i: nat)
    requires i < |list|
    ensures Keys(list[..i] + list[i + 1..]) == Keys(list)[..i] + Keys(list)[i + 1..] && Keys(list)[i] == list[i].key
  {
  }

  /** The first sixteen of a moved-to-front list depend only on the first sixteen before. */
  lemma FrontOfFront(ks: seq<Key>, k: Key)
    requires Distinct(ks)
    ensures Capped([k] + Without(Capped(ks), k)) == Capped([k] + Without(ks, k))
  {
    if |ks| > MAX_REFUSALS {
      WithoutPrefix(ks, k, MAX_REFUSALS);
      var some, all := Without(ks[..MAX_REFUSALS], k), Without(ks, k);
      assert [k] + some <= [k] + all;
      assert |[k] + some| >= MAX_REFUSALS;
    }
  }

  lemma CappedKeys(list: seq<Refusal>)
    ensures Keys(Capped(list)) == Capped(Keys(list))
  {
  }

  lemma CappedDistinct(ks: seq<Key>)
    requires Distinct(ks)
    ensures Distinct(Capped(ks))
  {
  }

  lemma RefuseStep(list: seq<Refusal>, recent: seq<Key>, r: Refusal)
    requires Keys(list) == Capped(recent) && Distinct(recent)
    ensures Keys(Record(list, r)) == Capped([r.key] + Without(recent, r.key)) && Distinct([r.key] + Without(recent, r.key))
  {
    hide *;
    CappedDistinct(recent);
    RecordKeys(list, r);
    RecordIs(list, r);
    CappedKeys(MovedToFront(list, r));
    FrontOfFront(recent, r.key);
    FrontDistinct(recent, r.key);
  }

  lemma RecordIs(list: seq<Refusal>, r: Refusal)
    ensures Record(list, r) == Capped(MovedToFront(list, r))
  {
  }

  lemma FrontDistinct(ks: seq<Key>, k: Key)
    requires Distinct(ks)
    ensures Distinct([k] + Without(ks, k))
  {
    WithoutKeeps(ks, k);
    assert k !in Without(ks, k);
  }

  lemma NotifyStep(list: seq<Refusal>, k: Key)
    ensures Keys(Notified(list, k)) == Keys(list)
  {
  }

  /** After any history the memo's keys are distinct, and exactly the first sixteen of the
      unbounded most-recent-first list. */
  lemma {:induction false} MemoIsTheRecent(run: seq<Step>)
    ensures Keys(Memo(run)) == Capped(Recent(run)) && Distinct(Keys(Memo(run))) && Distinct(Recent(run))
  {
    hide Record, Notified, Capped, Keys, Distinct, Without;
    if run == [] {
      NoKeys();
    } else {
      var init, s := run[..|run| - 1], run[|run| - 1];
      MemoIsTheRecent(init);
      if s.Refuse? { RefuseStep(Memo(init), Recent(init), s.r); } else { NotifyStep(Memo(init), s.key); }
      CappedDistinct(Recent(run));
    }
  }

  lemma NoKeys()
    ensures Keys([]) == Capped([]) && Distinct([]) && Distinct(Keys([]))
  {
  }

  // ---------------------------------------------------------------------------- notices

  predicate Holds(list: seq<Refusal>, k: Key, url: string, notified: bool) {
    exists i :: 0 <= i < |list| && list[i].key == k && list[i].verdictUrl == url && (notified ==> list[i].hostNotified)
  }

  predicate Remembered(list: seq<Refusal>, k: Key) { exists i :: 0 <= i < |list| && list[i].key == k }

  /** The notice carries over to a re-refusal of a remembered head if and only if the verdict is the
      same; the fresh entry starts unnotified. */
  lemma NoticeCarries(list: seq<Refusal>, r: Refusal)
    requires !r.hostNotified
    ensures Record(list, r)[0].key == r.key
    ensures Record(list, r)[0].hostNotified <==>
      (var i := IndexOf(list, r.key); i < |list| && list[i].verdictUrl == r.verdictUrl && list[i].hostNotified)
  {
  }

  lemma NoticeStep(list: seq<Refusal>, s: Step, k: Key, url: string)
    requires Distinct(Keys(list)) && Holds(list, k, url, true) && (s.Refuse? && s.r.key == k ==> s.r.verdictUrl == url)
    ensures var list' := if s.Refuse? then Record(list, s.r) else Notified(list, s.key);
      Remembered(list', k) ==> Holds(list', k, url, true)
  {
    var at :| 0 <= at < |list| && list[at].key == k && list[at].verdictUrl == url && list[at].hostNotified;
    assert Keys(list)[at] == k;
    if s.Refuse? {
      if s.r.key == k { SameHeadAgain(list, s.r, at); }
      else if Remembered(Record(list, s.r), k) { OtherHead(list, s.r, at); }
    } else {
      var list' := Notified(list, s.key);
      assert list'[at].key == k && list'[at].verdictUrl == url && list'[at].hostNotified;
    }
  }

  lemma SameHeadAgain(list: seq<Refusal>, r: Refusal, at: nat)
    requires Distinct(Keys(list)) && at < |list| && list[at].key == r.key && list[at].verdictUrl == r.verdictUrl && list[at].hostNotified
    ensures Holds(Record(list, r), r.key, r.verdictUrl, true)
  {
    var i := IndexOf(list, r.key);
    assert Keys(list)[at] == r.key && (i < |list| ==> Keys(list)[i] == r.key);
    assert i == at;
    assert Record(list, r)[0] == Refreshed(list, r);
  }

  lemma OtherHead(list: seq<Refusal>, r: Refusal, at: nat)
    requires Distinct(Keys(list)) && at < |list| && list[at].key != r.key && list[at].hostNotified
    requires Remembered(Record(list, r), list[at].key)
    ensures Holds(Record(list, r), list[at].key, list[at].verdictUrl, true)
  {
    var list' := Record(list, r);
    var j :| 0 <= j < |list'| && list'[j].key == list[at].key;
    var m := StayedFrom(list, r, j);
    assert Keys(list)[m] == Keys(list)[at] && m == at;
  }

  /** Every entry kept behind the new one stood in the list before. */
  lemma StayedFrom(list: seq<Refusal>, r: Refusal, j: nat) returns (m: nat)
    requires 0 < j < |Record(list, r)|
    ensures m < |list| && Record(list, r)[j] == list[m]
  {
    var i := IndexOf(list, r.key);
    m := if i < |list| && j - 1 >= i then j else j - 1;
    assert Record(list, r)[j] == MovedToFront(list, r)[j];
    hide IndexOf, Refreshed;
  }

  /** As long as the head stays remembered with the same verdict, one notice is enough: whatever is
      recorded after it, the entry stays notified. */
  lemma {:induction false} OneNoticeWhileRemembered(run: seq<Step>, more: seq<Step>, k: Key, url: string)
    requires Holds(Memo(run), k, url, true)
    requires forall s :: s in more && s.Refuse? && s.r.key == k ==> s.r.verdictUrl == url
    requires forall n :: 0 <= n <= |more| ==> Remembered(Memo(run + more[..n]), k)
    ensures Holds(Memo(run + more), k, url, true)
  {
    hide Holds, Record, Notified, Distinct, Keys, Capped, Recent;
    if more == [] {
      assert run + more == run;
    } else {
      var n := |more| - 1;
      var init := more[..n];
      forall m | 0 <= m <= n ensures Remembered(Memo(run + init[..m]), k) { assert init[..m] == more[..m]; }
      OneNoticeWhileRemembered(run, init, k, url);
      assert (run + more)[..|run + more| - 1] == run + init && more[..|more|] == more;
      MemoIsTheRecent(run + init);
      NoticeStep(Memo(run + init), more[n], k, url);
    }
  }

  // -------------------------------------------------------------------------- lookups

  predicate OfPr(k: Key, repo: string, pr: int) { k.repo == repo && k.pr == pr }

  function FirstOf(ks: seq<Key>, repo: string, pr: int): Option<Key> {
    if ks == [] then None else if OfPr(ks[0], repo, pr) then Some(ks[0]) else FirstOf(ks[1..], repo, pr)
  }

  /** The head of the pull request's last refusal. */
  function LatestHead(run: seq<Step>, repo: string, pr: int): Option<Key> {
    if run == [] then None
    else
      var s := run[|run| - 1];
      if s.Refuse? && OfPr(s.r.key, repo, pr) then Some(s.r.key) else LatestHead(run[..|run| - 1], repo, pr)
  }

  /** No other head of k's pull request was refused after k's last refusal. */
  ghost predicate LastOfItsPr(run: seq<Step>, k: Key) {
    exists i :: 0 <= i < |run| && run[i].Refuse? && run[i].r.key == k
      && forall j :: i < j < |run| && run[j].Refuse? && OfPr(run[j].r.key, k.repo, k.pr) ==> run[j].r.key == k
  }

  lemma {:induction false} WithoutKeepsFirst(ks: seq<Key>, k: Key, repo: string, pr: int)
    requires !OfPr(k, repo, pr)
    ensures FirstOf(Without(ks, k), repo, pr) == FirstOf(ks, repo, pr)
  {
    if ks != [] {
      WithoutKeepsFirst(ks[1..], k, repo, pr);
      var rest := Without(ks[1..], k);
      assert ([ks[0]] + rest)[1..] == rest && [] + rest == rest;
    }
  }

  lemma {:induction false} RecentStartsWithLatest(run: seq<Step>, repo: string, pr: int)
    ensures FirstOf(Recent(run), repo, pr) == LatestHead(run, repo, pr)
  {
    if run != [] {
      var init, s := run[..|run| - 1], run[|run| - 1];
      RecentStartsWithLatest(init, repo, pr);
      if s.Refuse? {
        var rest := Without(Recent(init), s.r.key);
        assert ([s.r.key] + rest)[1..] == rest;
        if !OfPr(s.r.key, repo, pr) { WithoutKeepsFirst(Recent(init), s.r.key, repo, pr); }
      }
    }
  }

  lemma PrefixOfCons(k: Key, rest: seq<Key>, n: nat)
    requires 0 < n <= |rest| + 1
    ensures ([k] + rest)[..n] == [k] + rest[..n - 1] && ([k] + rest)[..n][1..] == rest[..n - 1]
  {
  }

  /** The first of a pull request is within a prefix, or no other of it is. */
  lemma {:induction false} FirstOfPrefix(ks: seq<Key>, n: nat, repo: string, pr: int)
    requires n <= |ks|
    ensures var f := FirstOf(ks, repo, pr);
      FirstOf(ks[..n], repo, pr) == if f.Some? && f.value in ks[..n] then f else None
    ensures FirstOf(ks, repo, pr).Some? ==> OfPr(FirstOf(ks, repo, pr).value, repo, pr)
  {
    if ks != [] {
      FirstOfPrefix(ks[1..], if n == 0 then 0 else n - 1, repo, pr);
      if n > 0 {
        PrefixOfCons(ks[0], ks[1..], n);
        assert ks == [ks[0]] + ks[1..];
      }
    }
  }

  lemma {:induction false} FoundKey(list: seq<Refusal>, repo: string, pr: int)
    ensures RefusalFor(list, repo, pr).Some? <==> FirstOf(Keys(list), repo, pr).Some?
    ensures RefusalFor(list, repo, pr).Some? ==> FirstOf(Keys(list), repo, pr).value == RefusalFor(list, repo, pr).value.key
  {
    if list != [] {
      FoundKey(list[1..], repo, pr);
      assert Keys(list)[1..] == Keys(list[1..]);
    }
  }

  /** After any history a lookup finds the head of the pull request's last refusal or, once the memo
      has let that one go, nothing at all. */
  lemma LookupFindsTheLatest(run: seq<Step>, repo: string, pr: int)
    ensures var found, latest := RefusalFor(Memo(run), repo, pr), LatestHead(run, repo, pr);
      && (found.Some? <==> latest.Some? && latest.value in Keys(Memo(run)))
      && (found.Some? ==> found.value.key == latest.value)
  {
    hide Keys, Memo, Recent, FirstOf, RefusalFor, Distinct, LatestHead;
    MemoIsTheRecent(run);
    RecentStartsWithLatest(run, repo, pr);
    FoundKey(Memo(run), repo, pr);
    var ks := Recent(run);
    FirstOfPrefix(ks, if |ks| > MAX_REFUSALS then MAX_REFUSALS else |ks|, repo, pr);
    assert ks[..|ks|] == ks;
  }

  lemma {:induction false} LatestMeansNoneAfter(run: seq<Step>, k: Key)
    ensures LatestHead(run, k.repo, k.pr) == Some(k) <==> LastOfItsPr(run, k)
  {
    if run != [] {
      var n := |run| - 1;
      var init, s := run[..n], run[n];
      LatestMeansNoneAfter(init, k);
      if s.Refuse? && OfPr(s.r.key, k.repo, k.pr) {
        if s.r.key == k { assert LastOfItsPr(run, k); }
      } else {
        SilentStep(run, k);
      }
    }
  }

  lemma SilentStep(run: seq<Step>, k: Key)
    requires run != [] && !(run[|run| - 1].Refuse? && OfPr(run[|run| - 1].r.key, k.repo, k.pr))
    ensures LastOfItsPr(run, k) <==> LastOfItsPr(run[..|run| - 1], k)
  {
    var n := |run| - 1;
    var init := run[..n];
    if LastOfItsPr(init, k) {
      var i :| 0 <= i < n && init[i].Refuse? && init[i].r.key == k
        && forall j :: i < j < n && init[j].Refuse? && OfPr(init[j].r.key, k.repo, k.pr) ==> init[j].r.key == k;
      assert run[i] == init[i] && forall j :: i < j < n ==> run[j] == init[j];
      assert LastOfItsPr(run, k);
    }
    if LastOfItsPr(run, k) {
      var i :| 0 <= i < |run| && run[i].Refuse? && run[i].r.key == k
        && forall j :: i < j < |run| && run[j].Refuse? && OfPr(run[j].r.key, k.repo, k.pr) ==> run[j].r.key == k;
      assert i < n && init[i] == run[i] && forall j :: i < j < n ==> init[j] == run[j];
      assert LastOfItsPr(init, k);
    }
  }

  /** A remembered head is found by the lookup if and only if no other head of its pull request was
      refused after it: an older head that comes back is not recognised, though the memo holds it. */
  lemma OlderHeadIsNotSeen(run: seq<Step>, k: Key)
    requires Remembered(Memo(run), k)
    ensures RefusalFor(Memo(run), k.repo, k.pr).Some?
    ensures RefusalFor(Memo(run), k.repo, k.pr).value.key == k <==> LastOfItsPr(run, k)
  {
    LookupFindsTheLatest(run, k.repo, k.pr);
    LatestMeansNoneAfter(run, k);
    RememberedIsFound(Memo(run), k);
  }

  lemma {:induction false} RememberedIsFound(list: seq<Refusal>, k: Key)
    requires Remembered(list, k)
    ensures RefusalFor(list, k.repo, k.pr).Some?
  {
    if list[0].key != k {
      var i :| 0 <= i < |list| && list[i].key == k;
      assert list[1..][i - 1].key == k;
      RememberedIsFound(list[1..], k);
    }
  }

  /** The shortest such history: two heads of one pull request, and the first is no longer seen. */
  lemma TwoHeads(older: Refusal, newer: Refusal)
    requires older.key.repo == newer.key.repo && older.key.pr == newer.key.pr && older.key.head != newer.key.head
    ensures var memo := Memo([Refuse(older), Refuse(newer)]);
      Remembered(memo, older.key) && RefusalFor(memo, older.key.repo, older.key.pr) == Some(newer)
  {
    var run := [Refuse(older), Refuse(newer)];
    assert run[..1] == [Refuse(older)] && run[..1][..0] == [];
    assert Memo(run[..1]) == [older];
    assert Memo(run) == [newer, older];
    assert Memo(run)[1].key == older.key;
  }

  // -------------------------------------------------------------------------- bounds

  /** Durations in seconds; an unset or unparsable one is None. */
  datatype Bounds = Bounds(runBound: Option<int>, dispatchTimeout: Option<int>)

  const ONE_SHOT_RUN_BOUND := 1800
  const MAX_RUN_BOUND := 7200
  const DEFAULT_MARGIN := 900
  const MIN_DISPATCH_MARGIN := 300

  function RunBound(b: Bounds): int {
    if b.runBound.Some? && 0 < b.runBound.value <= MAX_RUN_BOUND then b.runBound.value else ONE_SHOT_RUN_BOUND
  }

  function DispatchTimeout(b: Bounds): int {
    if b.dispatchTimeout.Some? && b.dispatchTimeout.value >= RunBound(b) + MIN_DISPATCH_MARGIN then b.dispatchTimeout.value
    else RunBound(b) + DEFAULT_MARGIN
  }

  /** Whatever is configured, no run is presumed dead while it may still be alive; a configured
      timeout is honoured exactly when it leaves the margin over the wall in force. */
  lemma NeverPresumedDeadAlive(b: Bounds, dispatched: int, ended: int, now: int)
    requires dispatched <= ended <= dispatched + RunBound(b)
    ensures 0 < RunBound(b) <= MAX_RUN_BOUND
    ensures now - dispatched >= DispatchTimeout(b) ==> now >= ended + MIN_DISPATCH_MARGIN
    ensures b.dispatchTimeout.Some? ==>
      (DispatchTimeout(b) == b.dispatchTimeout.value <==> b.dispatchTimeout.value - RunBound(b) >= MIN_DISPATCH_MARGIN)
  {
  }
}
