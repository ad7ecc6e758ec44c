/** The attempt status as its writers change it (internal/attempt/lifecycle.go): upserts, evidence,
    outcomes, and the compaction every write ends with. */
module StatusRecord {
  import opened StatusLedger

  datatype Phase = Reconciling | Validated | Failed

  datatype Run = Run(name: string, phase: string, startedAt: Time, endedAt: Time)

  datatype Outcome = Outcome(runName: string, phase: string, envelopes: seq<Envelope>, message: string)

  // ------------------------------------------------------------------------ bounding

  function Bounded(e: Envelope): Envelope {
    e.(payload := if |e.payload| > MAX_PAYLOAD_BYTES then "" else e.payload,
       summary := if |e.summary| > MAX_SUMMARY_BYTES then e.summary[..MAX_SUMMARY_BYTES] else e.summary)
  }

  /** Clamping bounds what the entry's own text weighs, is idempotent, and keeps the key, the time
      and everything promotion reads. */
  lemma BoundedEnvelope(e: Envelope)
    ensures var b := Bounded(e);
      && |b.payload| <= MAX_PAYLOAD_BYTES && |b.summary| <= MAX_SUMMARY_BYTES && Bytes(b) <= Bytes(e) && Bounded(b) == b
      && SameKey(b, e) && b.producedAt == e.producedAt && b.claims == e.claims && b.references == e.references
  {
  }

  // ---------------------------------------------------------------------------- runs

  /** An unset start time keeps the recorded one. */
  function UpsertRun(runs: seq<Run>, r: Run): seq<Run> {
    if runs == [] then [r]
    else if runs[0].name == r.name then [if r.startedAt == 0 then r.(startedAt := runs[0].startedAt) else r] + runs[1..]
    else [runs[0]] + UpsertRun(runs[1..], r)
  }

  predicate DistinctNames(runs: seq<Run>) { forall i, j :: 0 <= i < j < |runs| ==> runs[i].name != runs[j].name }

  /** A run started and then finished is one record, with both times, whatever came between. */
  lemma {:induction false} UpsertRunKeeps(runs: seq<Run>, r: Run)
    requires DistinctNames(runs)
    ensures var after := UpsertRun(runs, r);
      && DistinctNames(after)
      && (forall n :: n in Names(after) <==> n in Names(runs) || n == r.name)
      && (forall x :: x in runs && x.name != r.name ==> x in after)
      && (forall x :: x in after ==> (x in runs && x.name != r.name) || (x.name == r.name && x.phase == r.phase && x.endedAt == r.endedAt))
      && (forall x, y :: x in runs && y in after && x.name == y.name == r.name ==> y.startedAt == if r.startedAt == 0 then x.startedAt else r.startedAt)
  {
    if runs != [] {
      NamesCons(runs[0], runs[1..]);
      assert runs == [runs[0]] + runs[1..];
      if runs[0].name == r.name {
        NamesCons(UpsertRun(runs, r)[0], runs[1..]);
        forall x | x in runs[1..] ensures x.name != r.name { var i :| 0 <= i < |runs[1..]| && runs[1..][i] == x; assert runs[i + 1] == x; }
      } else {
        UpsertRunKeeps(runs[1..], r);
        var rest := UpsertRun(runs[1..], r);
        forall i | 0 <= i < |rest| ensures rest[i].name != runs[0].name {
          assert rest[i].name in Names(rest);
          if rest[i].name in Names(runs[1..]) { var j :| 0 <= j < |runs[1..]| && runs[1..][j].name == rest[i].name; assert runs[j + 1].name != runs[0].name; }
        }
        NamesCons(runs[0], rest);
      }
    } else {
      NamesCons(r, []);
    }
  }

  lemma {:induction false} UpsertRunAt(runs: seq<Run>, r: Run, i: nat)
    requires i <= |runs| && (forall j :: 0 <= j < i ==> runs[j].name != r.name) && (i < |runs| ==> runs[i].name == r.name)
    ensures UpsertRun(runs, r) == if i == |runs| then runs + [r] else runs[i := if r.startedAt == 0 then r.(startedAt := runs[i].startedAt) else r]
  {
    if i > 0 {
      assert runs[0].name != r.name && runs == [runs[0]] + runs[1..];
      forall j | 0 <= j < i - 1 ensures runs[1..][j].name != r.name { assert runs[1..][j] == runs[j + 1]; }
      UpsertRunAt(runs[1..], r, i - 1);
    }
  }

  lemma NamesCons(r: Run, rest: seq<Run>)
    ensures Names([r] + rest) == {r.name} + Names(rest)
  {
    var all := [r] + rest;
    forall n | n in Names(rest) ensures n in Names(all) {
      var i :| 0 <= i < |rest| && rest[i].name == n;
      assert all[i + 1].name == n;
    }
    assert all[0].name in Names(all);
  }

  function Names(runs: seq<Run>): set<string> { set i | 0 <= i < |runs| :: runs[i].name }

  // ------------------------------------------------------------------------ evidence

  function EvidenceKey(r: Reference): string { r.binding + "/" + r.kind + "/" + r.identifier }

  predicate HasSlash(s: string) { '/' in s }

  /** The key tells a reference apart from every other if and only if none of its three parts
      contains a slash. */
  lemma EvidenceKeyIdentifies(a: Reference)
    ensures (forall b :: EvidenceKey(b) == EvidenceKey(a) ==> b.binding == a.binding && b.kind == a.kind && b.identifier == a.identifier)
      <==> !HasSlash(a.binding) && !HasSlash(a.kind) && !HasSlash(a.identifier)
  {
    if !HasSlash(a.binding) && !HasSlash(a.kind) && !HasSlash(a.identifier) {
      forall b | EvidenceKey(b) == EvidenceKey(a) ensures b.binding == a.binding && b.kind == a.kind && b.identifier == a.identifier {
        SlashFreeSplit(a, b);
      }
    } else {
      var b := Impostor(a);
      assert EvidenceKey(b) == EvidenceKey(a) && !(b.binding == a.binding && b.kind == a.kind && b.identifier == a.identifier);
    }
  }

  lemma SlashFreeSplit(a: Reference, b: Reference)
    requires EvidenceKey(b) == EvidenceKey(a) && !HasSlash(a.binding) && !HasSlash(a.kind) && !HasSlash(a.identifier)
    ensures b.binding == a.binding && b.kind == a.kind && b.identifier == a.identifier
  {
    var key := EvidenceKey(a);
    var p1, p2 := |a.binding|, |a.binding| + 1 + |a.kind|;
    var q1, q2 := |b.binding|, |b.binding| + 1 + |b.kind|;
    forall i | 0 <= i < |key| && i != p1 && i != p2 ensures key[i] != '/' {
      if i < p1 { assert key[i] == a.binding[i]; }
      else if i < p2 { assert key[i] == a.kind[i - p1 - 1]; }
      else { assert key[i] == a.identifier[i - p2 - 1]; }
    }
    assert key[q1] == '/' && key[q2] == '/';
    assert a.binding == key[..p1] && a.kind == key[p1 + 1..p2] && a.identifier == key[p2 + 1..];
    assert EvidenceKey(b)[..q1] == b.binding && EvidenceKey(b)[q1 + 1..q2] == b.kind && EvidenceKey(b)[q2 + 1..] == b.identifier;
  }

  /** Another reference with the same key: the parts split at a different slash. */
  lemma Impostor(a: Reference) returns (b: Reference)
    requires HasSlash(a.binding) || HasSlash(a.kind) || HasSlash(a.identifier)
    ensures EvidenceKey(b) == EvidenceKey(a) && b.binding != a.binding
  {
    if HasSlash(a.binding) {
      var x, y := SplitAtSlash(a.binding);
      b := Reference(x, y, a.kind + "/" + a.identifier, "");
      assert EvidenceKey(b) == EvidenceKey(a);
    } else if HasSlash(a.kind) {
      var x, y := SplitAtSlash(a.kind);
      b := Reference(a.binding + "/" + x, y, a.identifier, "");
      assert EvidenceKey(b) == EvidenceKey(a);
    } else {
      var x, y := SplitAtSlash(a.identifier);
      b := Reference(a.binding + "/" + a.kind, x, y, "");
      assert EvidenceKey(b) == EvidenceKey(a);
    }
  }

  lemma SplitAtSlash(s: string) returns (x: string, y: string)
    requires HasSlash(s)
    ensures s == x + "/" + y
  {
    var i :| 0 <= i < |s| && s[i] == '/';
    x, y := s[..i], s[i + 1..];
  }

  /** Appends the references whose key is not there yet. */
  function AddEvidence(existing: seq<Reference>, add: seq<Reference>): seq<Reference> {
    if add == [] then existing
    else AddOne(AddEvidence(existing, add[..|add| - 1]), add[|add| - 1])
  }

  function Keys(rs: seq<Reference>): set<string> { set r | r in rs :: EvidenceKey(r) }

  /** Every key added is there, none twice, nothing recorded is lost or moved; adding again changes
      nothing. */
  lemma {:induction false} AddEvidenceKeeps(existing: seq<Reference>, add: seq<Reference>)
    ensures existing <= AddEvidence(existing, add)
    ensures Keys(AddEvidence(existing, add)) == Keys(existing) + Keys(add)
    ensures DistinctEvidence(existing) ==> DistinctEvidence(AddEvidence(existing, add))
  {
    if add != [] {
      var init, r := add[..|add| - 1], add[|add| - 1];
      AddEvidenceKeeps(existing, init);
      AddOneKeeps(AddEvidence(existing, init), r);
      KeysAppend(init, r);
      hide Keys, EvidenceKey, DistinctEvidence;
      assert add == init + [r];
    } else {
      assert Keys(add) == {};
    }
  }

  function AddOne(before: seq<Reference>, r: Reference): seq<Reference> {
    if EvidenceKey(r) in Keys(before) then before else before + [r]
  }

  lemma AddOneKeeps(before: seq<Reference>, r: Reference)
    ensures before <= AddOne(before, r) && Keys(AddOne(before, r)) == Keys(before) + {EvidenceKey(r)}
    ensures DistinctEvidence(before) ==> DistinctEvidence(AddOne(before, r))
  {
    KeysAppend(before, r);
    hide EvidenceKey;
    forall i | 0 <= i < |before| ensures EvidenceKey(before[i]) in Keys(before) {}
  }

  lemma KeysAppend(rs: seq<Reference>, r: Reference)
    ensures Keys(rs + [r]) == Keys(rs) + {EvidenceKey(r)}
  {
  }

  predicate DistinctEvidence(rs: seq<Reference>) { forall i, j :: 0 <= i < j < |rs| ==> EvidenceKey(rs[i]) != EvidenceKey(rs[j]) }

  lemma {:induction false} AddEvidenceAgain(existing: seq<Reference>, add: seq<Reference>)
    requires Keys(add) <= Keys(existing)
    ensures AddEvidence(existing, add) == existing
  {
    if add != [] {
      KeysAppend(add[..|add| - 1], add[|add| - 1]);
      assert add == add[..|add| - 1] + [add[|add| - 1]];
      AddEvidenceAgain(existing, add[..|add| - 1]);
    }
  }

  // --------------------------------------------------------------------- the record

  function Last<T>(s: seq<T>, n: nat): seq<T> { if |s| > n then s[|s| - n..] else s }

  function Puts(es: seq<Envelope>): seq<Step> { seq(|es|, i requires 0 <= i < |es| => Put(Bounded(es[i]))) }

  function AllReferences(es: seq<Envelope>): seq<Reference> {
    if es == [] then [] else AllReferences(es[..|es| - 1]) + es[|es| - 1].references
  }

  predicate HasValidated(es: seq<Envelope>) { exists e :: e in es && exists c :: c in e.claims && c.validated }

  function PhaseAfter(o: Outcome): Phase {
    if o.phase == "failed" then Failed else if HasValidated(o.envelopes) then Validated else Reconciling
  }

  lemma {:induction false} AddEvidenceInTwo(existing: seq<Reference>, first: seq<Reference>, second: seq<Reference>)
    ensures AddEvidence(existing, first + second) == AddEvidence(AddEvidence(existing, first), second)
  {
    if second == [] {
      assert first + second == first;
    } else {
      var all := first + second;
      assert all[..|all| - 1] == first + second[..|second| - 1] && all[|all| - 1] == second[|second| - 1];
      AddEvidenceInTwo(existing, first, second[..|second| - 1]);
    }
  }

  /** history: every upsert and compaction the node results have been through. */
  class AttemptRecord {
    var nodeResults: seq<Envelope>
    var compactedNodeResults: nat
    var compactedThrough: Time
    var runs: seq<Run>
    var compactedRuns: nat
    var evidence: seq<Reference>
    var compactedEvidence: nat
    var phase: Phase
    var lastRunAt: Time
    var message: string
    ghost var history: seq<Step>

    function Kept(): Window
      reads this
    {
      Window(nodeResults, compactedNodeResults, compactedThrough)
    }

    ghost predicate Valid()
      reads this
    {
      Kept() == Stored(history) && DistinctNames(runs) && DistinctEvidence(evidence)
    }

    constructor ()
      ensures Valid() && history == [] && phase == Reconciling
    {
      nodeResults, compactedNodeResults, compactedThrough := [], 0, 0;
      runs, compactedRuns, evidence, compactedEvidence := [], 0, [], 0;
      phase, lastRunAt, message, history := Reconciling, 0, "", [];
    }

    /** Evicts the oldest entries by weight, down to the floor. */
    method EvictByWeight() returns (k: nat)
      modifies `nodeResults, `compactedNodeResults, `compactedThrough
      ensures k <= |old(nodeResults)| && nodeResults == old(nodeResults)[k..] && compactedNodeResults == old(compactedNodeResults) + k
      ensures compactedThrough == Latest(old(nodeResults)[..k], old(compactedThrough))
      ensures forall j :: 0 <= j < k ==> !Fits(old(nodeResults)[j..])
      ensures |nodeResults| <= MIN_TAIL || TotalBytes(nodeResults) <= MAX_STATUS_BYTES
    {
      ghost var es, t := nodeResults, compactedThrough;
      var size := SizeOf(nodeResults);
      k := 0;
      assert es[..0] == [] && es == es[0..];
      hide Latest, Bytes;
      LatestOfNone(t);
      while |nodeResults| > MIN_TAIL && size > MAX_STATUS_BYTES
        invariant k <= |es| && nodeResults == es[k..] && size == TotalBytes(nodeResults)
        invariant compactedNodeResults == old(compactedNodeResults) + k && compactedThrough == Latest(es[..k], t)
        invariant forall j :: 0 <= j < k ==> !Fits(es[j..])
        decreases |nodeResults|
      {
        var b := EnvelopeBytes(nodeResults[0]);
        size := size - b;
        LatestNext(es, k, t);
        assert es[k..][1..] == es[k + 1..];
        if nodeResults[0].producedAt > compactedThrough { compactedThrough := nodeResults[0].producedAt; }
        nodeResults := nodeResults[1..];
        compactedNodeResults := compactedNodeResults + 1;
        k := k + 1;
      }
    }

    /** Evicts the oldest entries past the count. */
    method EvictByCount() returns (drop: nat)
      modifies `nodeResults, `compactedNodeResults, `compactedThrough
      ensures drop == if |old(nodeResults)| > MAX_NODE_RESULTS then |old(nodeResults)| - MAX_NODE_RESULTS else 0
      ensures nodeResults == old(nodeResults)[drop..] && compactedNodeResults == old(compactedNodeResults) + drop
      ensures compactedThrough == Latest(old(nodeResults)[..drop], old(compactedThrough))
    {
      drop := 0;
      LatestOfNone(compactedThrough);
      assert nodeResults[..0] == [] && nodeResults[0..] == nodeResults;
      if |nodeResults| <= MAX_NODE_RESULTS { return; }
      drop := |nodeResults| - MAX_NODE_RESULTS;
      ghost var t := compactedThrough;
      hide Latest;
      for i := 0 to drop
        invariant nodeResults == old(nodeResults) && compactedThrough == Latest(nodeResults[..i], t)
        invariant compactedNodeResults == old(compactedNodeResults)
      {
        LatestNext(nodeResults, i, t);
        if nodeResults[i].producedAt > compactedThrough { compactedThrough := nodeResults[i].producedAt; }
      }
      nodeResults := nodeResults[drop..];
      compactedNodeResults := compactedNodeResults + drop;
    }

    method CompactNodeResults() returns (dropped: nat)
      modifies `nodeResults, `compactedNodeResults, `compactedThrough
      ensures Kept() == Compact(old(Kept())) && compactedNodeResults == old(compactedNodeResults) + dropped
    {
      ghost var es, t := nodeResults, compactedThrough;
      var k := EvictByWeight();
      var d := EvictByCount();
      dropped := k + d;
      CompactInTwo(es, old(compactedNodeResults), k, d, t);
      hide *;
    }

    static method SizeOf(es: seq<Envelope>) returns (size: nat)
      ensures size == TotalBytes(es)
    {
      size := 0;
      for i := 0 to |es|
        invariant size == TotalBytes(es[..i])
      {
        var b := EnvelopeBytes(es[i]);
        TotalAppend(es[..i], es[i]);
        assert es[..i + 1] == es[..i] + [es[i]];
        size := size + b;
      }
      assert es[..|es|] == es;
    }

    method CompactStatus() returns (dropped: nat)
      requires Valid()
      modifies `nodeResults, `compactedNodeResults, `compactedThrough, `runs, `compactedRuns, `evidence, `compactedEvidence, `history
      ensures Valid() && history == old(history) + [Compaction]
      ensures runs == Last(old(runs), MAX_RUNS) && compactedRuns + |runs| == old(compactedRuns + |runs|)
      ensures evidence == Last(old(evidence), MAX_EVIDENCE) && compactedEvidence + |evidence| == old(compactedEvidence + |evidence|)
      ensures dropped == compactedNodeResults + compactedRuns + compactedEvidence - old(compactedNodeResults + compactedRuns + compactedEvidence)
    {
      LastDistinct(runs, MAX_RUNS, evidence, MAX_EVIDENCE);
      hide Stored, Excess, Compact, DistinctNames, DistinctEvidence;
      StoredAfter(history, history + [Compaction]);
      dropped := CompactNodeResults();
      if |runs| > MAX_RUNS {
        var drop := |runs| - MAX_RUNS;
        runs, compactedRuns, dropped := runs[drop..], compactedRuns + drop, dropped + drop;
      }
      if |evidence| > MAX_EVIDENCE {
        var drop := |evidence| - MAX_EVIDENCE;
        evidence, compactedEvidence, dropped := evidence[drop..], compactedEvidence + drop, dropped + drop;
      }
      history := history + [Compaction];
    }

    method UpsertNodeResult(e: Envelope)
      requires Valid()
      modifies `nodeResults, `history
      ensures Valid() && history == old(history) + [Put(e)]
    {
      ghost var es := nodeResults;
      StoredPut(history, e);
      hide Stored, Upsert, DistinctNames, DistinctEvidence;
      history := history + [Put(e)];
      for i := 0 to |nodeResults|
        invariant nodeResults == es && forall j :: 0 <= j < i ==> !SameKey(es[j], e)
      {
        if nodeResults[i].nodeId == e.nodeId && nodeResults[i].runId == e.runId {
          UpsertReplaces(es, e, i);
          nodeResults := nodeResults[i := e];
          return;
        }
      }
      UpsertAppends(es, e);
      nodeResults := nodeResults + [e];
    }

    method UpsertRunRecord(r0: Run)
      requires Valid()
      modifies `runs
      ensures Valid() && runs == UpsertRun(old(runs), r0)
    {
      ghost var was := runs;
      UpsertRunKeeps(was, r0);
      hide UpsertRun, DistinctNames, DistinctEvidence, Stored, Names;
      for i := 0 to |runs|
        invariant runs == was && forall j :: 0 <= j < i ==> was[j].name != r0.name
      {
        if runs[i].name == r0.name {
          UpsertRunAt(was, r0, i);
          var r := if r0.startedAt == 0 then r0.(startedAt := runs[i].startedAt) else r0;
          runs := runs[i := r];
          return;
        }
      }
      UpsertRunAt(was, r0, |was|);
      runs := runs + [r0];
    }

    method AppendUniqueEvidence(add: seq<Reference>)
      requires Valid()
      modifies `evidence
      ensures Valid() && evidence == AddEvidence(old(evidence), add)
    {
      ghost var was := evidence;
      hide Stored, DistinctNames, Names;
      var seen := Keys(evidence);
      for i := 0 to |add|
        invariant evidence == AddEvidence(was, add[..i]) && seen == Keys(evidence) && Valid()
      {
        assert add[..i + 1][..i] == add[..i];
        AddEvidenceKeeps(was, add[..i + 1]);
        var k := EvidenceKey(add[i]);
        if k !in seen {
          KeysAppend(evidence, add[i]);
          evidence := evidence + [add[i]];
          seen := seen + {k};
        }
      }
      assert add[..|add|] == add;
    }

    /** One write: the run's outcome, its results and their evidence, then compaction. */
    method RecordRunOutcome(o: Outcome, now: Time)
      requires Valid()
      modifies this
      ensures Valid() && history == old(history) + Puts(o.envelopes) + [Compaction] && Fits(nodeResults)
      ensures runs == Last(UpsertRun(old(runs), Run(o.runName, o.phase, 0, now)), MAX_RUNS)
      ensures evidence == Last(AddEvidence(old(evidence), AllReferences(o.envelopes)), MAX_EVIDENCE)
      ensures phase == PhaseAfter(o) && lastRunAt == now
      ensures message == if o.message == "" then old(message) else if |o.message| > MAX_MESSAGE_BYTES then o.message[..MAX_MESSAGE_BYTES] else o.message
    {
      hide Stored, UpsertRun, AddEvidence, DistinctNames, DistinctEvidence, Fits, Puts;
      UpsertRunRecord(Run(o.runName, o.phase, 0, now));
      RecordResults(o.envelopes);
      RecordEvidence(o.envelopes);
      lastRunAt := now;
      if o.phase == "failed" { phase := Failed; }
      else if HasValidated(o.envelopes) { phase := Validated; }
      else { phase := Reconciling; }
      if o.message != "" {
        message := o.message;
        if |message| > MAX_MESSAGE_BYTES { message := message[..MAX_MESSAGE_BYTES]; }
      }
      var _ := CompactStatus();
      WrittenFits(history);
    }

    method RecordResults(envelopes: seq<Envelope>)
      requires Valid()
      modifies `nodeResults, `history
      ensures Valid() && history == old(history) + Puts(envelopes)
    {
      ghost var h := history;
      assert h + Puts([]) == h;
      hide Stored, DistinctNames, DistinctEvidence, Upsert, Bounded, Puts;
      for i := 0 to |envelopes|
        invariant Valid() && history == h + Puts(envelopes[..i])
      {
        PutsNext(h, envelopes, i);
        UpsertNodeResult(Bounded(envelopes[i]));
      }
      assert envelopes[..|envelopes|] == envelopes;
    }

    method RecordEvidence(envelopes: seq<Envelope>)
      requires Valid()
      modifies `evidence
      ensures Valid() && evidence == AddEvidence(old(evidence), AllReferences(envelopes))
    {
      ghost var was := evidence;
      NothingAdded(was);
      hide Stored, DistinctNames, DistinctEvidence, AddEvidence;
      for i := 0 to |envelopes|
        invariant Valid() && evidence == AddEvidence(was, AllReferences(envelopes[..i]))
      {
        assert envelopes[..i + 1][..i] == envelopes[..i];
        AddEvidenceInTwo(was, AllReferences(envelopes[..i]), envelopes[i].references);
        AppendUniqueEvidence(envelopes[i].references);
      }
      assert envelopes[..|envelopes|] == envelopes;
    }
  }

  lemma PutsNext(h: seq<Step>, es: seq<Envelope>, i: nat)
    requires i < |es|
    ensures h + Puts(es[..i + 1]) == (h + Puts(es[..i])) + [Put(Bounded(es[i]))]
  {
    assert Puts(es[..i + 1]) == Puts(es[..i]) + [Put(Bounded(es[i]))];
  }

  lemma LatestOfNone(t: Time)
    ensures Latest([], t) == t
  {
  }

  lemma LatestNext(es: seq<Envelope>, k: nat, t: Time)
    requires k < |es|
    ensures Latest(es[..k + 1], t) == if es[k].producedAt > Latest(es[..k], t) then es[k].producedAt else Latest(es[..k], t)
  {
    assert es[..k + 1][..k] == es[..k];
  }

  /** Evicting by weight and then by count leaves the longest tail that fits. */
  lemma TwoEvictions(es: seq<Envelope>, k: nat, d: nat, t: Time)
    requires k <= |es| && (forall j :: 0 <= j < k ==> !Fits(es[j..]))
    requires |es[k..]| <= MIN_TAIL || TotalBytes(es[k..]) <= MAX_STATUS_BYTES
    requires d == if |es[k..]| > MAX_NODE_RESULTS then |es[k..]| - MAX_NODE_RESULTS else 0
    ensures Excess(es) == k + d && es[k..][d..] == es[k + d..]
    ensures Latest(es[k..][..d], Latest(es[..k], t)) == Latest(es[..k + d], t)
  {
    LatestOfTwo(es, k, d, t);
    hide TotalBytes, Latest, Excess;
    TailsWeighLess(es, k, k + d);
    forall j | 0 <= j < k + d ensures !Fits(es[j..]) {
      if j >= k { assert |es[j..]| > MAX_NODE_RESULTS; }
    }
    FitsNow(es, k + d);
  }

  lemma CompactInTwo(es: seq<Envelope>, c: nat, k: nat, d: nat, t: Time)
    requires k <= |es| && (forall j :: 0 <= j < k ==> !Fits(es[j..]))
    requires |es[k..]| <= MIN_TAIL || TotalBytes(es[k..]) <= MAX_STATUS_BYTES
    requires d == if |es[k..]| > MAX_NODE_RESULTS then |es[k..]| - MAX_NODE_RESULTS else 0
    ensures Compact(Window(es, c, t)) == Window(es[k..][d..], c + k + d, Latest(es[k..][..d], Latest(es[..k], t)))
  {
    TwoEvictions(es, k, d, t);
    hide Excess, Fits, Latest, TotalBytes;
  }

  lemma FitsNow(es: seq<Envelope>, k: nat)
    requires k <= |es| && Fits(es[k..]) && forall j :: 0 <= j < k ==> !Fits(es[j..])
    ensures Excess(es) == k
  {
    ExcessAfter(es, k);
  }

  lemma LatestOfTwo(es: seq<Envelope>, k: nat, d: nat, t: Time)
    requires k + d <= |es|
    ensures Latest(es[k..][..d], Latest(es[..k], t)) == Latest(es[..k + d], t)
  {
    LatestAppend(es[..k], es[k..][..d], t);
    assert es[..k] + es[k..][..d] == es[..k + d];
  }

  lemma NothingAdded(es: seq<Reference>)
    ensures AddEvidence(es, AllReferences([])) == es
  {
  }

  lemma StoredPut(run: seq<Step>, e: Envelope)
    ensures Stored(run + [Put(e)]) == Stored(run).(tail := Upsert(Stored(run).tail, e))
  {
    assert (run + [Put(e)])[..|run|] == run;
  }

  lemma StoredAfter(run: seq<Step>, next: seq<Step>)
    requires next == run + [Compaction]
    ensures Stored(next) == Compact(Stored(run))
  {
    assert next[..|run|] == run;
    hide Excess, Compact;
    CompactionStep(run, next);
  }

  lemma LastDistinct(runs: seq<Run>, n: nat, evidence: seq<Reference>, m: nat)
    ensures DistinctNames(runs) ==> DistinctNames(Last(runs, n))
    ensures DistinctEvidence(evidence) ==> DistinctEvidence(Last(evidence, m))
  {
  }

  lemma {:induction false} TailsWeighLess(es: seq<Envelope>, k: nat, d: nat)
    requires k <= d <= |es|
    ensures TotalBytes(es[d..]) <= TotalBytes(es[k..])
    decreases d - k
  {
    if k < d {
      assert es[k..][1..] == es[k + 1..];
      TailsWeighLess(es, k + 1, d);
    }
  }
}
