/** The bounded tail an attempt's status keeps (internal/attempt/lifecycle.go): what compaction
    leaves, and how it agrees with the ledger that was never compacted. */
module StatusLedger {

  type Time = nat   // 0: unset

  const MAX_NODE_RESULTS: nat := 200
  const MAX_RUNS: nat := 400
  const MAX_EVIDENCE: nat := 200
  const MAX_STATUS_BYTES: nat := 1048576
  const MIN_TAIL: nat := 32
  const MAX_PAYLOAD_BYTES: nat := 4096
  const MAX_SUMMARY_BYTES: nat := 1024
  const MAX_MESSAGE_BYTES: nat := 4096

  datatype ClaimRecord = ClaimRecord(kind: string, binding: string, externalId: string, url: string, validated: bool)

  datatype Reference = Reference(binding: string, kind: string, identifier: string, url: string)

  datatype Artifact = Artifact(name: string, path: string, hash: string)

  /** One node execution's result; strings are byte strings. */
  datatype Envelope = Envelope(
    nodeId: string, runId: string, status: string, summary: string, payload: string, producedAt: Time,
    claims: seq<ClaimRecord>, references: seq<Reference>, artifacts: seq<Artifact>)

  // --------------------------------------------------------------------------- sizes

  function ClaimsBytes(cs: seq<ClaimRecord>): nat {
    if cs == [] then 0
    else
      var c := cs[|cs| - 1];
      ClaimsBytes(cs[..|cs| - 1]) + |c.kind| + |c.binding| + |c.externalId| + |c.url| + 32
  }

  function ReferencesBytes(rs: seq<Reference>): nat {
    if rs == [] then 0
    else
      var r := rs[|rs| - 1];
      ReferencesBytes(rs[..|rs| - 1]) + |r.kind| + |r.identifier| + |r.url| + 32
  }

  function ArtifactsBytes(xs: seq<Artifact>): nat {
    if xs == [] then 0
    else
      var x := xs[|xs| - 1];
      ArtifactsBytes(xs[..|xs| - 1]) + |x.name| + |x.path| + |x.hash| + 32
  }

  function Bytes(e: Envelope): (n: nat)
    ensures n >= 64
  {
    |e.nodeId| + |e.runId| + |e.status| + |e.summary| + |e.payload| + 64
      + ClaimsBytes(e.claims) + ReferencesBytes(e.references) + ArtifactsBytes(e.artifacts)
  }

  method EnvelopeBytes(e: Envelope) returns (n: nat)
    ensures n == Bytes(e)
  {
    n := |e.nodeId| + |e.runId| + |e.status| + |e.summary| + |e.payload| + 64;
    ghost var base := n;
    for i := 0 to |e.claims|
      invariant n == base + ClaimsBytes(e.claims[..i])
    {
      var c := e.claims[i];
      assert e.claims[..i + 1][..i] == e.claims[..i];
      n := n + |c.kind| + |c.binding| + |c.externalId| + |c.url| + 32;
    }
    assert e.claims[..|e.claims|] == e.claims;
    base := n;
    for i := 0 to |e.references|
      invariant n == base + ReferencesBytes(e.references[..i])
    {
      var r := e.references[i];
      assert e.references[..i + 1][..i] == e.references[..i];
      n := n + |r.kind| + |r.identifier| + |r.url| + 32;
    }
    assert e.references[..|e.references|] == e.references;
    base := n;
    for i := 0 to |e.artifacts|
      invariant n == base + ArtifactsBytes(e.artifacts[..i])
    {
      var x := e.artifacts[i];
      assert e.artifacts[..i + 1][..i] == e.artifacts[..i];
      n := n + |x.name| + |x.path| + |x.hash| + 32;
    }
    assert e.artifacts[..|e.artifacts|] == e.artifacts;
  }

  function TotalBytes(es: seq<Envelope>): nat { if es == [] then 0 else Bytes(es[0]) + TotalBytes(es[1..]) }

  lemma {:induction false} TotalAppend(es: seq<Envelope>, e: Envelope)
    ensures TotalBytes(es + [e]) == TotalBytes(es) + Bytes(e)
  {
    if es == [] {
      assert es + [e] == [e];
    } else {
      assert (es + [e])[1..] == es[1..] + [e];
      TotalAppend(es[1..], e);
    }
  }

  // --------------------------------------------------------------- the window that fits

  predicate Fits(es: seq<Envelope>) {
    |es| <= MAX_NODE_RESULTS && (|es| <= MIN_TAIL || TotalBytes(es) <= MAX_STATUS_BYTES)
  }

  /** How many of the oldest entries must go before the rest fits. */
  function Excess(es: seq<Envelope>): (k: nat)
    ensures k <= |es|
  {
    if Fits(es) then 0 else 1 + Excess(es[1..])
  }

  /** Compaction keeps the longest tail that fits. */
  lemma {:induction false} LongestFit(es: seq<Envelope>)
    ensures Fits(es[Excess(es)..]) && forall j :: 0 <= j < Excess(es) ==> !Fits(es[j..])
  {
    if !Fits(es) {
      LongestFit(es[1..]);
      assert es[Excess(es)..] == es[1..][Excess(es[1..])..];
      forall j | 0 <= j < Excess(es) ensures !Fits(es[j..]) {
        if j > 0 { assert es[j..] == es[1..][j - 1..]; } else { assert es[0..] == es; }
      }
    }
  }

  /** Dropping the head of a ledger that does not fit changes nothing about what is kept. */
  lemma {:induction false} ExcessAfter(es: seq<Envelope>, k: nat)
    requires k <= |es| && forall j :: 0 <= j < k ==> !Fits(es[j..])
    ensures Excess(es) == k + Excess(es[k..])
  {
    if k == 0 {
      assert es[0..] == es;
    } else {
      assert es[0..] == es && !Fits(es[0..]);
      forall j | 0 <= j < k - 1 ensures !Fits(es[1..][j..]) { assert es[1..][j..] == es[j + 1..]; }
      ExcessAfter(es[1..], k - 1);
      assert es[1..][k - 1..] == es[k..];
    }
  }

  function Latest(es: seq<Envelope>, t: Time): Time {
    if es == [] then t
    else
      var before := Latest(es[..|es| - 1], t);
      if es[|es| - 1].producedAt > before then es[|es| - 1].producedAt else before
  }

  lemma {:induction false} LatestAppend(es: seq<Envelope>, fs: seq<Envelope>, t: Time)
    ensures Latest(es + fs, t) == Latest(fs, Latest(es, t))
  {
    if fs == [] {
      assert es + fs == es;
    } else {
      assert (es + fs)[..|es + fs| - 1] == es + fs[..|fs| - 1];
      LatestAppend(es, fs[..|fs| - 1], t);
    }
  }

  /** Latest is the greatest of the times. */
  lemma {:induction false} LatestIsGreatest(es: seq<Envelope>, t: Time)
    ensures Latest(es, t) >= t && (forall e :: e in es ==> e.producedAt <= Latest(es, t))
    ensures Latest(es, t) == t || exists e :: e in es && e.producedAt == Latest(es, t)
  {
    if es != [] {
      LatestIsGreatest(es[..|es| - 1], t);
      assert es == es[..|es| - 1] + [es[|es| - 1]];
    }
  }

  /** tail, how many entries were dropped before it, and the latest time among those. */
  datatype Window = Window(tail: seq<Envelope>, compacted: nat, through: Time)

  const EMPTY_WINDOW := Window([], 0, 0)

  function Compact(w: Window): Window {
    var k := Excess(w.tail);
    Window(w.tail[k..], w.compacted + k, Latest(w.tail[..k], w.through))
  }

  // ------------------------------------------------------------------------- upserts

  predicate SameKey(e: Envelope, f: Envelope) { e.nodeId == f.nodeId && e.runId == f.runId }

  predicate HasKey(es: seq<Envelope>, e: Envelope) { exists i :: 0 <= i < |es| && SameKey(es[i], e) }

  predicate DistinctKeys(es: seq<Envelope>) { forall i, j :: 0 <= i < j < |es| ==> !SameKey(es[i], es[j]) }

  /** Replaces the entry with the same node and run, or appends. */
  function Upsert(es: seq<Envelope>, e: Envelope): seq<Envelope> {
    if es == [] then [e]
    else if SameKey(es[0], e) then [e] + es[1..]
    else [es[0]] + Upsert(es[1..], e)
  }

  lemma {:induction false} UpsertAppends(es: seq<Envelope>, e: Envelope)
    requires !HasKey(es, e)
    ensures Upsert(es, e) == es + [e]
  {
    if es != [] {
      assert !SameKey(es[0], e);
      forall i | 0 <= i < |es[1..]| ensures !SameKey(es[1..][i], e) { assert es[1..][i] == es[i + 1]; }
      UpsertAppends(es[1..], e);
    }
  }

  lemma {:induction false} UpsertReplaces(es: seq<Envelope>, e: Envelope, i: nat)
    requires i < |es| && SameKey(es[i], e) && forall j :: 0 <= j < i ==> !SameKey(es[j], e)
    ensures Upsert(es, e) == es[i := e]
  {
    if i > 0 {
      assert !SameKey(es[0], e);
      UpsertReplaces(es[1..], e, i - 1);
    }
  }

  lemma FirstWithKey(es: seq<Envelope>, e: Envelope) returns (i: nat)
    requires HasKey(es, e)
    ensures i < |es| && SameKey(es[i], e) && forall j :: 0 <= j < i ==> !SameKey(es[j], e)
  {
    i := 0;
    while !SameKey(es[i], e)
      invariant i < |es| && forall j :: 0 <= j < i ==> !SameKey(es[j], e)
      decreases |es| - i
    {
      i := i + 1;
    }
  }

  /** An upsert keeps the keys distinct, and adds an entry only for a new key. */
  lemma UpsertKeeps(es: seq<Envelope>, e: Envelope)
    requires DistinctKeys(es)
    ensures DistinctKeys(Upsert(es, e))
    ensures |Upsert(es, e)| == |es| + if HasKey(es, e) then 0 else 1
    ensures forall f :: HasKey(Upsert(es, e), f) <==> HasKey(es, f) || SameKey(e, f)
  {
    if HasKey(es, e) {
      var i := FirstWithKey(es, e);
      UpsertReplaces(es, e, i);
      forall f ensures HasKey(es[i := e], f) <==> HasKey(es, f) || SameKey(e, f) {
        if HasKey(es, f) { var j :| 0 <= j < |es| && SameKey(es[j], f); assert SameKey(es[i := e][j], f); }
        if SameKey(e, f) { assert SameKey(es[i := e][i], f); }
        if HasKey(es[i := e], f) { var j :| 0 <= j < |es| && SameKey(es[i := e][j], f); assert SameKey(es[j], f); }
      }
    } else {
      UpsertAppends(es, e);
      forall f ensures HasKey(es + [e], f) <==> HasKey(es, f) || SameKey(e, f) {
        if HasKey(es, f) { var j :| 0 <= j < |es| && SameKey(es[j], f); assert SameKey((es + [e])[j], f); }
        if SameKey(e, f) { assert SameKey((es + [e])[|es|], f); }
      }
    }
  }

  /** With the dropped entries in front: the upsert stays within the tail. */
  lemma {:induction false} UpsertBehind(gone: seq<Envelope>, tail: seq<Envelope>, e: Envelope)
    requires !HasKey(gone, e)
    ensures Upsert(gone + tail, e) == gone + Upsert(tail, e)
  {
    if gone == [] {
      assert gone + tail == tail && gone + Upsert(tail, e) == Upsert(tail, e);
    } else {
      assert !SameKey(gone[0], e) && (gone + tail)[1..] == gone[1..] + tail;
      forall i | 0 <= i < |gone[1..]| ensures !SameKey(gone[1..][i], e) { assert gone[1..][i] == gone[i + 1]; }
      UpsertBehind(gone[1..], tail, e);
    }
  }

  // ---------------------------------------------------------------------- whole histories

  datatype Step = Put(e: Envelope) | Compaction

  function Stored(run: seq<Step>): Window {
    if run == [] then EMPTY_WINDOW
    else
      var w := Stored(run[..|run| - 1]);
      match run[|run| - 1]
      case Put(e) => w.(tail := Upsert(w.tail, e))
      case Compaction => Compact(w)
  }

  /** The ledger that is never compacted. */
  function Full(run: seq<Step>): seq<Envelope> {
    if run == [] then []
    else
      var es := Full(run[..|run| - 1]);
      match run[|run| - 1]
      case Put(e) => Upsert(es, e)
      case Compaction => es
  }

  /** The entries compaction dropped, oldest first. */
  function Dropped(run: seq<Step>): seq<Envelope> {
    if run == [] then []
    else
      var w := Stored(run[..|run| - 1]);
      Dropped(run[..|run| - 1]) + if run[|run| - 1].Compaction? then w.tail[..Excess(w.tail)] else []
  }

  /** How many puts renewed a result that had been compacted away. */
  function Late(run: seq<Step>): nat {
    if run == [] then 0
    else
      var init, s := run[..|run| - 1], run[|run| - 1];
      Late(init) + if s.Put? && HasKey(Full(init), s.e) && !HasKey(Stored(init).tail, s.e) then 1 else 0
  }

  ghost predicate Agrees(run: seq<Step>) {
    var w := Stored(run);
    && DistinctKeys(w.tail) && DistinctKeys(Full(run))
    && (forall e :: HasKey(w.tail, e) ==> HasKey(Full(run), e))
    && w.compacted == |Dropped(run)| && w.through == Latest(Dropped(run), 0)
    && |w.tail| + w.compacted == |Full(run)| + Late(run)
    && (Late(run) == 0 ==> Full(run) == Dropped(run) + w.tail)
  }

  lemma SuffixKeys(es: seq<Envelope>, k: nat)
    requires k <= |es| && DistinctKeys(es)
    ensures DistinctKeys(es[k..]) && forall e :: HasKey(es[k..], e) ==> HasKey(es, e)
  {
    forall e | HasKey(es[k..], e) ensures HasKey(es, e) {
      var i :| 0 <= i < |es[k..]| && SameKey(es[k..][i], e);
      assert SameKey(es[k + i], e);
    }
  }

  /** With distinct keys, an entry whose key is dropped is not in the tail. */
  lemma DroppedStayApart(gone: seq<Envelope>, tail: seq<Envelope>, e: Envelope)
    requires DistinctKeys(gone + tail) && (HasKey(gone + tail, e) ==> HasKey(tail, e))
    ensures !HasKey(gone, e)
  {
    var all := gone + tail;
    forall i | 0 <= i < |gone| ensures !SameKey(gone[i], e) {
      assert gone[i] == all[i];
      if HasKey(tail, e) {
        var j :| 0 <= j < |tail| && SameKey(tail[j], e);
        assert all[|gone| + j] == tail[j] && !SameKey(all[i], all[|gone| + j]);
      } else {
        assert !HasKey(all, e);
      }
    }
  }

  lemma PutAgrees(run: seq<Step>, e: Envelope)
    requires Agrees(run)
    ensures Agrees(run + [Put(e)])
  {
    var next := run + [Put(e)];
    assert next[..|run|] == run;
    var w, gone := Stored(run), Dropped(run);
    UpsertKeeps(w.tail, e);
    UpsertKeeps(Full(run), e);
    assert Dropped(next) == gone;
    if Late(next) == 0 {
      DroppedStayApart(gone, w.tail, e);
      UpsertBehind(gone, w.tail, e);
    }
  }

  /** What one compaction more changes. */
  ghost predicate Compacts(run: seq<Step>, next: seq<Step>) {
    && Stored(next) == Compact(Stored(run)) && Full(next) == Full(run) && Late(next) == Late(run)
    && Dropped(next) == Dropped(run) + Stored(run).tail[..Excess(Stored(run).tail)]
  }

  lemma CompactionStep(run: seq<Step>, next: seq<Step>)
    requires next != [] && next[|next| - 1] == Compaction && next[..|next| - 1] == run
    ensures Compacts(run, next)
  {
    hide Excess, Compact;
  }

  lemma CompactionAgrees(run: seq<Step>, next: seq<Step>)
    requires Agrees(run) && Compacts(run, next)
    ensures Agrees(next)
  {
    var w := Stored(run);
    var k := Excess(w.tail);
    hide Stored, Full, Late, Dropped, Excess, DistinctKeys, HasKey, Latest;
    SuffixKeys(w.tail, k);
    LatestAppend(Dropped(run), w.tail[..k], 0);
    assert w.tail == w.tail[..k] + w.tail[k..];
  }

  /** For every sequence of upserts and compactions: the tail's keys are distinct; compacted counts
      the dropped entries and through is the latest time among them; live and compacted entries
      together exceed the uncompacted ledger by exactly the late renewals; and the stored tail is
      what follows the dropped entries in that ledger if and only if no renewal came late. */
  lemma {:induction false} CompactionSimulates(run: seq<Step>)
    ensures var w := Stored(run);
      && DistinctKeys(w.tail) && DistinctKeys(Full(run))
      && w.compacted == |Dropped(run)|
      && (forall e :: e in Dropped(run) ==> e.producedAt <= w.through)
      && (w.through == 0 || exists e :: e in Dropped(run) && e.producedAt == w.through)
      && |w.tail| + w.compacted == |Full(run)| + Late(run)
      && (Full(run) == Dropped(run) + w.tail <==> Late(run) == 0)
    ensures Agrees(run)
  {
    hide *;
    LatestIsGreatest(Dropped(run), 0);
    if run == [] {
      NothingYet();
    } else {
      var init, s := run[..|run| - 1], run[|run| - 1];
      CompactionSimulates(init);
      assert run == init + [s];
      if s.Put? { PutAgrees(init, s.e); } else { CompactionStep(init, run); CompactionAgrees(init, run); }
    }
    AgreesMeans(run);
  }

  lemma NothingYet()
    ensures Agrees([])
  {
  }

  lemma AgreesMeans(run: seq<Step>)
    requires Agrees(run)
    ensures var w := Stored(run);
      && DistinctKeys(w.tail) && DistinctKeys(Full(run))
      && w.compacted == |Dropped(run)| && w.through == Latest(Dropped(run), 0)
      && |w.tail| + w.compacted == |Full(run)| + Late(run)
      && (Full(run) == Dropped(run) + w.tail <==> Late(run) == 0)
  {
  }

  /** Right after a write the tail fits, and one entry more would not have. */
  lemma WrittenFits(run: seq<Step>)
    requires run != [] && run[|run| - 1] == Compaction
    ensures var w, before := Stored(run), Stored(run[..|run| - 1]);
      && Fits(w.tail)
      && (|w.tail| < |before.tail| ==> !Fits(before.tail[|before.tail| - |w.tail| - 1..]))
  {
    LongestFit(Stored(run[..|run| - 1]).tail);
  }

  // ------------------------------------------------------------------- a renewal too late

  /** A light result, told apart by the length of its run's name. */
  function Light(k: nat): Envelope { Envelope("", seq(k, _ => 'r'), "", "", "", 0, [], [], []) }

  function Lights(n: nat): seq<Envelope> { seq(n, i requires 0 <= i < n => Light(i)) }

  function PutLights(n: nat): seq<Step> { seq(n, i requires 0 <= i < n => Put(Light(i))) }

  lemma LightsAreApart(j: nat, k: nat)
    ensures SameKey(Light(j), Light(k)) <==> j == k
    ensures Bytes(Light(k)) == 64 + k
  {
    assert |Light(j).runId| == j && |Light(k).runId| == k;
  }

  lemma {:induction false} LightsStored(n: nat)
    ensures Stored(PutLights(n)) == Window(Lights(n), 0, 0) && Full(PutLights(n)) == Lights(n) && Late(PutLights(n)) == 0
  {
    hide Upsert, SameKey, Light;
    if n > 0 {
      LightsStored(n - 1);
      assert PutLights(n)[..n - 1] == PutLights(n - 1) && Lights(n) == Lights(n - 1) + [Light(n - 1)];
      var before := Lights(n - 1);
      forall i | 0 <= i < n - 1 ensures !SameKey(before[i], Light(n - 1)) { LightsAreApart(i, n - 1); }
      UpsertAppends(before, Light(n - 1));
    }
  }

  lemma {:induction false} LightTotal(es: seq<Envelope>)
    requires forall e :: e in es ==> Bytes(e) <= 300
    ensures TotalBytes(es) <= 300 * |es|
  {
    hide Bytes;
    if es != [] { LightTotal(es[1..]); }
  }

  /** One light result more than the window holds: compaction drops the first. */
  lemma FirstLightGoes()
    ensures var n := MAX_NODE_RESULTS + 1; Excess(Lights(n)) == 1 && !HasKey(Lights(n)[1..], Light(0)) && HasKey(Lights(n), Light(0))
  {
    var n := MAX_NODE_RESULTS + 1;
    var rest := Lights(n)[1..];
    hide SameKey, Light, Bytes;
    forall i | 0 <= i < n - 1 ensures Bytes(rest[i]) <= 300 && !SameKey(rest[i], Light(0)) { LightsAreApart(i + 1, 0); LightsAreApart(0, i + 1); }
    LightTotal(rest);
    assert Fits(rest);
    LightsAreApart(0, 0);
    assert SameKey(Lights(n)[0], Light(0));
    assert Excess(Lights(n)) == 1 + Excess(rest);
  }

  function LateRun(): seq<Step> { PutLights(MAX_NODE_RESULTS + 1) + [Compaction] + [Put(Light(0))] }

  /** Renewals do come late: the result dropped first is put again, and the attempt then counts one
      result too many, one of them twice. */
  lemma RenewalComesLate()
    ensures Late(LateRun()) == 1
    ensures |Stored(LateRun()).tail| + Stored(LateRun()).compacted == |Full(LateRun())| + 1
    ensures Full(LateRun()) != Dropped(LateRun()) + Stored(LateRun()).tail
  {
    var n := MAX_NODE_RESULTS + 1;
    var before, after := PutLights(n), PutLights(n) + [Compaction];
    hide Excess, HasKey, Light, Lights, PutLights, Dropped, Upsert;
    LightsStored(n);
    FirstLightGoes();
    assert after[..|after| - 1] == before;
    CompactionStep(before, after);
    assert (after + [Put(Light(0))])[..|after|] == after;
    CompactionSimulates(LateRun());
  }
}
