/** Trust safety over whole runs of the graph kernel: where every validated claim in a run's
    envelopes came from. */
module TrustRun {
  import opened Prelude
  import opened Kernel
  import opened Trust

  ghost predicate IsLastVisit(trace: seq<Visit>, id: string, p: int) {
    && 0 <= p < |trace| && trace[p].id == id
    && forall j :: p < j < |trace| ==> trace[j].id != id
  }

  /** A gate that ran, deterministically and green, and declares a scope covering the claim. */
  predicate Confirms(v: Visit, c: Claim) {
    v.node.typ == "gate" && Promotes(v.outcome) && CoveredBySome(ScopesOf(v.node), c)
  }

  /** The recorded claim is the one its producing visit p recorded, or that one promoted by a
      gate visited no earlier than p. */
  ghost predicate ClaimFrom(trace: seq<Visit>, p: int, produced: Claim, c: Claim) {
    || c == produced
    || exists q :: PromotedAt(trace, p, q, produced, c)
  }

  ghost predicate PromotedAt(trace: seq<Visit>, p: int, q: int, produced: Claim, c: Claim) {
    && p <= q < |trace| && 0 <= q && produced.trust == Observed && Confirms(trace[q], produced)
    && c == produced.(trust := Validated, validatedBy := trace[q].id)
  }

  ghost predicate EnvelopeFrom(w: World, trace: seq<Visit>, p: int, env: Envelope)
    requires 0 <= p < |trace|
  {
    var recorded := Recorded(w, trace[p].id, trace[p].outcome);
    && env == recorded.(claims := env.claims) && |env.claims| == |recorded.claims|
    && forall i :: 0 <= i < |env.claims| ==> ClaimFrom(trace, p, recorded.claims[i], env.claims[i])
  }

  /** Every envelope is the one its node's latest visit recorded, up to accounted promotions. */
  ghost predicate Accounted(w: World, trace: seq<Visit>, envelopes: map<string, Envelope>) {
    forall id :: id in envelopes ==> exists p :: IsLastVisit(trace, id, p) && EnvelopeFrom(w, trace, p, envelopes[id])
  }

  lemma StillFrom(w: World, trace: seq<Visit>, v: Visit, id: string, p: int, env: Envelope)
    requires IsLastVisit(trace, id, p) && EnvelopeFrom(w, trace, p, env) && v.id != id
    ensures IsLastVisit(trace + [v], id, p) && EnvelopeFrom(w, trace + [v], p, env)
  {
    var recorded := Recorded(w, trace[p].id, trace[p].outcome);
    forall i | 0 <= i < |env.claims| ensures ClaimFrom(trace + [v], p, recorded.claims[i], env.claims[i]) {
      if q :| PromotedAt(trace, p, q, recorded.claims[i], env.claims[i]) {
        assert PromotedAt(trace + [v], p, q, recorded.claims[i], env.claims[i]);
      }
    }
  }

  lemma RecordAccounted(w: World, trace: seq<Visit>, envelopes: map<string, Envelope>, v: Visit)
    requires Accounted(w, trace, envelopes)
    ensures Accounted(w, trace + [v], envelopes[v.id := Recorded(w, v.id, v.outcome)])
  {
    var now := envelopes[v.id := Recorded(w, v.id, v.outcome)];
    forall id | id in now ensures exists p :: IsLastVisit(trace + [v], id, p) && EnvelopeFrom(w, trace + [v], p, now[id]) {
      if id == v.id {
        assert IsLastVisit(trace + [v], id, |trace|) && EnvelopeFrom(w, trace + [v], |trace|, now[id]);
      } else {
        var p :| IsLastVisit(trace, id, p) && EnvelopeFrom(w, trace, p, envelopes[id]);
        StillFrom(w, trace, v, id, p, envelopes[id]);
      }
    }
  }

  lemma PromotedFrom(trace: seq<Visit>, p: int, produced: Claim, c: Claim)
    requires 0 <= p < |trace| && ClaimFrom(trace, p, produced, c)
    requires var v := trace[|trace| - 1]; v.node.typ == "gate" && Promotes(v.outcome)
    ensures var v := trace[|trace| - 1]; ClaimFrom(trace, p, produced, Promoted(c, v.id, ScopesOf(v.node)))
  {
    var v := trace[|trace| - 1];
    if c == produced && Promoted(c, v.id, ScopesOf(v.node)) != c {
      assert PromotedAt(trace, p, |trace| - 1, produced, Promoted(c, v.id, ScopesOf(v.node)));
    }
  }

  lemma PromoteAccounted(w: World, trace: seq<Visit>, envelopes: map<string, Envelope>)
    requires trace != [] && Accounted(w, trace, envelopes)
    requires Promotes(trace[|trace| - 1].outcome)
    ensures var v := trace[|trace| - 1]; Accounted(w, trace, PromoteBy(envelopes, v.id, ScopesOf(v.node)))
  {
    var v := trace[|trace| - 1];
    var after := PromoteBy(envelopes, v.id, ScopesOf(v.node));
    forall id | id in after ensures exists p :: IsLastVisit(trace, id, p) && EnvelopeFrom(w, trace, p, after[id]) {
      var p :| IsLastVisit(trace, id, p) && EnvelopeFrom(w, trace, p, envelopes[id]);
      var recorded := Recorded(w, trace[p].id, trace[p].outcome);
      forall i | 0 <= i < |after[id].claims| ensures ClaimFrom(trace, p, recorded.claims[i], after[id].claims[i]) {
        if v.node.typ == "gate" { PromotedFrom(trace, p, recorded.claims[i], envelopes[id].claims[i]); }
      }
      assert EnvelopeFrom(w, trace, p, after[id]);
    }
  }

  lemma ProcessAccounted(g: Graph, w: World, s: State, node: Node)
    requires s.queue != [] && Accounted(w, s.trace, s.envelopes)
    ensures var s' := Process(g, w, s, node); Accounted(w, s'.trace, s'.envelopes)
  {
    var s' := Process(g, w, s, node);
    var v := s'.trace[|s.trace|];
    RecordAccounted(w, s.trace, s.envelopes, v);
    if Promotes(v.outcome) { PromoteAccounted(w, s'.trace, s.envelopes[v.id := Recorded(w, v.id, v.outcome)]); }
  }

  lemma StepAccounted(g: Graph, w: World, limit: nat, s: State)
    requires Accounted(w, s.trace, s.envelopes)
    ensures var s' := Step(g, w, limit, s); Accounted(w, s'.trace, s'.envelopes)
  {
    hide Process, Accounted;
    if s.queue != [] && Lookup(g.nodes, s.queue[0]).Some? {
      ProcessAccounted(g, w, s, Lookup(g.nodes, s.queue[0]).value);
    }
  }

  /** In every reachable state, each envelope is its node's latest recording, up to promotions by
      confirming gates of this run. */
  lemma {:induction false} EnvelopesAccounted(g: Graph, w: World, limit: nat, n: nat)
    ensures var s := StateAt(g, w, limit, n); Accounted(w, s.trace, s.envelopes)
  {
    if n > 0 {
      hide *;
      EnvelopesAccounted(g, w, limit, n - 1);
      NextTurn(g, w, limit, n);
      StepAccounted(g, w, limit, StateAt(g, w, limit, n - 1));
    }
  }

  /** A claim asserted by the node's own executor. */
  ghost predicate OwnClaim(v: Visit, c: Claim) {
    v.outcome.Ran? && v.outcome.result.enrichment.Some? && c in v.outcome.result.enrichment.value.1
  }

  ghost predicate Earned(trace: seq<Visit>, p: int, c: Claim)
    requires 0 <= p < |trace|
  {
    var o := trace[p].outcome;
    && o.Ran?
    && ((o.deterministic && OwnClaim(trace[p], c))
        || exists q, own :: OwnClaim(trace[p], own)
             && PromotedAt(trace, p, q, if o.deterministic then own else Demoted(own), c)
             && c.validatedBy == trace[q].id)
  }

  /** No claim becomes authoritative by itself: a validated claim was asserted validated by a
      deterministic node in its latest visit, or it is a claim of that visit promoted (and
      stamped) by a confirming gate visited no earlier; a non-deterministic node's claims only
      the second way, however often the node ran before. */
  lemma TrustSafety(g: Graph, w: World, limit: nat, n: nat, id: string, i: nat)
    requires var s := StateAt(g, w, limit, n);
      id in s.envelopes && i < |s.envelopes[id].claims| && s.envelopes[id].claims[i].trust == Validated
    ensures var s := StateAt(g, w, limit, n);
      exists p :: IsLastVisit(s.trace, id, p) && Earned(s.trace, p, s.envelopes[id].claims[i])
  {
    EnvelopesAccounted(g, w, limit, n);
    var s := StateAt(g, w, limit, n);
    var p :| IsLastVisit(s.trace, id, p) && EnvelopeFrom(w, s.trace, p, s.envelopes[id]);
    ValidatedIsEarned(w, s.trace, p, s.envelopes[id], i);
  }

  lemma ValidatedIsEarned(w: World, trace: seq<Visit>, p: int, env: Envelope, i: nat)
    requires 0 <= p < |trace| && EnvelopeFrom(w, trace, p, env)
    requires i < |env.claims| && env.claims[i].trust == Validated
    ensures Earned(trace, p, env.claims[i])
  {
    var v, c := trace[p], env.claims[i];
    var own := v.outcome.Result().enrichment.value.1;
    var recorded := Recorded(w, v.id, v.outcome).claims;
    assert recorded == Enforced(v.outcome.deterministic, own);
    assert OwnClaim(v, own[i]);
    if q :| PromotedAt(trace, p, q, recorded[i], c) {
      assert recorded[i] == if v.outcome.deterministic then own[i] else Demoted(own[i]);
    }
  }
}
