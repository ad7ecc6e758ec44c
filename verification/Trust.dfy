/** Trust boundary and promotion of claims (internal/claim/trust.go). */
module Trust {
  import Glob

  datatype TrustClass = Observed | Validated | OtherTrust(name: string)

  datatype Claim = Claim(
    ctype: string, binding: string, externalId: string, url: string,
    trust: TrustClass, validatedBy: string)

  datatype Envelope = Envelope(
    nodeId: string, runId: string, status: string, attempt: nat, summary: string, claims: seq<Claim>)

  /** What a deterministic validator declares it confirmed. */
  datatype Scope = Scope(claimTypes: seq<string>, bindings: seq<string>)

  datatype Promotion = Promotion(fromNode: string, index: nat, claim: Claim, validatedBy: string)

  predicate Covers(scope: Scope, c: Claim) {
    && (scope.bindings == [] || c.binding in scope.bindings)
    && exists i :: 0 <= i < |scope.claimTypes| && Glob.Matches(scope.claimTypes[i], c.ctype)
  }

  predicate CoveredBySome(scopes: seq<Scope>, c: Claim) {
    exists i :: 0 <= i < |scopes| && Covers(scopes[i], c)
  }

  // ---------------------------------------------------------------- demotion

  function Demoted(c: Claim): Claim {
    if c.trust == Validated then c.(trust := Observed, validatedBy := "") else c
  }

  function DemoteAll(claims: seq<Claim>): (r: seq<Claim>)
    ensures |r| == |claims|
    ensures forall i :: 0 <= i < |r| ==> r[i].trust != Validated
  {
    seq(|claims|, i requires 0 <= i < |claims| => Demoted(claims[i]))
  }

  function CountValidated(claims: seq<Claim>): nat {
    if claims == [] then 0
    else CountValidated(claims[..|claims| - 1]) + if claims[|claims| - 1].trust == Validated then 1 else 0
  }

  /** The claims an envelope may record for a node of the given kind. */
  function Enforced(deterministic: bool, claims: seq<Claim>): seq<Claim> {
    if deterministic then claims else DemoteAll(claims)
  }

  method Enforce(deterministic: bool, env: Envelope) returns (enforced: Envelope, demoted: nat)
    ensures enforced == env.(claims := Enforced(deterministic, env.claims))
    ensures demoted == if deterministic then 0 else CountValidated(env.claims)
  {
    enforced, demoted := env, 0;
    if deterministic { return; }
    var claims := env.claims;
    for i := 0 to |claims|
      invariant |claims| == |env.claims|
      invariant forall j :: 0 <= j < i ==> claims[j] == Demoted(env.claims[j])
      invariant forall j :: i <= j < |claims| ==> claims[j] == env.claims[j]
      invariant demoted == CountValidated(env.claims[..i])
    {
      assert env.claims[..i + 1][..i] == env.claims[..i];
      if claims[i].trust == Validated {
        claims := claims[i := claims[i].(trust := Observed, validatedBy := "")];
        demoted := demoted + 1;
      }
    }
    assert env.claims[..|claims|] == env.claims;
    assert claims == DemoteAll(env.claims);
    enforced := env.(claims := claims);
  }

  // --------------------------------------------------------------- promotion

  function Promoted(c: Claim, validator: string, scopes: seq<Scope>): Claim {
    if c.trust == Observed && CoveredBySome(scopes, c) then c.(trust := Validated, validatedBy := validator) else c
  }

  function PromoteClaims(claims: seq<Claim>, validator: string, scopes: seq<Scope>): (r: seq<Claim>)
    ensures |r| == |claims|
  {
    seq(|claims|, i requires 0 <= i < |claims| => Promoted(claims[i], validator, scopes))
  }

  /** The run's envelopes after a validator's whole list of scopes was applied, in closed form. */
  function PromoteBy(envs: map<string, Envelope>, validator: string, scopes: seq<Scope>): (r: map<string, Envelope>)
    ensures r.Keys == envs.Keys
  {
    map id | id in envs :: envs[id].(claims := PromoteClaims(envs[id].claims, validator, scopes))
  }

  /** One scope after others is the same as all of them at once. */
  lemma PromoteScopeByScope(envs: map<string, Envelope>, validator: string, scopes: seq<Scope>, scope: Scope)
    ensures PromoteBy(PromoteBy(envs, validator, scopes), validator, [scope]) == PromoteBy(envs, validator, scopes + [scope])
  {
    forall c: Claim
      ensures Promoted(Promoted(c, validator, scopes), validator, [scope]) == Promoted(c, validator, scopes + [scope])
    {
      CoveredByOneMore(scopes, scope, c);
    }
    var l, r := PromoteBy(PromoteBy(envs, validator, scopes), validator, [scope]), PromoteBy(envs, validator, scopes + [scope]);
    forall id | id in envs ensures l[id] == r[id] {
      assert l[id].claims == r[id].claims;
    }
  }

  lemma CoveredByOneMore(scopes: seq<Scope>, scope: Scope, c: Claim)
    ensures CoveredBySome(scopes + [scope], c) <==> CoveredBySome(scopes, c) || CoveredBySome([scope], c)
    ensures CoveredBySome([scope], c) <==> Covers(scope, c)
  {
    var more := scopes + [scope];
    assert [scope][0] == scope && more[|scopes|] == scope;
    if i :| 0 <= i < |scopes| && Covers(scopes[i], c) { assert more[i] == scopes[i]; }
  }

  /** A second pass of the same validator finds nothing left to promote. */
  lemma PromoteIdempotent(envs: map<string, Envelope>, validator: string, scopes: seq<Scope>)
    ensures PromoteBy(PromoteBy(envs, validator, scopes), validator, scopes) == PromoteBy(envs, validator, scopes)
  {
    var once := PromoteBy(envs, validator, scopes);
    var twice := PromoteBy(once, validator, scopes);
    forall id | id in envs ensures twice[id] == once[id] {
      assert twice[id].claims == once[id].claims;
    }
  }

  predicate Promotable(envs: map<string, Envelope>, scope: Scope, id: string, i: nat) {
    id in envs && i < |envs[id].claims| && envs[id].claims[i].trust == Observed && Covers(scope, envs[id].claims[i])
  }

  function PromotionOf(envs: map<string, Envelope>, validator: string, scope: Scope, id: string, i: nat): Promotion
    requires Promotable(envs, scope, id, i)
  {
    Promotion(id, i, envs[id].claims[i].(trust := Validated, validatedBy := validator), validator)
  }

  /** One envelope: claims rewritten in place, each promotion reported once, in index order. */
  method PromoteEnvelope(envs: map<string, Envelope>, id: string, validator: string, scope: Scope)
    returns (env: Envelope, promotions: seq<Promotion>)
    requires id in envs
    ensures env == envs[id].(claims := PromoteClaims(envs[id].claims, validator, [scope]))
    ensures forall p :: p in promotions <==>
      p.fromNode == id && Promotable(envs, scope, id, p.index) && p == PromotionOf(envs, validator, scope, id, p.index)
    ensures forall a, b :: 0 <= a < b < |promotions| ==> promotions[a].index < promotions[b].index
  {
    var was := envs[id].claims;
    var claims := was;
    promotions := [];
    for i := 0 to |claims|
      invariant |claims| == |was|
      invariant forall j :: 0 <= j < i ==> claims[j] == Promoted(was[j], validator, [scope])
      invariant forall j :: i <= j < |claims| ==> claims[j] == was[j]
      invariant forall p :: p in promotions <==>
        p.fromNode == id && p.index < i && Promotable(envs, scope, id, p.index) && p == PromotionOf(envs, validator, scope, id, p.index)
      invariant forall a, b :: 0 <= a < b < |promotions| ==> promotions[a].index < promotions[b].index
      invariant forall a :: 0 <= a < |promotions| ==> promotions[a] in promotions
    {
      CoveredByOneMore([], scope, was[i]);
      if claims[i].trust == Observed && Covers(scope, claims[i]) {
        claims := claims[i := claims[i].(trust := Validated, validatedBy := validator)];
        promotions := promotions + [Promotion(id, i, claims[i], validator)];
      }
    }
    assert claims == PromoteClaims(was, validator, [scope]);
    env := envs[id].(claims := claims);
  }

  /** Promotion over a run's envelopes; the map is visited in no particular order. */
  method Promote(envs: map<string, Envelope>, validator: string, scope: Scope)
    returns (promotedEnvs: map<string, Envelope>, promotions: seq<Promotion>)
    ensures promotedEnvs == PromoteBy(envs, validator, [scope])
    ensures forall p :: p in promotions <==>
      Promotable(envs, scope, p.fromNode, p.index) && p == PromotionOf(envs, validator, scope, p.fromNode, p.index)
  {
    promotedEnvs, promotions := envs, [];
    if scope.claimTypes == [] {
      NothingToPromote(envs, validator, scope);
      return;
    }
    var todo := envs.Keys;
    while todo != {}
      invariant todo <= envs.Keys && promotedEnvs.Keys == envs.Keys
      invariant forall id :: id in envs && id !in todo ==>
        promotedEnvs[id] == envs[id].(claims := PromoteClaims(envs[id].claims, validator, [scope]))
      invariant forall id :: id in todo ==> promotedEnvs[id] == envs[id]
      invariant forall p :: p in promotions <==>
        p.fromNode !in todo && Promotable(envs, scope, p.fromNode, p.index) && p == PromotionOf(envs, validator, scope, p.fromNode, p.index)
    {
      var id :| id in todo;
      var env, more := PromoteEnvelope(envs, id, validator, scope);
      promotedEnvs := promotedEnvs[id := env];
      promotions := promotions + more;
      todo := todo - {id};
    }
  }

  lemma NothingToPromote(envs: map<string, Envelope>, validator: string, scope: Scope)
    requires scope.claimTypes == []
    ensures PromoteBy(envs, validator, [scope]) == envs
  {
    var r := PromoteBy(envs, validator, [scope]);
    forall id | id in envs ensures r[id] == envs[id] {
      assert r[id].claims == envs[id].claims;
    }
  }

  predicate HasValidated(envs: seq<Envelope>) {
    exists e, c :: e in envs && c in e.claims && c.trust == Validated
  }
}
