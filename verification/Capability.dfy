/** Surface capability policy (internal/capability/policy.go): which of a node's requirements
    the workflow's bindings do not grant. */
module Capability {

  datatype Binding = Binding(name: string, granted: seq<string>)

  datatype Requirement = Requirement(binding: string, capability: string)

  datatype Reason = BindingNotDeclared | CapabilityNotGranted

  datatype Violation = Violation(nodeId: string, requirement: Requirement, reason: Reason)

  /** The requirement is met when the last binding of that name grants the capability or "*":
      a later declaration of the same name replaces an earlier one. */
  predicate Granted(bindings: seq<Binding>, req: Requirement) {
    exists i :: 0 <= i < |bindings| && IsLast(bindings, req.binding, i) && GrantsBy(bindings[i], req.capability)
  }

  predicate IsLast(bindings: seq<Binding>, name: string, i: int) {
    && 0 <= i < |bindings| && bindings[i].name == name
    && forall j :: i < j < |bindings| ==> bindings[j].name != name
  }

  predicate Declared(bindings: seq<Binding>, name: string) {
    exists i :: 0 <= i < |bindings| && bindings[i].name == name
  }

  predicate GrantsBy(b: Binding, capability: string) {
    capability in b.granted || "*" in b.granted
  }

  /** Unmet requirements in their own order, all of them. */
  function Violations(nodeId: string, bindings: seq<Binding>, requires_: seq<Requirement>): seq<Violation> {
    if requires_ == [] then []
    else
      var rest, last := Violations(nodeId, bindings, requires_[..|requires_| - 1]), requires_[|requires_| - 1];
      if Granted(bindings, last) then rest
      else rest + [Violation(nodeId, last, if Declared(bindings, last.binding) then CapabilityNotGranted else BindingNotDeclared)]
  }

  /** A node may run exactly when each requirement is granted. */
  lemma {:induction false} NoViolationIffAllGranted(nodeId: string, bindings: seq<Binding>, reqs: seq<Requirement>)
    ensures Violations(nodeId, bindings, reqs) == [] <==> forall i :: 0 <= i < |reqs| ==> Granted(bindings, reqs[i])
  {
    if reqs != [] {
      NoViolationIffAllGranted(nodeId, bindings, reqs[..|reqs| - 1]);
    }
  }

  method Authorize(bindings: seq<Binding>, reqs: seq<Requirement>) returns (violations: seq<Violation>)
    ensures violations == Violations("", bindings, reqs)
  {
    violations := [];
    if |reqs| == 0 { return; }
    var granted: map<string, set<string>> := map[];
    for i := 0 to |bindings|
      invariant forall name :: name in granted <==> Declared(bindings[..i], name)
      invariant forall name :: name in granted ==>
        exists k :: IsLast(bindings[..i], name, k) && granted[name] == (set c | c in bindings[k].granted)
    {
      var caps: set<string> := {};
      var list := bindings[i].granted;
      for j := 0 to |list|
        invariant caps == set c | c in list[..j]
      {
        caps := caps + {list[j]};
      }
      assert list[..|list|] == list;
      IndexedOneMore(bindings, i, granted, caps);
      granted := granted[bindings[i].name := caps];
    }
    assert bindings[..|bindings|] == bindings;
    for i := 0 to |reqs|
      invariant violations == Violations("", bindings, reqs[..i])
    {
      assert reqs[..i + 1][..i] == reqs[..i];
      var req := reqs[i];
      GrantedByIndex(bindings, granted, req);
      if req.binding !in granted {
        violations := violations + [Violation("", req, BindingNotDeclared)];
      } else if req.capability !in granted[req.binding] && "*" !in granted[req.binding] {
        violations := violations + [Violation("", req, CapabilityNotGranted)];
      }
    }
    assert reqs[..|reqs|] == reqs;
  }

  lemma IndexedOneMore(bindings: seq<Binding>, i: nat, granted: map<string, set<string>>, caps: set<string>)
    requires i < |bindings| && caps == set c | c in bindings[i].granted
    requires forall name :: name in granted <==> Declared(bindings[..i], name)
    requires forall name :: name in granted ==>
      exists k :: IsLast(bindings[..i], name, k) && granted[name] == (set c | c in bindings[k].granted)
    ensures var g := granted[bindings[i].name := caps];
      && (forall name :: name in g <==> Declared(bindings[..i + 1], name))
      && forall name :: name in g ==>
        exists k :: IsLast(bindings[..i + 1], name, k) && g[name] == (set c | c in bindings[k].granted)
  {
    var g := granted[bindings[i].name := caps];
    forall name ensures name in g <==> Declared(bindings[..i + 1], name) {
      if j :| 0 <= j < i && bindings[j].name == name { assert bindings[..i][j].name == name && bindings[..i + 1][j].name == name; }
      assert bindings[..i + 1][i] == bindings[i];
    }
    forall name | name in g
      ensures exists k :: IsLast(bindings[..i + 1], name, k) && g[name] == (set c | c in bindings[k].granted)
    {
      if name == bindings[i].name {
        assert IsLast(bindings[..i + 1], name, i);
      } else {
        var k :| IsLast(bindings[..i], name, k) && granted[name] == (set c | c in bindings[k].granted);
        assert IsLast(bindings[..i + 1], name, k);
      }
    }
  }

  lemma GrantedByIndex(bindings: seq<Binding>, granted: map<string, set<string>>, req: Requirement)
    requires forall name :: name in granted <==> Declared(bindings, name)
    requires forall name :: name in granted ==>
      exists k :: IsLast(bindings, name, k) && granted[name] == (set c | c in bindings[k].granted)
    ensures Granted(bindings, req) <==>
      req.binding in granted && (req.capability in granted[req.binding] || "*" in granted[req.binding])
  {
    if req.binding in granted {
      var k :| IsLast(bindings, req.binding, k) && granted[req.binding] == (set c | c in bindings[k].granted);
      forall i | IsLast(bindings, req.binding, i) ensures i == k {}
    } else {
      forall i ensures !IsLast(bindings, req.binding, i) {}
    }
  }

  /** Authorize, stamped with the node's id. */
  method AuthorizeNode(bindings: seq<Binding>, nodeId: string, reqs: seq<Requirement>) returns (violations: seq<Violation>)
    ensures violations == Violations(nodeId, bindings, reqs)
  {
    violations := Authorize(bindings, reqs);
    ghost var raw := violations;
    StampedViolations(nodeId, bindings, reqs);
    for i := 0 to |violations|
      invariant |violations| == |raw|
      invariant forall j :: 0 <= j < i ==> violations[j] == raw[j].(nodeId := nodeId)
      invariant forall j :: i <= j < |raw| ==> violations[j] == raw[j]
    {
      violations := violations[i := violations[i].(nodeId := nodeId)];
    }
  }

  lemma {:induction false} StampedViolations(nodeId: string, bindings: seq<Binding>, reqs: seq<Requirement>)
    ensures var raw, v := Violations("", bindings, reqs), Violations(nodeId, bindings, reqs);
      |v| == |raw| && forall j :: 0 <= j < |v| ==> v[j] == raw[j].(nodeId := nodeId)
  {
    if reqs != [] { StampedViolations(nodeId, bindings, reqs[..|reqs| - 1]); }
  }
}
