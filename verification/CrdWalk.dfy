/** The walk over a Go type and its CRD schema together (internal/crdwalk/crdwalk.go): the probe it
    builds, the leaves it records, and the fields it reports as lost. */
module CrdWalk {
  import opened Prelude

  // --------------------------------------------------------------------------- types

  datatype Kind = Text | Flag | Whole | Real

  datatype Known = Time | Duration | Quantity | IntOrString | RawExtension | RawJson

  /** The json tag: absent, "-", or what precedes the first comma. */
  datatype Tag = NoTag | Dash | Named(name: string)

  datatype Field = Field(goName: string, tag: Tag, exported: bool, anonymous: bool, ftype: GoType)

  datatype GoType =
    | Scalar(kind: Kind)
    | WellKnown(known: Known)
    | Bytes
    | ObjectMeta
    | TypeMeta
    | Struct(fields: seq<Field>)
    | Slice(elem: GoType)
    | StringMap(elem: GoType)
    | Ptr(elem: GoType)
    | Any

  datatype Prop = Prop(name: string, node: Schema)

  datatype Props = NoProps | Props(list: seq<Prop>)

  datatype Schema = Schema(
    properties: Props, items: Option<Schema>, additional: Option<Schema>, preserve: Option<bool>,
    pattern: string, maxLength: Option<int>, enum0: Option<string>, minimum: Option<real>, maximum: Option<real>)

  /** The node listed under the name; names are meant to be distinct, so that the first is the only one. */
  function Find(props: seq<Prop>, name: string): Option<Schema> {
    if props == [] then None else if props[0].name == name then Some(props[0].node) else Find(props[1..], name)
  }

  function Deref(t: GoType): GoType { if t.Ptr? then Deref(t.elem) else t }

  predicate IsMeta(t: GoType) { t.ObjectMeta? || t.TypeMeta? }

  /** How the walk sees a struct field. */
  datatype Shown = Hidden | Inline | Key(name: string)

  function ShownAs(f: Field): Shown {
    if !f.exported || f.tag == Dash then Hidden
    else if f.tag.Named? && f.tag.name != "" then Key(f.tag.name)
    else if f.anonymous then Inline
    else Hidden
  }

  /** A field the walk descends into at a node of its own. */
  predicate Walked(f: Field) { ShownAs(f).Key? && !IsMeta(Deref(f.ftype)) }

  function ChildPath(path: string, name: string): string { if path == "" then name else path + "." + name }

  // -------------------------------------------------------------------------- values

  datatype Value =
    | VText(text: string) | VFlag(flag: bool) | VWhole(whole: int) | VReal(number: real)
    | VKnown(known: Known, filled: bool)
    | VBytes(filled: bool)
    | VMeta
    | VStruct(fields: seq<Value>)
    | VSlice(elems: seq<Value>)
    | VMap(entries: seq<(string, Value)>)      // by key, in order
    | VPtr(target: Option<Value>)
    | VAny(filled: bool)

  datatype Leaf = Leaf(path: string, value: Value)

  datatype Issue = NoProperties(path: string) | MissingField(path: string) | NoItems(path: string) | NoAdditional(path: string) | UnknownPattern(path: string)

  function Recorded(path: string, v: Value): seq<Leaf> { if path == "" then [] else [Leaf(path, v)] }

  function Zero(t: GoType): Value {
    match t
    case Scalar(k) => (match k case Text => VText("") case Flag => VFlag(false) case Whole => VWhole(0) case Real => VReal(0.0))
    case WellKnown(k) => VKnown(k, false)
    case Bytes => VBytes(false)
    case ObjectMeta => VMeta
    case TypeMeta => VMeta
    case Struct(fs) => VStruct(ZeroFields(t, |fs|))
    case Slice(_) => VSlice([])
    case StringMap(_) => VMap([])
    case Ptr(_) => VPtr(None)
    case Any => VAny(false)
  }

  function ZeroFields(t: GoType, n: nat): (vs: seq<Value>)
    requires t.Struct? && n <= |t.fields|
    ensures |vs| == n
    decreases t, n
  {
    if n == 0 then [] else ZeroFields(t, n - 1) + [Zero(t.fields[n - 1].ftype)]
  }

  const REGISTERED_PATTERN := "^([01]\\d|2[0-3]):[0-5]\\d$"

  function PatternProbe(pattern: string): Option<string> { if pattern == REGISTERED_PATTERN then Some("16:00") else None }

  function Truncated(r: real): int { if r >= 0.0 then r.Floor else -((-r).Floor) }

  function ClampInt(n: int, s: Schema): int {
    var low := if s.minimum.Some? && n < Truncated(s.minimum.value) then Truncated(s.minimum.value) else n;
    if s.maximum.Some? && low > Truncated(s.maximum.value) then Truncated(s.maximum.value) else low
  }

  function ClampReal(r: real, s: Schema): real {
    var low := if s.minimum.Some? && r < s.minimum.value then s.minimum.value else r;
    if s.maximum.Some? && low > s.maximum.value then s.maximum.value else low
  }

  function ProbeText(s: Schema, path: string): string {
    var plain := "probe." + path;
    if s.pattern != "" && PatternProbe(s.pattern).Some? then PatternProbe(s.pattern).value
    else if s.enum0.Some? then s.enum0.value
    else if s.maxLength.Some? && 1 <= s.maxLength.value < |plain| then plain[..s.maxLength.value]
    else plain
  }

  function ProbeScalar(k: Kind, s: Schema, path: string): Value {
    match k
    case Text => VText(ProbeText(s, path))
    case Flag => VFlag(true)
    case Whole => VWhole(ClampInt(7, s))
    case Real => VReal(ClampReal(7.5, s))
  }

  predicate WithinBounds(v: real, s: Schema) { (s.minimum.Some? ==> s.minimum.value <= v) && (s.maximum.Some? ==> v <= s.maximum.value) }

  /** Some value is within the bounds. */
  predicate Satisfiable(s: Schema) { s.minimum.Some? && s.maximum.Some? ==> s.minimum.value <= s.maximum.value }

  predicate IsWhole(bound: Option<real>) { bound.Some? ==> Truncated(bound.value) as real == bound.value }

  /** The upper bound, truncated, lies below 7 or below the truncated lower bound: it is the probe. */
  predicate TopIsProbe(s: Schema) {
    && s.maximum.Some?
    && (Truncated(s.maximum.value) < 7 || (s.minimum.Some? && Truncated(s.maximum.value) < Truncated(s.minimum.value)))
  }

  /** When the whole-number probe is within the bounds: as the truncated maximum if that was not
      rounded up and is no less than the minimum; else if 7 or a whole minimum is not below it. */
  predicate WholeProbeFits(s: Schema) {
    if TopIsProbe(s) then
      (s.maximum.value >= 0.0 || IsWhole(s.maximum)) && (s.minimum.Some? ==> s.minimum.value <= Truncated(s.maximum.value) as real)
    else s.minimum.Some? ==> s.minimum.value <= 7.0 || IsWhole(s.minimum)
  }

  lemma TruncatedIs(r: real)
    ensures r >= 0.0 ==> Truncated(r) as real <= r < Truncated(r) as real + 1.0
    ensures r < 0.0 ==> Truncated(r) as real - 1.0 < r <= Truncated(r) as real
  {
  }

  /** The probe is one the API server accepts: a text takes the registered value, the first of the
      enumeration, or fits the length; a real number is within the bounds if anything is, and a whole
      one if and only if WholeProbeFits, as it does when they are satisfiable and whole. */
  lemma ProbeIsLegal(s: Schema, path: string)
    ensures s.enum0.Some? && PatternProbe(s.pattern).None? ==> ProbeText(s, path) == s.enum0.value
    ensures s.pattern == REGISTERED_PATTERN ==> ProbeText(s, path) == "16:00"
    ensures s.enum0.None? && PatternProbe(s.pattern).None? && s.maxLength.Some? && s.maxLength.value >= 1 ==> |ProbeText(s, path)| <= s.maxLength.value
    ensures Satisfiable(s) <==> WithinBounds(ClampReal(7.5, s), s)
    ensures WithinBounds(ClampInt(7, s) as real, s) <==> WholeProbeFits(s)
    ensures Satisfiable(s) && IsWhole(s.minimum) && IsWhole(s.maximum) ==> WholeProbeFits(s)
  {
    assert |REGISTERED_PATTERN| > 0;
    if s.minimum.Some? { TruncatedIs(s.minimum.value); }
    if s.maximum.Some? { TruncatedIs(s.maximum.value); }
  }

  /** A fractional bound is truncated first, and the probe can fall outside it. */
  lemma FractionalBoundIsMissed(s: Schema)
    requires s.minimum == Some(7.5) && s.maximum.None?
    ensures Satisfiable(s) && ClampInt(7, s) == 7 && !WithinBounds(7.0, s)
  {
    TruncatedIs(7.5);
    assert Truncated(7.5) == 7;
  }

  /** An unregistered pattern is reported twice. */
  function PatternIssues(s: Schema, path: string): seq<Issue> {
    if s.pattern != "" && PatternProbe(s.pattern).None? then [UnknownPattern(path), UnknownPattern(path)] else []
  }

  // ------------------------------------------------------------------- the probe's spec

  /** The element schema of a map: the parent itself when the preserve mark is present. */
  function ElemSchema(s: Schema): Option<Schema> { if s.preserve.Some? then Some(s) else s.additional }

  /** The node a walked field is checked against. */
  function NodeOf(f: Field, props: seq<Prop>): Option<Schema> { if ShownAs(f).Key? then Find(props, ShownAs(f).name) else None }

  function Probe(t: GoType, s: Schema, path: string): Value
    decreases t, 0
  {
    match t
    case Scalar(k) => ProbeScalar(k, s, path)
    case WellKnown(k) => VKnown(k, k != RawJson)
    case Bytes => VBytes(true)
    case ObjectMeta => VMeta
    case TypeMeta => VMeta
    case Struct(fs) => if s.properties.NoProps? then Zero(t) else VStruct(ProbeFields(t, |fs|, s, path))
    case Slice(e) => if s.items.None? then VSlice([]) else VSlice([Probe(e, s.items.value, path + "[]")])
    case StringMap(e) => if ElemSchema(s).None? then VMap([]) else VMap([("probe", Probe(e, ElemSchema(s).value, path + "{}"))])
    case Ptr(e) => VPtr(Some(Probe(e, s, path)))
    case Any => VAny(true)
  }

  function ProbeField(f: Field, s: Schema, path: string): Value
    requires s.properties.Props?
    decreases f, 1
  {
    if ShownAs(f) == Inline then Probe(f.ftype, s, path)
    else if !Walked(f) || NodeOf(f, s.properties.list).None? then Zero(f.ftype)
    else Probe(f.ftype, NodeOf(f, s.properties.list).value, ChildPath(path, ShownAs(f).name))
  }

  function ProbeFields(t: GoType, n: nat, s: Schema, path: string): (vs: seq<Value>)
    requires t.Struct? && n <= |t.fields| && s.properties.Props?
    ensures |vs| == n
    decreases t, 0, n
  {
    if n == 0 then [] else ProbeFields(t, n - 1, s, path) + [ProbeField(t.fields[n - 1], s, path)]
  }

  /** The leaves the probe assigns, in order. */
  function ProbeLeaves(t: GoType, s: Schema, path: string): seq<Leaf>
    decreases t, 0
  {
    match t
    case Struct(fs) => if s.properties.NoProps? then [] else FieldLeaves(t, |fs|, s, path)
    case Slice(e) => if s.items.None? then [] else ProbeLeaves(e, s.items.value, path + "[]")
    case StringMap(e) => if ElemSchema(s).None? then [] else ProbeLeaves(e, ElemSchema(s).value, path + "{}")
    case Ptr(e) => ProbeLeaves(e, s, path)
    case ObjectMeta => []
    case TypeMeta => []
    case _ => Recorded(path, Probe(t, s, path))
  }

  function OneFieldLeaves(f: Field, s: Schema, path: string): seq<Leaf>
    requires s.properties.Props?
    decreases f, 1
  {
    if ShownAs(f) == Inline then ProbeLeaves(f.ftype, s, path)
    else if !Walked(f) || NodeOf(f, s.properties.list).None? then []
    else ProbeLeaves(f.ftype, NodeOf(f, s.properties.list).value, ChildPath(path, ShownAs(f).name))
  }

  function FieldLeaves(t: GoType, n: nat, s: Schema, path: string): seq<Leaf>
    requires t.Struct? && n <= |t.fields| && s.properties.Props?
    decreases t, 0, n
  {
    if n == 0 then [] else FieldLeaves(t, n - 1, s, path) + OneFieldLeaves(t.fields[n - 1], s, path)
  }

  function IssuesOf(t: GoType, s: Schema, path: string): seq<Issue>
    decreases t, 0
  {
    match t
    case Scalar(_) => PatternIssues(s, path)
    case Struct(fs) =>
      if s.properties.NoProps? then (if s.preserve == Some(true) then [] else [NoProperties(path)])
      else FieldIssues(t, |fs|, s, path)
    case Slice(e) => if s.items.None? then [NoItems(path)] else IssuesOf(e, s.items.value, path + "[]")
    case StringMap(e) => if ElemSchema(s).None? then [NoAdditional(path)] else IssuesOf(e, ElemSchema(s).value, path + "{}")
    case Ptr(e) => IssuesOf(e, s, path)
    case _ => []
  }

  function OneFieldIssues(f: Field, s: Schema, path: string): seq<Issue>
    requires s.properties.Props?
    decreases f, 1
  {
    if ShownAs(f) == Inline then IssuesOf(f.ftype, s, path)
    else if !Walked(f) then []
    else if NodeOf(f, s.properties.list).None? then [MissingField(ChildPath(path, ShownAs(f).name))]
    else IssuesOf(f.ftype, NodeOf(f, s.properties.list).value, ChildPath(path, ShownAs(f).name))
  }

  function FieldIssues(t: GoType, n: nat, s: Schema, path: string): seq<Issue>
    requires t.Struct? && n <= |t.fields| && s.properties.Props?
    decreases t, 0, n
  {
    if n == 0 then [] else FieldIssues(t, n - 1, s, path) + OneFieldIssues(t.fields[n - 1], s, path)
  }

  // --------------------------------------------------------------- generate mode, as it runs

  /** Builds the probe and accumulates leaves and issues on the way. */
  method Generate(t: GoType, s: Schema, path: string) returns (v: Value, leaves: seq<Leaf>, issues: seq<Issue>)
    ensures v == Probe(t, s, path) && leaves == ProbeLeaves(t, s, path) && issues == IssuesOf(t, s, path)
    decreases t, 0
  {
    leaves, issues := [], [];
    match t {
      case Ptr(e) =>
        v, leaves, issues := Generate(e, s, path);
        v := VPtr(Some(v));
      case WellKnown(k) =>
        v := VKnown(k, k != RawJson);
        leaves := Recorded(path, v);
      case Bytes =>
        v := VBytes(true);
        leaves := Recorded(path, v);
      case ObjectMeta => v := VMeta;
      case TypeMeta => v := VMeta;
      case Struct(_) => v, leaves, issues := GenerateStruct(t, s, path);
      case Slice(e) =>
        v := VSlice([]);
        if s.items.None? { issues := [NoItems(path)]; return; }
        v, leaves, issues := Generate(e, s.items.value, path + "[]");
        v := VSlice([v]);
      case StringMap(e) =>
        v := VMap([]);
        var elemSchema := s;
        if s.preserve.None? {
          if s.additional.None? { issues := [NoAdditional(path)]; return; }
          elemSchema := s.additional.value;
        }
        v, leaves, issues := Generate(e, elemSchema, path + "{}");
        v := VMap([("probe", v)]);
      case Any =>
        v := VAny(true);
        leaves := Recorded(path, v);
      case Scalar(k) =>
        issues := PatternIssues(s, path);
        v := ProbeScalar(k, s, path);
        leaves := Recorded(path, v);
    }
  }

  method GenerateStruct(t: GoType, s: Schema, path: string) returns (v: Value, leaves: seq<Leaf>, issues: seq<Issue>)
    requires t.Struct?
    ensures v == Probe(t, s, path) && leaves == ProbeLeaves(t, s, path) && issues == IssuesOf(t, s, path)
    decreases t, 0, 0
  {
    leaves, issues := [], [];
    if s.properties.NoProps? {
      if s.preserve != Some(true) { issues := [NoProperties(path)]; }
      return Zero(t), leaves, issues;
    }
    var props, vs := s.properties.list, [];
    for i := 0 to |t.fields|
      invariant vs == ProbeFields(t, i, s, path) && leaves == FieldLeaves(t, i, s, path) && issues == FieldIssues(t, i, s, path)
    {
      var f := t.fields[i];
      var fv, sub, iss := Zero(f.ftype), [], [];
      match ShownAs(f) {
        case Hidden =>
        case Inline => fv, sub, iss := Generate(f.ftype, s, path);
        case Key(name) =>
          if !IsMeta(Deref(f.ftype)) {
            var node := Find(props, name);
            if node.Some? {
              fv, sub, iss := Generate(f.ftype, node.value, ChildPath(path, name));
            } else {
              iss := [MissingField(ChildPath(path, name))];
            }
          }
      }
      vs, leaves, issues := vs + [fv], leaves + sub, issues + iss;
    }
    v := VStruct(vs);
  }

  // --------------------------------------------------------------------------- collect mode

  /** The leaves stored in an existing value: the first element of a slice, the first entry of a map. */
  function Collect(t: GoType, s: Schema, path: string, v: Value): seq<Leaf>
    decreases t, 0
  {
    match t
    case Ptr(e) =>
      if !v.VPtr? then []
      else if v.target.None? then Recorded(path, v)
      else Collect(e, s, path, v.target.value)
    case Struct(fs) => if s.properties.NoProps? || !v.VStruct? || |v.fields| != |fs| then [] else CollectFields(t, |fs|, s, path, v)
    case Slice(e) => if s.items.None? || !v.VSlice? || v.elems == [] then [] else Collect(e, s.items.value, path + "[]", v.elems[0])
    case StringMap(e) =>
      if ElemSchema(s).None? || !v.VMap? || v.entries == [] then []
      else Collect(e, ElemSchema(s).value, path + "{}", v.entries[0].1)
    case ObjectMeta => []
    case TypeMeta => []
    case _ => Recorded(path, v)
  }

  function CollectField(f: Field, s: Schema, path: string, v: Value): seq<Leaf>
    requires s.properties.Props?
    decreases f, 1
  {
    if ShownAs(f) == Inline then Collect(f.ftype, s, path, v)
    else if !Walked(f) || NodeOf(f, s.properties.list).None? then []
    else Collect(f.ftype, NodeOf(f, s.properties.list).value, ChildPath(path, ShownAs(f).name), v)
  }

  function CollectFields(t: GoType, n: nat, s: Schema, path: string, v: Value): seq<Leaf>
    requires t.Struct? && n <= |t.fields| && s.properties.Props? && v.VStruct? && |v.fields| == |t.fields|
    decreases t, 0, n
  {
    if n == 0 then [] else CollectFields(t, n - 1, s, path, v) + CollectField(t.fields[n - 1], s, path, v.fields[n - 1])
  }

  lemma {:induction false} ProbeFieldAt(t: GoType, n: nat, s: Schema, path: string, i: nat)
    requires t.Struct? && i < n <= |t.fields| && s.properties.Props?
    ensures ProbeFields(t, n, s, path)[i] == ProbeField(t.fields[i], s, path)
    decreases n
  {
    if i < n - 1 { ProbeFieldAt(t, n - 1, s, path, i); }
  }

  /** Collecting the probe gives back exactly the leaves its generation recorded, in order. */
  lemma {:induction false} CollectsWhatWasProbed(t: GoType, s: Schema, path: string)
    ensures Collect(t, s, path, Probe(t, s, path)) == ProbeLeaves(t, s, path)
    decreases t, 0
  {
    match t
    case Ptr(e) => CollectsWhatWasProbed(e, s, path);
    case Struct(fs) => if s.properties.Props? { CollectsFields(t, |fs|, s, path); }
    case Slice(e) => if s.items.Some? { CollectsWhatWasProbed(e, s.items.value, path + "[]"); }
    case StringMap(e) => if ElemSchema(s).Some? { CollectsWhatWasProbed(e, ElemSchema(s).value, path + "{}"); }
    case _ =>
  }

  lemma {:induction false} CollectsFields(t: GoType, n: nat, s: Schema, path: string)
    requires t.Struct? && n <= |t.fields| && s.properties.Props?
    ensures CollectFields(t, n, s, path, VStruct(ProbeFields(t, |t.fields|, s, path))) == FieldLeaves(t, n, s, path)
    decreases t, 0, n
  {
    if n > 0 {
      var f := t.fields[n - 1];
      CollectsFields(t, n - 1, s, path);
      ProbeFieldAt(t, |t.fields|, s, path, n - 1);
      if ShownAs(f) == Inline {
        CollectsWhatWasProbed(f.ftype, s, path);
      } else if Walked(f) && NodeOf(f, s.properties.list).Some? {
        CollectsWhatWasProbed(f.ftype, NodeOf(f, s.properties.list).value, ChildPath(path, ShownAs(f).name));
      }
    }
  }
}
