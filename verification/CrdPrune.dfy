/** What a clean walk promises: when the API server's structural pruning takes something away from an
    encoded value of the type, and when the walk is silent about it. */
module CrdPrune {
  import opened Prelude
  import opened CrdWalk

  // ----------------------------------------------------------------- values on the wire

  datatype Json = JNull | JScalar(text: string) | JList(elems: seq<Json>) | JObject(members: seq<Member>)

  datatype Member = Member(key: string, value: Json)

  const TYPE_KEYS := {"apiVersion", "kind"}

  const META_KEYS := {
    "name", "generateName", "namespace", "selfLink", "uid", "resourceVersion", "generation", "creationTimestamp",
    "deletionTimestamp", "deletionGracePeriodSeconds", "labels", "annotations", "ownerReferences", "finalizers", "managedFields"}

  predicate IsOpaque(t: GoType) { t.Any? || (t.WellKnown? && t.known in {RawExtension, RawJson}) }

  predicate IsRecord(t: GoType) { t.Struct? || IsMeta(t) }

  /** How the encoder sees a field: left out, its members merged into the parent's, or under a key. */
  datatype Encoded = Absent | Merged(inner: GoType) | Under(key: string)

  /** The encoder's rule: unlike the walk, it names an untagged field after itself and looks into
      embedded records of unexported type. */
  function JsonSees(f: Field): (e: Encoded)
    ensures e.Merged? ==> e.inner == f.ftype || (f.ftype.Ptr? && e.inner == f.ftype.elem)
  {
    var inner := if f.ftype.Ptr? then f.ftype.elem else f.ftype;
    if f.tag == Dash || (!f.exported && !(f.anonymous && IsRecord(inner))) then Absent
    else if f.tag.Named? && f.tag.name != "" then Under(f.tag.name)
    else if f.anonymous && IsRecord(inner) then Merged(inner)
    else Under(f.goName)
  }

  /** j may encode a value of type t: any subset of the fields, omitted ones left out. */
  ghost predicate Encodes(t: GoType, j: Json)
    decreases t, 1
  {
    match t
    case Scalar(_) => j.JScalar?
    case WellKnown(k) => IsOpaque(t) || j.JScalar? || j.JNull?
    case Bytes => j.JScalar? || j.JNull?
    case Slice(e) => j.JNull? || (j.JList? && forall x :: x in j.elems ==> Encodes(e, x))
    case StringMap(e) => j.JNull? || (j.JObject? && forall m :: m in j.members ==> Encodes(e, m.value))
    case Ptr(e) => j.JNull? || Encodes(e, j)
    case Any => true
    case _ => j.JObject? && forall m :: m in j.members ==> HasMember(t, m)
  }

  /** The record encodes such a member. */
  ghost predicate HasMember(t: GoType, m: Member)
    requires IsRecord(t)
    decreases t, 0
  {
    match t
    case Struct(fs) => Exposes(t, |fs|, m)
    case TypeMeta => m.key in TYPE_KEYS && m.value.JScalar?
    case _ => m.key in META_KEYS
  }

  ghost predicate Exposes(t: GoType, n: nat, m: Member)
    requires t.Struct? && n <= |t.fields|
    decreases t, 0, n
  {
    n > 0 && (ExposedBy(t.fields[n - 1], m) || Exposes(t, n - 1, m))
  }

  ghost predicate ExposedBy(f: Field, m: Member)
    decreases f, 1
  {
    match JsonSees(f)
    case Absent => false
    case Merged(inner) => HasMember(inner, m)
    case Under(key) => m.key == key && Encodes(f.ftype, m.value)
  }

  /** Some encoding of each type. */
  function Sample(t: GoType): (j: Json)
    ensures Encodes(t, j)
  {
    match t
    case Scalar(_) => JScalar("x")
    case Struct(_) => JObject([])
    case ObjectMeta => JObject([])
    case TypeMeta => JObject([])
    case _ => JNull
  }

  // -------------------------------------------------------------------------- pruning

  function ItemsOf(s: Option<Schema>): Option<Schema> { if s.Some? then s.value.items else None }

  /** The node, or a parent it stands in for, preserves unknown fields. */
  predicate Keeping(s: Option<Schema>, preserving: bool) { preserving || (s.Some? && s.value.preserve == Some(true)) }

  function Property(s: Option<Schema>, key: string): Option<Schema> {
    if s.Some? && s.value.properties.Props? then Find(s.value.properties.list, key) else None
  }

  /** Where a member's value is specified: its property, else the additional properties. */
  function MemberSchema(s: Option<Schema>, key: string): Option<Schema> {
    if Property(s, key).Some? then Property(s, key) else if s.Some? then s.value.additional else None
  }

  /** Structural pruning: unspecified members go, unless the node preserves unknown fields. */
  function Prune(j: Json, s: Option<Schema>, preserving: bool): Json
    decreases j, 0
  {
    match j
    case JObject(ms) => JObject(PruneMembers(j, |ms|, s, Keeping(s, preserving), {}))
    case JList(xs) => JList(seq(|xs|, i requires 0 <= i < |xs| => Prune(xs[i], ItemsOf(s), Keeping(s, preserving))))
    case _ => j
  }

  /** free: members kept whatever the schema says. */
  function PruneMembers(j: Json, n: nat, s: Option<Schema>, keep: bool, free: set<string>): seq<Member>
    requires j.JObject? && n <= |j.members|
    decreases j, 0, n
  {
    if n == 0 then []
    else
      var m := j.members[n - 1];
      PruneMembers(j, n - 1, s, keep, free) +
        (if m.key in free then [m]
         else if MemberSchema(s, m.key).Some? then [Member(m.key, Prune(m.value, MemberSchema(s, m.key), false))]
         else if keep then [m] else [])
  }

  const ROOT_KEYS := {"apiVersion", "kind", "metadata"}

  /** At the root the server keeps the object's own metadata whatever the schema says. */
  function PruneRoot(j: Json, s: Schema): Json
    requires j.JObject?
  {
    JObject(PruneMembers(j, |j.members|, Some(s), Keeping(Some(s), false), ROOT_KEYS))
  }

  /** Neither the member nor anything below it is touched. */
  predicate Kept(m: Member, s: Option<Schema>, keep: bool, free: set<string>) {
    m.key in free || if MemberSchema(s, m.key).Some? then Prune(m.value, MemberSchema(s, m.key), false) == m.value else keep
  }

  lemma {:induction false} KeptMembers(j: Json, n: nat, s: Option<Schema>, keep: bool, free: set<string>)
    requires j.JObject? && n <= |j.members| && forall m :: m in j.members ==> Kept(m, s, keep, free)
    ensures PruneMembers(j, n, s, keep, free) == j.members[..n]
    decreases n
  {
    if n > 0 {
      KeptMembers(j, n - 1, s, keep, free);
      assert Kept(j.members[n - 1], s, keep, free) && j.members[..n] == j.members[..n - 1] + [j.members[n - 1]];
    }
  }

  lemma AllKept(j: Json, s: Option<Schema>, keep: bool, free: set<string>)
    requires j.JObject? && forall m :: m in j.members ==> Kept(m, s, keep, free)
    ensures JObject(PruneMembers(j, |j.members|, s, keep, free)) == j
  {
    KeptMembers(j, |j.members|, s, keep, free);
    assert j.members[..|j.members|] == j.members;
  }

  lemma OneLost(m: Member, s: Option<Schema>, keep: bool, free: set<string>)
    requires !Kept(m, s, keep, free)
    ensures PruneMembers(JObject([m]), 1, s, keep, free) != [m]
  {
    assert PruneMembers(JObject([m]), 0, s, keep, free) == [];
  }

  lemma ListKept(j: Json, s: Option<Schema>, preserving: bool)
    requires j.JList? && forall x :: x in j.elems ==> Prune(x, ItemsOf(s), Keeping(s, preserving)) == x
    ensures Prune(j, s, preserving) == j
  {
    var pruned := Prune(j, s, preserving).elems;
    forall i | 0 <= i < |j.elems| ensures pruned[i] == j.elems[i] { assert j.elems[i] in j.elems; }
    assert pruned == j.elems;
  }

  lemma OneElementLost(x: Json, s: Option<Schema>, preserving: bool)
    requires Prune(x, ItemsOf(s), Keeping(s, preserving)) != x
    ensures Prune(JList([x]), s, preserving) != JList([x])
  {
    assert Prune(JList([x]), s, preserving).elems[0] != [x][0];
  }

  // ------------------------------------------------------------- what a node leaves alone

  /** The i-th is the first of its name. */
  predicate First(props: seq<Prop>, i: nat)
    requires i < |props|
  {
    forall j :: 0 <= j < i ==> props[j].name != props[i].name
  }

  lemma {:induction false} FindIsFirst(props: seq<Prop>, key: string)
    ensures Find(props, key).Some? ==> exists i :: 0 <= i < |props| && First(props, i) && props[i].name == key && Find(props, key).value == props[i].node
    ensures Find(props, key).None? <==> forall i :: 0 <= i < |props| ==> props[i].name != key
  {
    if props != [] {
      FindIsFirst(props[1..], key);
      if props[0].name == key {
        assert First(props, 0);
      } else if Find(props, key).Some? {
        var i :| 0 <= i < |props[1..]| && First(props[1..], i) && props[1..][i].name == key && Find(props[1..], key).value == props[1..][i].node;
        forall j | 0 <= j < i + 1 ensures props[j].name != props[i + 1].name {
          if j > 0 { assert props[j] == props[1..][j - 1]; }
        }
        assert First(props, i + 1) && props[i + 1] == props[1..][i];
      }
      if Find(props, key).None? {
        forall i | 0 <= i < |props| ensures props[i].name != key {
          if i > 0 { assert props[i] == props[1..][i - 1]; }
        }
      } else if props[0].name != key {
        assert !(forall i :: 0 <= i < |props[1..]| ==> props[1..][i].name != key);
      }
    }
  }

  lemma {:induction false} FirstIsFound(props: seq<Prop>, i: nat)
    requires i < |props| && First(props, i)
    ensures Find(props, props[i].name) == Some(props[i].node)
  {
    if i > 0 {
      assert props[1..][i - 1] == props[i] && First(props[1..], i - 1);
      FirstIsFound(props[1..], i - 1);
    }
  }

  function Longest(props: seq<Prop>): (n: nat)
    ensures forall i :: 0 <= i < |props| ==> |props[i].name| <= n
  {
    if props == [] then 0
    else
      var n := Longest(props[1..]);
      assert forall i :: 0 < i < |props| ==> props[i] == props[1..][i - 1];
      if |props[0].name| > n then |props[0].name| else n
  }

  /** A key no property has. */
  function FreshKey(s: Option<Schema>): (key: string)
    ensures Property(s, key).None?
  {
    var props := if s.Some? && s.value.properties.Props? then s.value.properties.list else [];
    var key := seq(Longest(props) + 1, _ => 'a');
    FindIsFirst(props, key);
    key
  }

  /** Nothing at all is pruned under the node. */
  predicate KeepsEverything(s: Schema, preserving: bool) {
    var keep := Keeping(Some(s), preserving);
    && (s.properties.Props? ==>
          forall i :: 0 <= i < |s.properties.list| && First(s.properties.list, i) ==> KeepsEverything(s.properties.list[i].node, false))
    && (if s.additional.Some? then KeepsEverything(s.additional.value, false) else keep)
    && (if s.items.Some? then KeepsEverything(s.items.value, keep) else keep)
  }

  predicate KeepsAny(s: Option<Schema>, preserving: bool) { if s.Some? then KeepsEverything(s.value, preserving) else preserving }

  /** A member of that key is kept whatever its value. */
  predicate KeepsMember(s: Option<Schema>, key: string, keep: bool) {
    if MemberSchema(s, key).Some? then KeepsEverything(MemberSchema(s, key).value, false) else keep
  }

  lemma MembersOfKeeper(s: Option<Schema>, key: string, preserving: bool)
    requires KeepsAny(s, preserving)
    ensures KeepsMember(s, key, Keeping(s, preserving))
  {
    if s.Some? && s.value.properties.Props? { FindIsFirst(s.value.properties.list, key); }
  }

  lemma {:induction false} KeeperKeeps(s: Option<Schema>, preserving: bool, j: Json)
    requires KeepsAny(s, preserving)
    ensures Prune(j, s, preserving) == j
    decreases j
  {
    match j
    case JObject(ms) =>
      forall m | m in ms ensures Kept(m, s, Keeping(s, preserving), {}) {
        MembersOfKeeper(s, m.key, preserving);
        if MemberSchema(s, m.key).Some? { KeeperKeeps(MemberSchema(s, m.key), false, m.value); }
      }
      AllKept(j, s, Keeping(s, preserving), {});
    case JList(xs) =>
      forall x | x in xs ensures Prune(x, ItemsOf(s), Keeping(s, preserving)) == x { KeeperKeeps(ItemsOf(s), Keeping(s, preserving), x); }
      ListKept(j, s, preserving);
    case _ =>
  }

  const TINY := JObject([Member("a", JNull)])

  lemma TinyIsLost()
    ensures Prune(TINY, None, false) != TINY
  {
    OneLost(Member("a", JNull), None, false, {});
  }

  /** What any other node takes away. */
  lemma LostByNode(s: Option<Schema>, preserving: bool) returns (j: Json)
    requires !KeepsAny(s, preserving)
    ensures Prune(j, s, preserving) != j
  {
    if s.Some? {
      j := LostBelow(s.value, preserving);
    } else {
      TinyIsLost();
      j := TINY;
    }
  }

  lemma {:induction false} LostBelow(s: Schema, preserving: bool) returns (j: Json)
    requires !KeepsEverything(s, preserving)
    ensures Prune(j, Some(s), preserving) != j
    decreases s
  {
    var keep := Keeping(Some(s), preserving);
    if i: nat :| s.properties.Props? && i < |s.properties.list| && First(s.properties.list, i) && !KeepsEverything(s.properties.list[i].node, false) {
      var p := s.properties.list[i];
      FirstIsFound(s.properties.list, i);
      var v := LostBelow(p.node, false);
      OneLost(Member(p.name, v), Some(s), keep, {});
      j := JObject([Member(p.name, v)]);
    } else if !(if s.additional.Some? then KeepsEverything(s.additional.value, false) else keep) {
      var key, v := FreshKey(Some(s)), JNull;
      if s.additional.Some? { v := LostBelow(s.additional.value, false); }
      OneLost(Member(key, v), Some(s), keep, {});
      j := JObject([Member(key, v)]);
    } else {
      TinyIsLost();
      var x := TINY;
      if s.items.Some? { x := LostBelow(s.items.value, keep); }
      OneElementLost(x, Some(s), preserving);
      j := JList([x]);
    }
  }

  // --------------------------------------------------------- exactly when nothing is lost

  predicate TypeKept(s: Option<Schema>, keep: bool, free: set<string>) {
    forall k :: k in TYPE_KEYS ==> k in free || MemberSchema(s, k).Some? || keep
  }

  predicate MetaKept(s: Option<Schema>, keep: bool, free: set<string>) {
    forall k :: k in META_KEYS ==> k in free || KeepsMember(s, k, keep)
  }

  /** No encoded value of the type loses anything at the node: every member the encoder may write is
      specified or preserved, and so on below it. */
  predicate Lossless(t: GoType, s: Option<Schema>, preserving: bool)
    decreases t, 1
  {
    var keep := Keeping(s, preserving);
    match t
    case Scalar(_) => true
    case WellKnown(_) => IsOpaque(t) ==> KeepsAny(s, preserving)
    case Bytes => true
    case Any => KeepsAny(s, preserving)
    case Slice(e) => Lossless(e, ItemsOf(s), keep)
    case StringMap(e) =>
      && PropertiesSuit(e, s)
      && (if s.Some? && s.value.additional.Some? then Lossless(e, s.value.additional, false) else keep)
    case Ptr(e) => Lossless(e, s, preserving)
    case _ => LosslessRecord(t, s, keep, {})
  }

  /** A map's entry may have any key: each property must hold the element type. */
  predicate PropertiesSuit(e: GoType, s: Option<Schema>)
    decreases e, 2
  {
    s.Some? && s.value.properties.Props? ==>
      forall i :: 0 <= i < |s.value.properties.list| && First(s.value.properties.list, i) ==>
        Lossless(e, Some(s.value.properties.list[i].node), false)
  }

  predicate LosslessRecord(t: GoType, s: Option<Schema>, keep: bool, free: set<string>)
    requires IsRecord(t)
    decreases t, 0
  {
    match t
    case Struct(fs) => LosslessFields(t, |fs|, s, keep, free)
    case TypeMeta => TypeKept(s, keep, free)
    case _ => MetaKept(s, keep, free)
  }

  predicate LosslessFields(t: GoType, n: nat, s: Option<Schema>, keep: bool, free: set<string>)
    requires t.Struct? && n <= |t.fields|
    decreases t, 0, n
  {
    n > 0 ==> LosslessFields(t, n - 1, s, keep, free) && LosslessField(t.fields[n - 1], s, keep, free)
  }

  predicate LosslessField(f: Field, s: Option<Schema>, keep: bool, free: set<string>)
    decreases f, 1
  {
    match JsonSees(f)
    case Absent => true
    case Merged(inner) => LosslessRecord(inner, s, keep, free)
    case Under(key) => key in free || if MemberSchema(s, key).Some? then Lossless(f.ftype, MemberSchema(s, key), false) else keep
  }

  lemma {:induction false} LosslessKeeps(t: GoType, s: Option<Schema>, preserving: bool, j: Json)
    requires Lossless(t, s, preserving) && Encodes(t, j)
    ensures Prune(j, s, preserving) == j
    decreases t, 1
  {
    var keep := Keeping(s, preserving);
    if IsOpaque(t) {
      KeeperKeeps(s, preserving, j);
    } else if IsRecord(t) {
      forall m | m in j.members ensures Kept(m, s, keep, {}) { RecordKeeps(t, s, keep, {}, m); }
      AllKept(j, s, keep, {});
    } else if t.Ptr? && !j.JNull? {
      LosslessKeeps(t.elem, s, preserving, j);
    } else if t.Slice? && j.JList? {
      forall x | x in j.elems ensures Prune(x, ItemsOf(s), keep) == x { LosslessKeeps(t.elem, ItemsOf(s), keep, x); }
      ListKept(j, s, preserving);
    } else if t.StringMap? && j.JObject? {
      forall m | m in j.members ensures Kept(m, s, keep, {}) { EntryIsKept(t.elem, s, preserving, m); }
      AllKept(j, s, keep, {});
    }
  }

  lemma EntryIsKept(e: GoType, s: Option<Schema>, preserving: bool, m: Member)
    requires Lossless(StringMap(e), s, preserving) && Encodes(e, m.value)
    ensures Kept(m, s, Keeping(s, preserving), {})
    decreases e, 2
  {
    if s.Some? && s.value.properties.Props? { FindIsFirst(s.value.properties.list, m.key); }
    if MemberSchema(s, m.key).Some? { LosslessKeeps(e, MemberSchema(s, m.key), false, m.value); }
  }

  lemma {:induction false} RecordKeeps(t: GoType, s: Option<Schema>, keep: bool, free: set<string>, m: Member)
    requires IsRecord(t) && LosslessRecord(t, s, keep, free) && HasMember(t, m)
    ensures Kept(m, s, keep, free)
    decreases t, 0
  {
    match t
    case Struct(fs) => FieldsKeep(t, |fs|, s, keep, free, m);
    case TypeMeta =>
    case _ => if m.key !in free && MemberSchema(s, m.key).Some? { KeeperKeeps(MemberSchema(s, m.key), false, m.value); }
  }

  lemma {:induction false} FieldsKeep(t: GoType, n: nat, s: Option<Schema>, keep: bool, free: set<string>, m: Member)
    requires t.Struct? && n <= |t.fields| && LosslessFields(t, n, s, keep, free) && Exposes(t, n, m)
    ensures Kept(m, s, keep, free)
    decreases t, 0, n
  {
    var f := t.fields[n - 1];
    if !ExposedBy(f, m) {
      FieldsKeep(t, n - 1, s, keep, free, m);
    } else if JsonSees(f).Merged? {
      RecordKeeps(JsonSees(f).inner, s, keep, free, m);
    } else if m.key !in free && MemberSchema(s, m.key).Some? {
      LosslessKeeps(f.ftype, MemberSchema(s, m.key), false, m.value);
    }
  }

  /** An encoded value that loses something where the type is not lossless. */
  lemma {:induction false} Lost(t: GoType, s: Option<Schema>, preserving: bool) returns (j: Json)
    requires !Lossless(t, s, preserving)
    ensures Encodes(t, j) && Prune(j, s, preserving) != j
    decreases t, 1
  {
    var keep := Keeping(s, preserving);
    if IsOpaque(t) {
      j := LostByNode(s, preserving);
    } else if IsRecord(t) {
      var m := LostMember(t, s, keep, {});
      OneLost(m, s, keep, {});
      j := JObject([m]);
    } else if t.Ptr? {
      j := Lost(t.elem, s, preserving);
    } else if t.Slice? {
      var x := Lost(t.elem, ItemsOf(s), keep);
      OneElementLost(x, s, preserving);
      j := JList([x]);
    } else {
      var m := LostEntry(t.elem, s, preserving);
      OneLost(m, s, keep, {});
      j := JObject([m]);
    }
  }

  lemma LostEntry(e: GoType, s: Option<Schema>, preserving: bool) returns (m: Member)
    requires !Lossless(StringMap(e), s, preserving)
    ensures Encodes(e, m.value) && !Kept(m, s, Keeping(s, preserving), {})
    decreases e, 2
  {
    if !PropertiesSuit(e, s) {
      var props := s.value.properties.list;
      var i: nat :| i < |props| && First(props, i) && !Lossless(e, Some(props[i].node), false);
      FirstIsFound(props, i);
      var v := Lost(e, Some(props[i].node), false);
      m := Member(props[i].name, v);
    } else {
      var v := Sample(e);
      if s.Some? && s.value.additional.Some? { v := Lost(e, s.value.additional, false); }
      m := Member(FreshKey(s), v);
    }
  }

  lemma {:induction false} LostMember(t: GoType, s: Option<Schema>, keep: bool, free: set<string>) returns (m: Member)
    requires IsRecord(t) && !LosslessRecord(t, s, keep, free)
    ensures HasMember(t, m) && !Kept(m, s, keep, free)
    decreases t, 0
  {
    if t.Struct? {
      m := LostField(t, |t.fields|, s, keep, free);
    } else if t.TypeMeta? {
      var k :| k in TYPE_KEYS && !(k in free || MemberSchema(s, k).Some? || keep);
      m := Member(k, JScalar("x"));
    } else {
      var k :| k in META_KEYS && !(k in free || KeepsMember(s, k, keep));
      var v := JNull;
      if MemberSchema(s, k).Some? { v := LostByNode(MemberSchema(s, k), false); }
      m := Member(k, v);
    }
  }

  lemma {:induction false} LostField(t: GoType, n: nat, s: Option<Schema>, keep: bool, free: set<string>) returns (m: Member)
    requires t.Struct? && n <= |t.fields| && !LosslessFields(t, n, s, keep, free)
    ensures Exposes(t, n, m) && !Kept(m, s, keep, free)
    decreases t, 0, n
  {
    var f := t.fields[n - 1];
    if LosslessField(f, s, keep, free) {
      m := LostField(t, n - 1, s, keep, free);
    } else if JsonSees(f).Merged? {
      m := LostMember(JsonSees(f).inner, s, keep, free);
    } else {
      var key, v := JsonSees(f).key, Sample(f.ftype);
      if MemberSchema(s, key).Some? { v := Lost(f.ftype, MemberSchema(s, key), false); }
      m := Member(key, v);
    }
  }

  /** Pruning takes nothing from any encoded value of the type if and only if the type is lossless
      at the node. */
  lemma LosslessIsExact(t: GoType, s: Option<Schema>, preserving: bool)
    ensures (forall j :: Encodes(t, j) ==> Prune(j, s, preserving) == j) <==> Lossless(t, s, preserving)
  {
    if Lossless(t, s, preserving) {
      forall j | Encodes(t, j) ensures Prune(j, s, preserving) == j { LosslessKeeps(t, s, preserving, j); }
    } else {
      var j := Lost(t, s, preserving);
    }
  }

  // ------------------------------------------------------------- what the walk leaves open

  /** What a silent walk has not settled: map nodes with a preserve mark and their properties, fields
      it does not look at, opaque values and metadata, and unspecified members of a node without
      properties. Where the walk goes itself, only the same further down. */
  predicate Unseen(t: GoType, s: Schema, preserving: bool)
    decreases t, 1
  {
    var keep := Keeping(Some(s), preserving);
    match t
    case Struct(_) => UnseenStruct(t, s, keep, {})
    case Slice(e) => s.items.Some? ==> Unseen(e, s.items.value, keep)
    case StringMap(e) =>
      if s.preserve.Some? then Lossless(t, Some(s), preserving)
      else s.additional.Some? ==> PropertiesSuit(e, Some(s)) && Unseen(e, s.additional.value, false)
    case Ptr(e) => Unseen(e, s, preserving)
    case _ => Lossless(t, Some(s), preserving)
  }

  predicate UnseenStruct(t: GoType, s: Schema, keep: bool, free: set<string>)
    requires t.Struct?
    decreases t, 0, |t.fields| + 1
  {
    if s.properties.NoProps? then s.additional.Some? ==> LosslessFields(t, |t.fields|, Some(s), keep, free)
    else UnseenFields(t, |t.fields|, s, keep, free)
  }

  predicate UnseenFields(t: GoType, n: nat, s: Schema, keep: bool, free: set<string>)
    requires t.Struct? && n <= |t.fields| && s.properties.Props?
    decreases t, 0, n
  {
    n > 0 ==> UnseenFields(t, n - 1, s, keep, free) && UnseenField(t.fields[n - 1], s, keep, free)
  }

  predicate UnseenField(f: Field, s: Schema, keep: bool, free: set<string>)
    requires s.properties.Props?
    decreases f, 1
  {
    if Walked(f) then
      ShownAs(f).name in free || (NodeOf(f, s.properties.list).Some? ==> Unseen(f.ftype, NodeOf(f, s.properties.list).value, false))
    else if ShownAs(f) == Inline && JsonSees(f).Merged? && JsonSees(f).inner.Struct? then
      UnseenFields(JsonSees(f).inner, |JsonSees(f).inner.fields|, s, keep, free)
    else LosslessField(f, Some(s), keep, free)
  }

  /** Where the walk reports nothing, the rest decides. */
  lemma {:induction false} WalkSettles(t: GoType, s: Schema, path: string, preserving: bool)
    requires IssuesOf(t, s, path) == []
    ensures Unseen(t, s, preserving) <==> Lossless(t, Some(s), preserving)
    decreases t, 1
  {
    match t
    case Struct(_) => WalkSettlesStruct(t, s, path, preserving, {});
    case Slice(e) => WalkSettles(e, s.items.value, path + "[]", Keeping(Some(s), preserving));
    case StringMap(e) => if s.preserve.None? { WalkSettles(e, s.additional.value, path + "{}", false); }
    case Ptr(e) => WalkSettles(e, s, path, preserving);
    case _ =>
  }

  lemma {:induction false} WalkSettlesStruct(t: GoType, s: Schema, path: string, preserving: bool, free: set<string>)
    requires t.Struct? && IssuesOf(t, s, path) == []
    ensures var keep := Keeping(Some(s), preserving); UnseenStruct(t, s, keep, free) <==> LosslessFields(t, |t.fields|, Some(s), keep, free)
    decreases t, 0, |t.fields| + 1
  {
    var keep := Keeping(Some(s), preserving);
    if s.properties.Props? {
      WalkSettlesFields(t, |t.fields|, s, path, keep, free);
    } else if s.additional.None? {
      AllPreserved(t, |t.fields|, Some(s), free);
    }
  }

  /** A preserving node that specifies no member keeps every field. */
  lemma {:induction false} AllPreserved(t: GoType, n: nat, s: Option<Schema>, free: set<string>)
    requires t.Struct? && n <= |t.fields| && forall key :: MemberSchema(s, key).None?
    ensures LosslessFields(t, n, s, true, free)
    decreases t, n
  {
    if n > 0 {
      AllPreserved(t, n - 1, s, free);
      var e := JsonSees(t.fields[n - 1]);
      if e.Merged? && e.inner.Struct? { AllPreserved(e.inner, |e.inner.fields|, s, free); }
    }
  }

  lemma {:induction false} WalkSettlesFields(t: GoType, n: nat, s: Schema, path: string, keep: bool, free: set<string>)
    requires t.Struct? && n <= |t.fields| && s.properties.Props? && FieldIssues(t, n, s, path) == []
    ensures UnseenFields(t, n, s, keep, free) <==> LosslessFields(t, n, Some(s), keep, free)
    decreases t, 0, n
  {
    if n > 0 {
      WalkSettlesFields(t, n - 1, s, path, keep, free);
      WalkSettlesField(t.fields[n - 1], s, path, keep, free);
    }
  }

  lemma {:induction false} WalkSettlesField(f: Field, s: Schema, path: string, keep: bool, free: set<string>)
    requires s.properties.Props? && OneFieldIssues(f, s, path) == []
    ensures UnseenField(f, s, keep, free) <==> LosslessField(f, Some(s), keep, free)
    decreases f, 1
  {
    if Walked(f) {
      WalkSettles(f.ftype, NodeOf(f, s.properties.list).value, ChildPath(path, ShownAs(f).name), false);
    } else if ShownAs(f) == Inline && JsonSees(f).Merged? && JsonSees(f).inner.Struct? {
      var inner := JsonSees(f).inner;
      assert IssuesOf(inner, s, path) == [];
      WalkSettlesFields(inner, |inner.fields|, s, path, keep, free);
    }
  }

  /** If the walk reports nothing, pruning changes no encoded value of the type, however deep, if and
      only if what the walk leaves open is lossless. */
  lemma NothingIsPruned(t: GoType, s: Schema, path: string, preserving: bool)
    requires IssuesOf(t, s, path) == []
    ensures (forall j :: Encodes(t, j) ==> Prune(j, Some(s), preserving) == j) <==> Unseen(t, s, preserving)
  {
    LosslessIsExact(t, Some(s), preserving);
    WalkSettles(t, s, path, preserving);
  }

  /** A root whose check reports nothing loses nothing when the API server stores it if and only if
      what the walk leaves open, the object's own metadata aside, is lossless. */
  lemma CleanCheckLosesNothing(t: GoType, s: Schema)
    requires t.Struct? && IssuesOf(t, s, "") == []
    ensures (forall j :: Encodes(t, j) ==> PruneRoot(j, s) == j) <==> UnseenStruct(t, s, Keeping(Some(s), false), ROOT_KEYS)
  {
    var keep := Keeping(Some(s), false);
    WalkSettlesStruct(t, s, "", false, ROOT_KEYS);
    if LosslessRecord(t, Some(s), keep, ROOT_KEYS) {
      forall j | Encodes(t, j) ensures PruneRoot(j, s) == j {
        forall m | m in j.members ensures Kept(m, Some(s), keep, ROOT_KEYS) { RecordKeeps(t, Some(s), keep, ROOT_KEYS, m); }
        AllKept(j, Some(s), keep, ROOT_KEYS);
      }
    } else {
      var m := LostMember(t, Some(s), keep, ROOT_KEYS);
      OneLost(m, Some(s), keep, ROOT_KEYS);
      assert Encodes(t, JObject([m])) && PruneRoot(JObject([m]), s) != JObject([m]);
    }
  }

  // ------------------------------------------------------- where it leaves nothing open

  /** Types the walk sees whole: every field it passes over is not encoded either, an embedded field
      is a struct, and nothing is opaque or metadata. */
  predicate Plain(t: GoType)
    decreases t, 0
  {
    match t
    case Scalar(_) => true
    case WellKnown(_) => !IsOpaque(t)
    case Bytes => true
    case Struct(fs) => PlainFields(t, |fs|)
    case Slice(e) => Plain(e)
    case StringMap(e) => Plain(e)
    case Ptr(e) => Plain(e)
    case ObjectMeta => false
    case TypeMeta => false
    case Any => false
  }

  predicate PlainField(f: Field)
    decreases f, 1
  {
    && (ShownAs(f) == Hidden ==> JsonSees(f) == Absent)
    && (ShownAs(f) != Hidden ==> Plain(f.ftype))
    && (ShownAs(f) == Inline ==> JsonSees(f).Merged? && JsonSees(f).inner.Struct?)
  }

  predicate PlainFields(t: GoType, n: nat)
    requires t.Struct? && n <= |t.fields|
    decreases t, 0, n
  {
    n > 0 ==> PlainFields(t, n - 1) && PlainField(t.fields[n - 1])
  }

  /** The nodes the walk passes are used the way it reads them: a struct without properties and a
      preserving map specify nothing, and any other map has additional properties alone. */
  predicate Pairs(t: GoType, s: Schema)
    decreases t, 0
  {
    match t
    case Struct(fs) => if s.properties.NoProps? then s.additional.None? else PairFields(t, |fs|, s)
    case Slice(e) => s.items.Some? ==> Pairs(e, s.items.value)
    case StringMap(e) =>
      && s.properties.NoProps?
      && if s.preserve.Some? then s.preserve == Some(true) && s.additional.None? else s.additional.Some? ==> Pairs(e, s.additional.value)
    case Ptr(e) => Pairs(e, s)
    case _ => true
  }

  predicate PairField(f: Field, s: Schema)
    requires s.properties.Props?
    decreases f, 1
  {
    if ShownAs(f) == Inline then Pairs(f.ftype, s)
    else Walked(f) && NodeOf(f, s.properties.list).Some? ==> Pairs(f.ftype, NodeOf(f, s.properties.list).value)
  }

  predicate PairFields(t: GoType, n: nat, s: Schema)
    requires t.Struct? && n <= |t.fields| && s.properties.Props?
    decreases t, 0, n
  {
    n > 0 ==> PairFields(t, n - 1, s) && PairField(t.fields[n - 1], s)
  }

  /** On those the walk leaves nothing open: its silence is enough. */
  lemma {:induction false} PlainLeavesNothing(t: GoType, s: Schema, preserving: bool)
    requires Plain(t) && Pairs(t, s)
    ensures Unseen(t, s, preserving)
    decreases t, 1
  {
    match t
    case Struct(fs) => if s.properties.Props? { PlainFieldsLeaveNothing(t, |fs|, s, Keeping(Some(s), preserving), {}); }
    case Slice(e) => if s.items.Some? { PlainLeavesNothing(e, s.items.value, Keeping(Some(s), preserving)); }
    case StringMap(e) => if s.preserve.None? && s.additional.Some? { PlainLeavesNothing(e, s.additional.value, false); }
    case Ptr(e) => PlainLeavesNothing(e, s, preserving);
    case _ =>
  }

  lemma {:induction false} PlainFieldsLeaveNothing(t: GoType, n: nat, s: Schema, keep: bool, free: set<string>)
    requires t.Struct? && n <= |t.fields| && s.properties.Props? && PlainFields(t, n) && PairFields(t, n, s)
    ensures UnseenFields(t, n, s, keep, free)
    decreases t, 0, n
  {
    if n > 0 {
      PlainFieldsLeaveNothing(t, n - 1, s, keep, free);
      PlainFieldLeavesNothing(t.fields[n - 1], s, keep, free);
    }
  }

  lemma {:induction false} PlainFieldLeavesNothing(f: Field, s: Schema, keep: bool, free: set<string>)
    requires s.properties.Props? && PlainField(f) && PairField(f, s)
    ensures UnseenField(f, s, keep, free)
    decreases f, 1
  {
    if ShownAs(f) == Inline {
      var inner := JsonSees(f).inner;
      assert Plain(inner) && Pairs(inner, s);
      PlainFieldsLeaveNothing(inner, |inner.fields|, s, keep, free);
    } else if ShownAs(f).Key? {
      PlainIsNotMeta(f.ftype);
      if NodeOf(f, s.properties.list).Some? { PlainLeavesNothing(f.ftype, NodeOf(f, s.properties.list).value, false); }
    }
  }

  lemma {:induction false} PlainIsNotMeta(t: GoType)
    requires Plain(t)
    ensures !IsMeta(Deref(t))
  {
    if t.Ptr? { PlainIsNotMeta(t.elem); }
  }

  /** A field of a root type: metadata in the two usual places, every other one plain. */
  predicate RootField(f: Field) {
    || PlainField(f)
    || (f.exported && f.anonymous && f.ftype.TypeMeta? && ShownAs(f) == Inline)
    || (f.exported && f.ftype.ObjectMeta? && ShownAs(f) == Key("metadata"))
  }

  predicate RootFields(t: GoType, n: nat)
    requires t.Struct? && n <= |t.fields|
  {
    n > 0 ==> RootFields(t, n - 1) && RootField(t.fields[n - 1])
  }

  lemma {:induction false} UsualRootLeavesNothing(t: GoType, n: nat, s: Schema, keep: bool)
    requires t.Struct? && n <= |t.fields| && s.properties.Props? && RootFields(t, n) && PairFields(t, n, s)
    ensures UnseenFields(t, n, s, keep, ROOT_KEYS)
  {
    if n > 0 {
      var f := t.fields[n - 1];
      UsualRootLeavesNothing(t, n - 1, s, keep);
      assert TYPE_KEYS <= ROOT_KEYS && "metadata" in ROOT_KEYS;
      if PlainField(f) {
        PlainFieldLeavesNothing(f, s, keep, ROOT_KEYS);
      } else if f.ftype.TypeMeta? {
        assert JsonSees(f) == Merged(TypeMeta) && LosslessRecord(TypeMeta, Some(s), keep, ROOT_KEYS);
        assert LosslessField(f, Some(s), keep, ROOT_KEYS);
      }
    }
  }

  /** So a usual root whose check reports nothing loses nothing. */
  lemma UsualRootLosesNothing(t: GoType, s: Schema, j: Json)
    requires t.Struct? && s.properties.Props? && RootFields(t, |t.fields|) && PairFields(t, |t.fields|, s)
    requires IssuesOf(t, s, "") == [] && Encodes(t, j)
    ensures PruneRoot(j, s) == j
  {
    UsualRootLeavesNothing(t, |t.fields|, s, Keeping(Some(s), false));
    CleanCheckLosesNothing(t, s);
  }

  // ------------------------------------------------------------------- where it does not

  const BARE := Schema(NoProps, None, None, None, "", None, None, None, None)

  function OneMember(key: string): Json { JObject([Member(key, JScalar("x"))]) }

  /** The walk is silent and the value is lost. */
  ghost predicate SilentLoss(t: GoType, s: Schema, j: Json) {
    IssuesOf(t, s, "") == [] && Encodes(t, j) && Prune(j, Some(s), false) != j
  }

  lemma BareDropsMembers(s: Schema, key: string)
    requires s.preserve != Some(true) && s.additional.None? && s.properties in {NoProps, Props([])}
    ensures Prune(OneMember(key), Some(s), false) != OneMember(key)
  {
    OneLost(OneMember(key).members[0], Some(s), false, {});
  }

  /** A map's node is taken for preserving when the mark is merely present, even if it says false. */
  lemma FalseMarkHidesLoss(key: string)
    ensures SilentLoss(StringMap(Scalar(Text)), BARE.(preserve := Some(false)), OneMember(key))
  {
    BareDropsMembers(BARE.(preserve := Some(false)), key);
  }

  lemma HiddenIsSilent(f: Field, s: Schema)
    requires ShownAs(f) == Hidden && s.properties.Props?
    ensures IssuesOf(Struct([f]), s, "") == []
  {
    var t := Struct([f]);
    assert FieldIssues(t, 0, s, "") == [] && OneFieldIssues(f, s, "") == [];
    assert FieldIssues(t, 1, s, "") == FieldIssues(t, 0, s, "") + OneFieldIssues(t.fields[0], s, "");
    assert |t.fields| == 1;
  }

  lemma EncodesAlone(f: Field, m: Member)
    requires ExposedBy(f, m)
    ensures HasMember(Struct([f]), m) && Encodes(Struct([f]), JObject([m]))
  {
    var t := Struct([f]);
    assert t.fields[0] == f && Exposes(t, 1, m) && |t.fields| == 1;
    assert HasMember(t, m);
  }

  /** An untagged field is encoded under its own name, and never looked at. */
  lemma UntaggedFieldIsLost(name: string)
    ensures SilentLoss(Struct([Field(name, NoTag, true, false, Scalar(Text))]), BARE.(properties := Props([])), OneMember(name))
  {
    var f, s := Field(name, NoTag, true, false, Scalar(Text)), BARE.(properties := Props([]));
    var m := Member(name, JScalar("x"));
    assert ExposedBy(f, m);
    hide Encodes, IssuesOf, Prune, ExposedBy, HasMember;
    HiddenIsSilent(f, s);
    EncodesAlone(f, m);
    BareDropsMembers(s, name);
  }

  /** So are the fields of an embedded struct whose own type is not exported. */
  lemma EmbeddedUnexportedIsLost(name: string, goName: string)
    requires name != ""
    ensures SilentLoss(Struct([Field(goName, NoTag, false, true, Struct([Field(name, Named(name), true, false, Scalar(Text))]))]),
      BARE.(properties := Props([])), OneMember(name))
  {
    var inner := Field(name, Named(name), true, false, Scalar(Text));
    var f, s := Field(goName, NoTag, false, true, Struct([inner])), BARE.(properties := Props([]));
    var m := Member(name, JScalar("x"));
    assert ExposedBy(inner, m);
    EncodesAlone(inner, m);
    assert ExposedBy(f, m);
    hide Encodes, IssuesOf, Prune, ExposedBy, HasMember;
    HiddenIsSilent(f, s);
    EncodesAlone(f, m);
    BareDropsMembers(s, name);
  }

  /** Opaque values and nested metadata are taken to be kept wherever they stand. */
  lemma OpaqueContentIsLost(t: GoType)
    requires t in {Any, WellKnown(RawExtension), WellKnown(RawJson), ObjectMeta}
    ensures SilentLoss(t, BARE, OneMember("name"))
  {
    BareDropsMembers(BARE, "name");
  }
}
