/**
 * Tool schemas of backend/ai_provider_adapters.py: local validation, the
 * rewriting for strict OpenAI providers, and its undoing.
 *
 * The fragment is reference-free: types, properties, required, items,
 * stand-alone anyOf, enum and const of scalars, and size and number bounds.
 */
module SchemaModel {
  import opened Common
  import opened Json

  datatype Kind = KNull | KBoolean | KString | KInteger | KNumber | KObject | KArray

  datatype Bounds = Bounds(
    minLength: Option<nat>, maxLength: Option<nat>, minItems: Option<nat>, maxItems: Option<nat>,
    minimum: Option<real>, maximum: Option<real>, exclusiveMinimum: Option<real>, exclusiveMaximum: Option<real>)

  datatype Schema =
    | AnyOf(branches: seq<Schema>)
    | Node(kinds: set<Kind>, properties: Members, required: set<string>,
           items: Option<Schema>, choices: Option<seq<Json>>, bounds: Bounds)

  /** The `properties` keyword, which may be missing. */
  datatype Members = Absent | Listed(schemas: map<string, Schema>)

  const FREE := Bounds(None, None, None, None, None, None, None, None)

  /** `{"type": "null"}` */
  const NULL_SCHEMA := Node({KNull}, Absent, {}, None, None, FREE)

  predicate IsKind(v: Json, kind: Kind) {
    match kind
    case KNull => v.Null?
    case KBoolean => v.Bool?
    case KString => v.Str?
    case KInteger => v.Int?
    case KNumber => v.Int? || v.Float?
    case KObject => v.Obj?
    case KArray => v.Arr?
  }

  predicate IsObjectNode(s: Schema)
    requires s.Node?
  {
    s.properties.Listed? || KObject in s.kinds
  }

  function Properties(s: Schema): map<string, Schema>
    requires s.Node?
  {
    if s.properties.Listed? then s.properties.schemas else map[]
  }

  /** What `_agent_schema` has accepted, restricted to the fragment. */
  ghost predicate WellFormed(s: Schema) {
    match s
    case AnyOf(bs) => bs != [] && forall i :: 0 <= i < |bs| ==> WellFormed(bs[i])
    case Node(kinds, props, required, items, choices, _) =>
      && (IsObjectNode(s) ==> required <= Properties(s).Keys)
      && (props.Listed? ==> forall k :: k in props.schemas ==> WellFormed(props.schemas[k]))
      && (items.Some? ==> WellFormed(items.value))
      && (choices.Some? ==> forall c :: c in choices.value ==> !c.Obj? && !c.Arr?)
  }

  predicate SizeOk(n: nat, lo: Option<nat>, hi: Option<nat>) {
    (lo.Some? ==> n >= lo.value) && (hi.Some? ==> n <= hi.value)
  }

  predicate NumberOk(x: real, b: Bounds) {
    && (b.minimum.Some? ==> x >= b.minimum.value) && (b.maximum.Some? ==> x <= b.maximum.value)
    && (b.exclusiveMinimum.Some? ==> x > b.exclusiveMinimum.value)
    && (b.exclusiveMaximum.Some? ==> x < b.exclusiveMaximum.value)
  }

  /** `_schema_matches` */
  ghost predicate Matches(v: Json, s: Schema)
    decreases s
  {
    match s
    case AnyOf(bs) => exists i :: 0 <= i < |bs| && Matches(v, bs[i])
    case Node(kinds, props, required, items, choices, bounds) =>
      && (kinds != {} ==> exists kind :: kind in kinds && IsKind(v, kind))
      && (choices.Some? ==> v in choices.value)
      && (v.Obj? && props.Listed? ==> forall k :: k in v.fields && k in props.schemas ==>
          Matches(v.fields[k], props.schemas[k]))
      && (v.Obj? && IsObjectNode(s) ==> v.fields.Keys <= Properties(s).Keys && required <= v.fields.Keys)
      && (v.Arr? && items.Some? ==> forall i :: 0 <= i < |v.items| ==> Matches(v.items[i], items.value))
      && (v.Arr? ==> SizeOk(|v.items|, bounds.minItems, bounds.maxItems))
      && (v.Str? ==> SizeOk(|v.s|, bounds.minLength, bounds.maxLength))
      && (v.Int? ==> NumberOk(v.i as real, bounds))
      && (v.Float? ==> NumberOk(v.f, bounds))
  }

  /** `_wire_schema` for the OpenAI providers: every property required, optional ones nullable. */
  function Wire(s: Schema): Schema
  {
    match s
    case AnyOf(bs) => AnyOf(seq(|bs|, i requires 0 <= i < |bs| => Wire(bs[i])))
    case Node(_, props, required, items, _, _) =>
      var wired := if props.Absent? then map[]
                   else map k | k in props.schemas ::
                          if k in required then Wire(props.schemas[k])
                              else AnyOf([Wire(props.schemas[k]), NULL_SCHEMA]);
      s.(properties := if IsObjectNode(s) then Listed(wired) else Absent,
         required := if IsObjectNode(s) then wired.Keys else required,
         items := if items.Some? then Some(Wire(items.value)) else None)
  }

  /** Whether the undoing drops this property: a null that only the wire schema allows. */
  ghost predicate Dropped(v: Json, s: Schema, k: string)
    requires v.Obj? && s.Node? && s.properties.Listed? && k in v.fields
  {
    k in s.properties.schemas && v.fields[k] == Null && k !in s.required && !Matches(Null, s.properties.schemas[k])
  }

  /** `_optional_nulls` */
  ghost function Undo(v: Json, s: Schema): Json
    decreases s, 1
  {
    match s
    case AnyOf(bs) => UndoFirst(v, bs)
    case Node(_, props, _, items, _, _) =>
      if v.Obj? && props.Listed? then
        Obj(map k | k in v.fields && !Dropped(v, s, k) ::
              if k in props.schemas then Undo(v.fields[k], props.schemas[k]) else v.fields[k])
      else if v.Arr? && items.Some? then
        Arr(seq(|v.items|, i requires 0 <= i < |v.items| => Undo(v.items[i], items.value)))
      else v
  }

  /** The first branch whose own undoing validates against it; the value itself if there is none. */
  ghost function UndoFirst(v: Json, bs: seq<Schema>): Json
    decreases bs, 0
  {
    if bs == [] then v
    else
      var candidate := Undo(v, bs[0]);
      if Matches(candidate, bs[0]) then candidate else UndoFirst(v, bs[1..])
  }
}

module SchemaTheorems {
  import opened Common
  import opened Json
  import opened SchemaModel

  lemma {:induction false} UndoNull(s: Schema)
    ensures Undo(Null, s) == Null
    decreases s, 1
  {
    if s.AnyOf? {
      UndoFirstNull(s.branches);
    }
  }

  lemma {:induction false} UndoFirstNull(bs: seq<Schema>)
    ensures UndoFirst(Null, bs) == Null
    decreases bs, 0
  {
    if bs != [] {
      UndoNull(bs[0]);
      UndoFirstNull(bs[1..]);
    }
  }

  lemma {:induction false} UndoKeepsTag(v: Json, s: Schema)
    ensures TagOf(Undo(v, s)) == TagOf(v)
    decreases s, 1
  {
    if s.AnyOf? {
      UndoFirstKeepsTag(v, s.branches);
    }
  }

  lemma {:induction false} UndoFirstKeepsTag(v: Json, bs: seq<Schema>)
    ensures TagOf(UndoFirst(v, bs)) == TagOf(v)
    decreases bs, 0
  {
    if bs != [] {
      UndoKeepsTag(v, bs[0]);
      UndoFirstKeepsTag(v, bs[1..]);
    }
  }

  // ----- wire-valid values become locally valid -----

  /** Any value valid under the strict wire schema is valid under the local one once undone. */
  lemma {:induction false} WireValidIsLocallyValid(v: Json, s: Schema)
    requires WellFormed(s) && Matches(v, Wire(s))
    ensures Matches(Undo(v, s), s)
    decreases s, 1
  {
    match s
    case AnyOf(bs) =>
      var i :| 0 <= i < |bs| && Matches(v, Wire(bs[i]));
      WireValidFirst(v, bs, i);
    case Node(_, props, _, items, _, _) =>
      if v.Obj? && props.Listed? {
        WireValidObject(v, s);
      } else if v.Arr? && items.Some? {
        forall i | 0 <= i < |v.items|
          ensures Matches(Undo(v.items[i], items.value), items.value)
        {
          WireValidIsLocallyValid(v.items[i], items.value);
        }
      }
  }

  lemma {:induction false} WireValidFirst(v: Json, bs: seq<Schema>, i: nat)
    requires i < |bs| && (forall j :: 0 <= j < |bs| ==> WellFormed(bs[j])) && Matches(v, Wire(bs[i]))
    ensures exists j :: 0 <= j < |bs| && Matches(UndoFirst(v, bs), bs[j])
    decreases bs, 0
  {
    if Matches(Undo(v, bs[0]), bs[0]) {
    } else if i == 0 {
      WireValidIsLocallyValid(v, bs[0]);
    } else {
      WireValidFirst(v, bs[1..], i - 1);
      var j :| 0 <= j < |bs[1..]| && Matches(UndoFirst(v, bs[1..]), bs[1..][j]);
      assert bs[1..][j] == bs[j + 1];
    }
  }

  /** The wire schema of one property. */
  function WiredChild(s: Schema, k: string): Schema
    requires s.Node? && s.properties.Listed? && k in s.properties.schemas
  {
    var child := Wire(s.properties.schemas[k]);
    if k in s.required then child else AnyOf([child, NULL_SCHEMA])
  }

  lemma {:induction false} WireOfObject(s: Schema)
    requires s.Node? && s.properties.Listed?
    ensures var w := Wire(s);
            && w.Node? && w.kinds == s.kinds && w.choices == s.choices && w.properties.Listed?
            && w.properties.schemas.Keys == s.properties.schemas.Keys == w.required
            && forall k :: k in s.properties.schemas ==> w.properties.schemas[k] == WiredChild(s, k)
  {
  }

  /** What it takes for an object to match a schema with properties. */
  ghost predicate FitsObject(v: Json, s: Schema)
    requires v.Obj? && s.Node? && s.properties.Listed?
  {
    && (s.kinds != {} ==> KObject in s.kinds) && (s.choices.Some? ==> v in s.choices.value)
    && v.fields.Keys <= s.properties.schemas.Keys && s.required <= v.fields.Keys
    && forall k :: k in v.fields ==> Matches(v.fields[k], s.properties.schemas[k])
  }

  lemma {:induction false} ObjectMatches(v: Json, s: Schema)
    requires v.Obj? && s.Node? && s.properties.Listed?
    ensures Matches(v, s) <==> FitsObject(v, s)
  {
    assert forall kind :: IsKind(v, kind) <==> kind == KObject;
  }

  lemma {:induction false} WireValidObject(v: Json, s: Schema)
    requires s.Node? && s.properties.Listed? && v.Obj?
    requires WellFormed(s) && Matches(v, Wire(s))
    ensures Matches(Undo(v, s), s)
    decreases s, 0
  {
    var props := s.properties.schemas;
    var u := Undo(v, s);
    WireOfObject(s);
    ObjectMatches(v, Wire(s));
    forall k | k in u.fields
      ensures k in props && Matches(u.fields[k], props[k])
    {
      WireValidProperty(v.fields[k], props[k], WiredChild(s, k), k in s.required);
    }
    assert FitsObject(u, s);
    ObjectMatches(u, s);
  }

  lemma {:induction false} WireValidProperty(x: Json, child: Schema, wired: Schema, required: bool)
    requires wired == if required then Wire(child) else AnyOf([Wire(child), NULL_SCHEMA])
    requires WellFormed(child) && Matches(x, wired)
    requires !(x == Null && !required && !Matches(Null, child))
    ensures Matches(Undo(x, child), child)
    decreases child, 2
  {
    if Matches(x, Wire(child)) {
      WireValidIsLocallyValid(x, child);
    } else {
      var i :| 0 <= i < 2 && Matches(x, wired.branches[i]);
      assert wired.branches[1] == NULL_SCHEMA && x == Null;
      UndoNull(child);
    }
  }

  // ----- filling missing optionals and undoing it -----

  /** What a strict provider sends for v: missing optional properties as null, in the branch v belongs to. */
  ghost function Fill(v: Json, s: Schema): Json
    decreases s, 1
  {
    match s
    case AnyOf(bs) => FillFirst(v, bs)
    case Node(_, props, required, items, _, _) =>
      if v.Obj? && props.Listed? then
        Obj(map k | k in v.fields.Keys + (props.schemas.Keys - required) ::
              if k !in v.fields then Null
              else if k in props.schemas then Fill(v.fields[k], props.schemas[k]) else v.fields[k])
      else if v.Arr? && items.Some? then
        Arr(seq(|v.items|, i requires 0 <= i < |v.items| => Fill(v.items[i], items.value)))
      else v
  }

  ghost function FillFirst(v: Json, bs: seq<Schema>): Json
    decreases bs, 0
  {
    if bs == [] then v
    else if Matches(v, bs[0]) then Fill(v, bs[0])
    else FillFirst(v, bs[1..])
  }

  lemma {:induction false} FillKeepsTag(v: Json, s: Schema)
    ensures TagOf(Fill(v, s)) == TagOf(v)
    decreases s, 1
  {
    if s.AnyOf? {
      FillFirstKeepsTag(v, s.branches);
    }
  }

  lemma {:induction false} FillFirstKeepsTag(v: Json, bs: seq<Schema>)
    ensures TagOf(FillFirst(v, bs)) == TagOf(v)
    decreases bs, 0
  {
    if bs != [] {
      FillKeepsTag(v, bs[0]);
      FillFirstKeepsTag(v, bs[1..]);
    }
  }

  /** The filled value is valid under the strict wire schema. */
  lemma {:induction false} FilledIsWireValid(v: Json, s: Schema)
    requires WellFormed(s) && Matches(v, s)
    ensures Matches(Fill(v, s), Wire(s))
    decreases s, 1
  {
    match s
    case AnyOf(bs) =>
      FillKeepsTag(v, s);
      FilledFirst(v, bs);
      var j :| 0 <= j < |bs| && Matches(FillFirst(v, bs), Wire(bs[j]));
      assert Matches(FillFirst(v, bs), Wire(s).branches[j]);
    case Node(_, props, _, items, _, _) =>
      if v.Obj? && props.Listed? {
        FilledObject(v, s);
      } else if v.Arr? && items.Some? {
        forall i | 0 <= i < |v.items|
          ensures Matches(Fill(v.items[i], items.value), Wire(items.value))
        {
          FilledIsWireValid(v.items[i], items.value);
        }
      }
  }

  lemma {:induction false} FilledFirst(v: Json, bs: seq<Schema>)
    requires (forall j :: 0 <= j < |bs| ==> WellFormed(bs[j])) && exists j :: 0 <= j < |bs| && Matches(v, bs[j])
    ensures exists j :: 0 <= j < |bs| && Matches(FillFirst(v, bs), Wire(bs[j]))
    decreases bs, 0
  {
    if Matches(v, bs[0]) {
      FilledIsWireValid(v, bs[0]);
    } else {
      var i :| 0 <= i < |bs| && Matches(v, bs[i]);
      assert bs[1..][i - 1] == bs[i];
      FilledFirst(v, bs[1..]);
      var j :| 0 <= j < |bs[1..]| && Matches(FillFirst(v, bs[1..]), Wire(bs[1..][j]));
      assert bs[1..][j] == bs[j + 1];
    }
  }

  lemma {:induction false} FilledObject(v: Json, s: Schema)
    requires s.Node? && s.properties.Listed? && v.Obj?
    requires WellFormed(s) && Matches(v, s)
    ensures Matches(Fill(v, s), Wire(s))
    decreases s, 0
  {
    var props := s.properties.schemas;
    var f := Fill(v, s);
    WireOfObject(s);
    ObjectMatches(v, s);
    forall k | k in f.fields
      ensures k in props && Matches(f.fields[k], WiredChild(s, k))
    {
      if k in v.fields {
        FilledIsWireValid(v.fields[k], props[k]);
      }
      FilledProperty(f.fields[k], props[k], WiredChild(s, k), k in s.required);
    }
    assert FitsObject(f, Wire(s));
    ObjectMatches(f, Wire(s));
  }

  lemma {:induction false} FilledProperty(x: Json, child: Schema, wired: Schema, required: bool)
    requires wired == if required then Wire(child) else AnyOf([Wire(child), NULL_SCHEMA])
    requires Matches(x, Wire(child)) || (x == Null && !required)
    ensures Matches(x, wired)
  {
    if !required {
      assert wired.branches[0] == Wire(child) && wired.branches[1] == NULL_SCHEMA;
      if x == Null {
        assert IsKind(Null, KNull) && KNull in NULL_SCHEMA.kinds;
        assert Matches(x, wired.branches[1]);
      } else {
        assert Matches(x, wired.branches[0]);
      }
    }
  }

  /**
   * When undoing the filled value gives v back: no missing optional property
   * admits null, and no anyOf branch listed before the one v belongs to accepts
   * the filled value.
   */
  ghost predicate Recoverable(v: Json, s: Schema)
    decreases s, 1
  {
    match s
    case AnyOf(bs) => RecoverableFirst(v, bs)
    case Node(_, props, required, items, _, _) =>
      && (v.Obj? && props.Listed? ==>
            forall k :: k in props.schemas ==>
              if k in v.fields then Recoverable(v.fields[k], props.schemas[k])
              else k in required || !Matches(Null, props.schemas[k]))
      && (v.Arr? && items.Some? ==> forall i :: 0 <= i < |v.items| ==> Recoverable(v.items[i], items.value))
  }

  ghost predicate RecoverableFirst(v: Json, bs: seq<Schema>)
    decreases bs, 0
  {
    if bs == [] then true
    else if Matches(v, bs[0]) then Recoverable(v, bs[0])
    else !Matches(Undo(FillFirst(v, bs[1..]), bs[0]), bs[0]) && RecoverableFirst(v, bs[1..])
  }

  /** Filling and undoing restores a valid value exactly when it is recoverable. */
  lemma {:induction false} FillUndoRestores(v: Json, s: Schema)
    requires WellFormed(s) && Matches(v, s)
    ensures Undo(Fill(v, s), s) == v <==> Recoverable(v, s)
    decreases s, 1
  {
    match s
    case AnyOf(bs) => FillUndoFirst(v, bs);
    case Node(_, props, _, items, _, _) =>
      if v.Obj? && props.Listed? {
        FillUndoObject(v, s);
      } else if v.Arr? && items.Some? {
        forall i | 0 <= i < |v.items|
          ensures Undo(Fill(v.items[i], items.value), items.value) == v.items[i] <==>
                    Recoverable(v.items[i], items.value)
        {
          FillUndoRestores(v.items[i], items.value);
        }
        FillUndoArray(v, s);
      }
  }

  lemma {:induction false} FillUndoArray(v: Json, s: Schema)
    requires s.Node? && s.items.Some? && v.Arr?
    requires forall i :: 0 <= i < |v.items| ==>
               (Undo(Fill(v.items[i], s.items.value), s.items.value) == v.items[i] <==>
                Recoverable(v.items[i], s.items.value))
    ensures Undo(Fill(v, s), s) == v <==> Recoverable(v, s)
  {
    var u := Undo(Fill(v, s), s);
    assert u.Arr? && |u.items| == |v.items|;
    assert forall i :: 0 <= i < |v.items| ==> u.items[i] == Undo(Fill(v.items[i], s.items.value), s.items.value);
    if Recoverable(v, s) {
      assert u.items == v.items;
    }
  }

  lemma {:induction false} FillUndoFirst(v: Json, bs: seq<Schema>)
    requires (forall j :: 0 <= j < |bs| ==> WellFormed(bs[j])) && exists j :: 0 <= j < |bs| && Matches(v, bs[j])
    ensures UndoFirst(FillFirst(v, bs), bs) == v <==> RecoverableFirst(v, bs)
    decreases bs, 0
  {
    if Matches(v, bs[0]) {
      FilledIsWireValid(v, bs[0]);
      WireValidIsLocallyValid(Fill(v, bs[0]), bs[0]);
      FillUndoRestores(v, bs[0]);
    } else {
      var i :| 0 <= i < |bs| && Matches(v, bs[i]);
      assert bs[1..][i - 1] == bs[i];
      FillUndoFirst(v, bs[1..]);
    }
  }

  /** A property present in v survives the round trip iff its value does. */
  lemma {:induction false} FillUndoPresent(v: Json, s: Schema, k: string)
    requires s.Node? && s.properties.Listed? && v.Obj? && Matches(v, s) && k in v.fields
    ensures k in s.properties.schemas && k in Fill(v, s).fields && !Dropped(Fill(v, s), s, k)
    ensures k in Undo(Fill(v, s), s).fields
    ensures Undo(Fill(v, s), s).fields[k] == Undo(Fill(v.fields[k], s.properties.schemas[k]), s.properties.schemas[k])
  {
    var child := s.properties.schemas[k];
    FillKeepsTag(v.fields[k], child);
    if v.fields[k] == Null {
      assert Matches(Null, child);
    }
  }

  lemma {:induction false} FillUndoObject(v: Json, s: Schema)
    requires s.Node? && s.properties.Listed? && v.Obj?
    requires WellFormed(s) && Matches(v, s)
    ensures Undo(Fill(v, s), s) == v <==> Recoverable(v, s)
    decreases s, 0
  {
    var props := s.properties.schemas;
    var f := Fill(v, s);
    var u := Undo(f, s);
    forall k | k in v.fields
      ensures k in props && k in u.fields && (u.fields[k] == v.fields[k] <==> Recoverable(v.fields[k], props[k]))
    {
      FillUndoPresent(v, s, k);
      FillUndoRestores(v.fields[k], props[k]);
    }
    forall k | k in props && k !in v.fields
      ensures k in u.fields <==> k !in s.required && Matches(Null, props[k])
    {
    }
    FieldsAgree(v, u, s);
  }

  lemma {:induction false} FieldsAgree(v: Json, u: Json, s: Schema)
    requires s.Node? && s.properties.Listed? && v.Obj? && u.Obj?
    requires forall k :: k in v.fields ==>
               k in s.properties.schemas && k in u.fields
               && (u.fields[k] == v.fields[k] <==> Recoverable(v.fields[k], s.properties.schemas[k]))
    requires forall k :: k in s.properties.schemas && k !in v.fields ==>
               (k in u.fields <==> k !in s.required && Matches(Null, s.properties.schemas[k]))
    requires u.fields.Keys <= s.properties.schemas.Keys
    ensures u == v <==> Recoverable(v, s)
  {
    if Recoverable(v, s) {
      assert u.fields.Keys == v.fields.Keys;
      assert u.fields == v.fields;
    } else {
      var k :| k in s.properties.schemas &&
        !(if k in v.fields then Recoverable(v.fields[k], s.properties.schemas[k])
          else k in s.required || !Matches(Null, s.properties.schemas[k]));
      assert (k in u.fields) != (k in v.fields) || u.fields[k] != v.fields[k];
    }
  }

  // ----- a condition on the schema alone -----

  /** No optional property anywhere admits null. */
  ghost predicate NullFree(s: Schema) {
    match s
    case AnyOf(bs) => forall i :: 0 <= i < |bs| ==> NullFree(bs[i])
    case Node(_, props, required, items, _, _) =>
      && (props.Listed? ==> forall k :: k in props.schemas ==>
            NullFree(props.schemas[k]) && (k in required || !Matches(Null, props.schemas[k])))
      && (items.Some? ==> NullFree(items.value))
  }

  /** The branches of every anyOf are told apart by the type of the value. */
  ghost predicate Discriminated(s: Schema) {
    match s
    case AnyOf(bs) =>
      && (forall i :: 0 <= i < |bs| ==> Discriminated(bs[i]) && bs[i].Node? && bs[i].kinds != {})
      && (forall i, j, v :: 0 <= i < j < |bs| && HasKind(v, bs[i].kinds) ==> !HasKind(v, bs[j].kinds))
    case Node(_, props, _, items, _, _) =>
      && (props.Listed? ==> forall k :: k in props.schemas ==> Discriminated(props.schemas[k]))
      && (items.Some? ==> Discriminated(items.value))
  }

  predicate HasKind(v: Json, kinds: set<Kind>) {
    exists kind :: kind in kinds && IsKind(v, kind)
  }

  lemma {:induction false} SameTagSameKind(v: Json, w: Json, kinds: set<Kind>)
    requires TagOf(v) == TagOf(w) && HasKind(v, kinds)
    ensures HasKind(w, kinds)
  {
    var kind :| kind in kinds && IsKind(v, kind);
    assert IsKind(w, kind);
  }

  /** For such schemas every valid value survives the round trip. */
  lemma {:induction false} StaticallyRecoverable(v: Json, s: Schema)
    requires WellFormed(s) && NullFree(s) && Discriminated(s) && Matches(v, s)
    ensures Recoverable(v, s)
    decreases s, 1
  {
    match s
    case AnyOf(bs) => StaticallyRecoverableFirst(v, bs);
    case Node(_, props, _, items, _, _) =>
      if v.Obj? && props.Listed? {
        forall k | k in props.schemas && k in v.fields
          ensures Recoverable(v.fields[k], props.schemas[k])
        {
          StaticallyRecoverable(v.fields[k], props.schemas[k]);
        }
      }
      if v.Arr? && items.Some? {
        forall i | 0 <= i < |v.items|
          ensures Recoverable(v.items[i], items.value)
        {
          StaticallyRecoverable(v.items[i], items.value);
        }
      }
  }

  lemma {:induction false} StaticallyRecoverableFirst(v: Json, bs: seq<Schema>)
    requires forall i :: 0 <= i < |bs| ==>
               WellFormed(bs[i]) && NullFree(bs[i]) && Discriminated(bs[i]) && bs[i].Node? && bs[i].kinds != {}
    requires forall i, j, v :: 0 <= i < j < |bs| && HasKind(v, bs[i].kinds) ==> !HasKind(v, bs[j].kinds)
    requires exists i :: 0 <= i < |bs| && Matches(v, bs[i])
    ensures RecoverableFirst(v, bs)
    decreases bs, 0
  {
    if Matches(v, bs[0]) {
      StaticallyRecoverable(v, bs[0]);
    } else {
      var i :| 0 <= i < |bs| && Matches(v, bs[i]);
      assert bs[1..][i - 1] == bs[i];
      StaticallyRecoverableFirst(v, bs[1..]);
      var candidate := Undo(FillFirst(v, bs[1..]), bs[0]);
      FillFirstKeepsTag(v, bs[1..]);
      UndoKeepsTag(FillFirst(v, bs[1..]), bs[0]);
      if Matches(candidate, bs[0]) {
        assert HasKind(candidate, bs[0].kinds) && HasKind(v, bs[i].kinds);
        SameTagSameKind(candidate, v, bs[0].kinds);
        assert false;
      }
    }
  }

  // ----- why the anyOf condition is needed -----

  const WANTS_STRING := Node({KString}, Absent, {}, None, None, FREE)
  const WANTS_INT := Node({KInteger}, Absent, {}, None, None, FREE)
  const FIRST := Node({KObject}, Listed(map["x" := WANTS_STRING, "y" := NULL_SCHEMA]), {"y"}, None, None, FREE)
  const SECOND := Node({KObject}, Listed(map["x" := WANTS_INT, "y" := WANTS_INT]), {}, None, None, FREE)

  /**
   * No optional property admits null here, yet the empty object of the second
   * branch comes back as the first branch's {"y": null}.
   */
  lemma {:induction false} EarlierBranchCaptures()
    ensures NullFree(AnyOf([FIRST, SECOND])) && Matches(Obj(map[]), AnyOf([FIRST, SECOND]))
    ensures Undo(Fill(Obj(map[]), AnyOf([FIRST, SECOND])), AnyOf([FIRST, SECOND])) == Obj(map["y" := Null])
  {
    var v, f := Obj(map[]), Obj(map["x" := Null, "y" := Null]);
    SecondIsFilled(v, f);
    FirstAnswers(f, Obj(map["y" := Null]));
    TwoBranches(v, FIRST, SECOND);
    BothNullFree();
  }

  lemma {:induction false} TwoBranches(v: Json, a: Schema, b: Schema)
    requires !Matches(v, a) && Matches(v, b)
    ensures Matches(v, AnyOf([a, b])) && Fill(v, AnyOf([a, b])) == Fill(v, b)
  {
    var s := AnyOf([a, b]);
    assert s.branches[1] == b && s.branches[1..] == [b];
    assert FillFirst(v, [b]) == Fill(v, b);
  }

  lemma {:induction false} BothNullFree()
    ensures NullFree(AnyOf([FIRST, SECOND]))
  {
    assert !Matches(Null, WANTS_STRING) && !Matches(Null, WANTS_INT) by {
      assert IsKind(Null, KNull);
    }
    assert NullFree(FIRST) && NullFree(SECOND);
  }

  lemma {:induction false} SecondIsFilled(v: Json, f: Json)
    requires v == Obj(map[]) && f == Obj(map["x" := Null, "y" := Null])
    ensures !Matches(v, FIRST) && Matches(v, SECOND) && Fill(v, SECOND) == f
    ensures !Matches(Null, WANTS_STRING) && !Matches(Null, WANTS_INT)
  {
    assert IsKind(v, KObject) && IsKind(Null, KNull);
    assert "y" in FIRST.required;
    assert Fill(v, SECOND).fields == f.fields;
  }

  lemma {:induction false} FirstAnswers(f: Json, u: Json)
    requires f == Obj(map["x" := Null, "y" := Null]) && u == Obj(map["y" := Null])
    ensures Undo(f, FIRST) == u && Matches(u, FIRST)
  {
    assert IsKind(u, KObject) && IsKind(Null, KNull);
    assert !Matches(Null, WANTS_STRING);
    assert Undo(f, FIRST).fields == u.fields;
  }
}
