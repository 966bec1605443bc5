/** What the schema functions mean, value by value and keyword by keyword. */
module SchemaMeaning {
  import opened Common
  import opened Json
  import opened SchemaModel
  import opened SchemaTheorems

  /** The `type` keyword, which is free when it is missing or empty. */
  predicate TypeAllows(kinds: set<Kind>, v: Json) {
    kinds == {} ||
    match v
    case Null => KNull in kinds
    case Bool(_) => KBoolean in kinds
    case Int(_) => KInteger in kinds || KNumber in kinds
    case Float(_) => KNumber in kinds
    case Str(_) => KString in kinds
    case Arr(_) => KArray in kinds
    case Obj(_) => KObject in kinds
  }

  lemma {:induction false} TypeMeans(v: Json, kinds: set<Kind>)
    ensures TypeAllows(kinds, v) <==> kinds != {} ==> HasKind(v, kinds)
  {
    var kind := match v case Null => KNull case Bool(_) => KBoolean case Int(_) => KInteger case Float(_) => KNumber
                        case Str(_) => KString case Arr(_) => KArray case Obj(_) => KObject;
    assert IsKind(v, kind) && (v.Int? ==> IsKind(v, KNumber));
    if HasKind(v, kinds) {
      var k :| k in kinds && IsKind(v, k);
      assert k == kind || (v.Int? && k == KNumber);
    }
  }

  predicate ChoiceAllows(choices: Option<seq<Json>>, v: Json) {
    choices.None? || exists i :: 0 <= i < |choices.value| && choices.value[i] == v
  }

  /** No length bound is violated. */
  predicate LengthAllows(n: int, least: Option<nat>, most: Option<nat>) {
    !(least.Some? && n < least.value) && !(most.Some? && n > most.value)
  }

  /** No number bound is violated. */
  predicate NumberAllows(x: real, b: Bounds) {
    && !(b.minimum.Some? && x < b.minimum.value) && !(b.maximum.Some? && x > b.maximum.value)
    && !(b.exclusiveMinimum.Some? && x <= b.exclusiveMinimum.value)
    && !(b.exclusiveMaximum.Some? && x >= b.exclusiveMaximum.value)
  }

  /** What the keywords about the value itself say. */
  predicate ScalarAllows(v: Json, s: Schema)
    requires s.Node?
  {
    && TypeAllows(s.kinds, v) && ChoiceAllows(s.choices, v)
    && match v
       case Int(i) => NumberAllows(i as real, s.bounds)
       case Float(f) => NumberAllows(f, s.bounds)
       case Str(text) => LengthAllows(|text|, s.bounds.minLength, s.bounds.maxLength)
       case Arr(items) => LengthAllows(|items|, s.bounds.minItems, s.bounds.maxItems)
       case _ => true
  }

  /** Null, booleans, numbers and strings: type, choices and bounds decide. */
  lemma {:induction false} ScalarMeans(v: Json, s: Schema)
    requires s.Node? && !v.Arr? && !v.Obj?
    ensures Matches(v, s) <==> ScalarAllows(v, s)
  {
    TypeMeans(v, s.kinds);
  }

  /** Arrays: besides, every item matches the item schema. */
  lemma {:induction false} ArrayMeans(v: Json, s: Schema)
    requires s.Node? && v.Arr?
    ensures Matches(v, s) <==>
              ScalarAllows(v, s) && (s.items.Some? ==> forall x :: x in v.items ==> Matches(x, s.items.value))
  {
    TypeMeans(v, s.kinds);
    assert forall i :: 0 <= i < |v.items| ==> v.items[i] in v.items;
  }

  /** Objects: in an object schema exactly listed properties, all required ones, and every value matching its own. */
  lemma {:induction false} ObjectMeans(v: Json, s: Schema)
    requires s.Node? && v.Obj?
    ensures Matches(v, s) <==>
              && ScalarAllows(v, s)
              && (s.properties.Listed? ==>
                    && v.fields.Keys <= s.properties.schemas.Keys && s.required <= v.fields.Keys
                    && forall k :: k in v.fields ==> Matches(v.fields[k], s.properties.schemas[k]))
              && (s.properties.Absent? && KObject in s.kinds ==> v.fields == map[] && s.required == {})
  {
    TypeMeans(v, s.kinds);
    if s.properties.Listed? {
      ObjectMatches(v, s);
    } else if KObject in s.kinds {
      assert v.fields.Keys <= {} <==> v.fields == map[];
    }
  }

  lemma {:induction false} AnyOfMeans(v: Json, s: Schema)
    requires s.AnyOf?
    ensures Matches(v, s) <==> exists branch :: branch in s.branches && Matches(v, branch)
  {
    assert forall i :: 0 <= i < |s.branches| ==> s.branches[i] in s.branches;
  }

  // ----- the wire schema -----

  /** Only object nodes change: every property is required, and the optional ones also take null. */
  lemma {:induction false} WireMeans(s: Schema)
    requires s.Node?
    ensures var w := Wire(s);
            && w.Node? && w.kinds == s.kinds && w.choices == s.choices && w.bounds == s.bounds
            && w.items == (if s.items.None? then None else Some(Wire(s.items.value)))
            && (s.properties.Absent? && KObject !in s.kinds ==> w.properties == Absent && w.required == s.required)
            && (s.properties.Absent? && KObject in s.kinds ==> w.properties == Listed(map[]) && w.required == {})
            && (s.properties.Listed? ==>
                  && w.properties.Listed? && w.required == w.properties.schemas.Keys == s.properties.schemas.Keys
                  && forall k :: k in s.properties.schemas ==>
                       w.properties.schemas[k] ==
                       if k in s.required then Wire(s.properties.schemas[k])
                       else AnyOf([Wire(s.properties.schemas[k]), NULL_SCHEMA]))
  {
  }

  lemma {:induction false} WireOfBranches(s: Schema)
    requires s.AnyOf?
    ensures Wire(s).AnyOf? && |Wire(s).branches| == |s.branches|
    ensures forall i :: 0 <= i < |s.branches| ==> Wire(s).branches[i] == Wire(s.branches[i])
  {
  }

  /** The added branch takes null and nothing else. */
  lemma {:induction false} NullSchemaMeans(v: Json)
    ensures Matches(v, NULL_SCHEMA) <==> v == Null
  {
    assert v.Null? ==> IsKind(v, KNull) && KNull in NULL_SCHEMA.kinds;
  }

  // ----- undoing -----

  /**
   * Of an object, undoing drops exactly the optional properties whose null the
   * local schema does not take, and undoes the others one by one.
   */
  lemma {:induction false} UndoMeans(v: Json, s: Schema)
    requires v.Obj? && s.Node? && s.properties.Listed?
    ensures Undo(v, s).Obj?
    ensures forall k :: k in Undo(v, s).fields <==>
              && k in v.fields
              && !(k in s.properties.schemas && k !in s.required && v.fields[k].Null?
                   && !Matches(Null, s.properties.schemas[k]))
    ensures forall k :: k in Undo(v, s).fields ==>
              Undo(v, s).fields[k] ==
              if k in s.properties.schemas then Undo(v.fields[k], s.properties.schemas[k]) else v.fields[k]
  {
  }

  /** Arrays are undone item by item, and everything else in a single node is left alone. */
  lemma {:induction false} UndoOfArray(v: Json, s: Schema)
    requires s.Node?
    ensures v.Arr? && s.items.Some? ==>
              && Undo(v, s).Arr? && |Undo(v, s).items| == |v.items|
              && forall i :: 0 <= i < |v.items| ==> Undo(v, s).items[i] == Undo(v.items[i], s.items.value)
    ensures !(v.Arr? && s.items.Some?) && !(v.Obj? && s.properties.Listed?) ==> Undo(v, s) == v
  {
  }

  /** Branch i is the first whose own undoing fits it. */
  ghost predicate FitsFirst(v: Json, bs: seq<Schema>, i: nat) {
    && i < |bs| && Matches(Undo(v, bs[i]), bs[i])
    && forall j :: 0 <= j < i ==> !Matches(Undo(v, bs[j]), bs[j])
  }

  /** Under an anyOf the first such branch undoes the value; without one it stays as it is. */
  lemma {:induction false} UndoOfAnyOf(v: Json, s: Schema, i: nat)
    requires s.AnyOf?
    ensures FitsFirst(v, s.branches, i) ==> Undo(v, s) == Undo(v, s.branches[i])
    ensures (forall j :: 0 <= j < |s.branches| ==> !Matches(Undo(v, s.branches[j]), s.branches[j])) ==> Undo(v, s) == v
  {
    UndoOfBranches(v, s.branches, i);
  }

  lemma {:induction false} UndoOfBranches(v: Json, bs: seq<Schema>, i: nat)
    ensures FitsFirst(v, bs, i) ==> UndoFirst(v, bs) == Undo(v, bs[i])
    ensures (forall j :: 0 <= j < |bs| ==> !Matches(Undo(v, bs[j]), bs[j])) ==> UndoFirst(v, bs) == v
  {
    if bs != [] {
      assert forall j :: 0 <= j < |bs| - 1 ==> bs[1..][j] == bs[j + 1];
      UndoOfBranches(v, bs[1..], if i == 0 then 0 else i - 1);
    }
  }

  /** A value that is already valid is left as it is, when every anyOf is told apart by type. */
  lemma {:induction false} UndoOfValid(v: Json, s: Schema)
    requires Discriminated(s) && Matches(v, s)
    ensures Undo(v, s) == v
    decreases s, 1
  {
    match s
    case AnyOf(bs) => UndoFirstOfValid(v, bs);
    case Node(_, props, _, items, _, _) =>
      if v.Obj? && props.Listed? {
        ObjectMatches(v, s);
        UndoMeans(v, s);
        forall k | k in v.fields ensures k in Undo(v, s).fields && Undo(v, s).fields[k] == v.fields[k] {
          UndoOfValid(v.fields[k], props.schemas[k]);
        }
        assert Undo(v, s).fields == v.fields;
      } else if v.Arr? && items.Some? {
        forall i | 0 <= i < |v.items| ensures Undo(v.items[i], items.value) == v.items[i] {
          UndoOfValid(v.items[i], items.value);
        }
        assert Undo(v, s).items == v.items;
      }
  }

  lemma {:induction false} UndoFirstOfValid(v: Json, bs: seq<Schema>)
    requires forall i :: 0 <= i < |bs| ==> Discriminated(bs[i]) && bs[i].Node? && bs[i].kinds != {}
    requires forall i, j, v :: 0 <= i < j < |bs| && HasKind(v, bs[i].kinds) ==> !HasKind(v, bs[j].kinds)
    requires exists i :: 0 <= i < |bs| && Matches(v, bs[i])
    ensures UndoFirst(v, bs) == v
    decreases bs, 0
  {
    var candidate := Undo(v, bs[0]);
    if Matches(v, bs[0]) {
      UndoOfValid(v, bs[0]);
    } else {
      var i :| 0 <= i < |bs| && Matches(v, bs[i]);
      assert bs[1..][i - 1] == bs[i];
      UndoKeepsTag(v, bs[0]);
      if Matches(candidate, bs[0]) {
        assert HasKind(candidate, bs[0].kinds) && HasKind(v, bs[i].kinds);
        SameTagSameKind(candidate, v, bs[0].kinds);
        assert false;
      }
      UndoFirstOfValid(v, bs[1..]);
    }
  }

  /** So undoing what a strict provider sent a second time changes nothing. */
  lemma {:induction false} UndoTwice(v: Json, s: Schema)
    requires WellFormed(s) && Discriminated(s) && Matches(v, Wire(s))
    ensures Undo(Undo(v, s), s) == Undo(v, s)
  {
    WireValidIsLocallyValid(v, s);
    UndoOfValid(Undo(v, s), s);
  }

  /** Every branch list, object and array schema built from accepted parts is accepted. */
  lemma {:induction false} AcceptedSchemas(s: Schema)
    ensures s.AnyOf? && s.branches != [] && (forall b :: b in s.branches ==> WellFormed(b)) ==> WellFormed(s)
    ensures s.Node? && (s.choices.None? || forall c :: c in s.choices.value ==> !c.Arr? && !c.Obj?)
            && (s.items.None? || WellFormed(s.items.value))
            && (s.properties.Absent? ==> KObject in s.kinds ==> s.required == {})
            && (s.properties.Listed? ==>
                  && s.required <= s.properties.schemas.Keys
                  && forall k :: k in s.properties.schemas ==> WellFormed(s.properties.schemas[k])) ==>
              WellFormed(s)
  {
    if s.AnyOf? {
      assert forall i :: 0 <= i < |s.branches| ==> s.branches[i] in s.branches;
    }
  }
}
