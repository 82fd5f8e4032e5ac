/** What each keyword asks of a value (internal/conformance/check.go), on schemas that hold
    little else. */
module Keywords {
  import opened Wrappers
  import opened Schemas
  import opened Conformance

  function Only(key: string, val: Json): Json { Obj([Field(key, val)]) }

  function Both(key: string, val: Json, key': string, val': Json): Json { Obj([Field(key, val), Field(key', val')]) }

  predicate Plain(key: string) { key != "$ref" && key != "allOf" }

  lemma LookupOnly(key: string, val: Json)
    ensures forall k :: Lookup([Field(key, val)], k) == if k == key then val else Null
  {
  }

  lemma LookupBoth(key: string, val: Json, key': string, val': Json)
    ensures forall k :: Lookup([Field(key, val), Field(key', val')], k)
                     == if k == key then val else if k == key' then val' else Null
  {
    var m := [Field(key, val), Field(key', val')];
    assert m[1..] == [Field(key', val')];
    LookupOnly(key', val');
    forall k ensures Lookup(m, k) == if k == key then val else if k == key' then val' else Null {
      assert Lookup(m, k) == if m[0].key == k then m[0].val else Lookup(m[1..], k);
    }
  }

  lemma FlattenPlain(c: Components, m: Schema)
    requires !Lookup(m, "$ref").Str? && !Lookup(m, "allOf").Arr?
    ensures Flatten(c, Obj(m), 0) == m
  {
    hide Lookup, Merged, FlattenAll, Component;
  }

  lemma FlattenOnly(c: Components, key: string, val: Json)
    requires Plain(key)
    ensures Flatten(c, Only(key, val), 0) == [Field(key, val)]
  {
    LookupOnly(key, val);
    hide Lookup;
    FlattenPlain(c, [Field(key, val)]);
  }

  lemma FlattenBoth(c: Components, key: string, val: Json, key': string, val': Json)
    requires Plain(key) && Plain(key')
    ensures Flatten(c, Both(key, val, key', val'), 0) == [Field(key, val), Field(key', val')]
  {
    LookupBoth(key, val, key', val');
    hide Lookup;
    FlattenPlain(c, [Field(key, val), Field(key', val')]);
  }

  // --- type ------------------------------------------------------------------------------

  // No fraction and no exponent: 1.0 and 1e3 are numbers but no integers.
  predicate Whole(text: string) { forall i :: 0 <= i < |text| ==> text[i] != '.' && text[i] != 'e' && text[i] != 'E' }

  predicate IsOf(t: string, v: Json) {
    match v
    case Null => t == "null"
    case Bool(_) => t == "boolean"
    case Number(text) => t == "number" || (t == "integer" && Whole(text))
    case Str(_) => t == "string"
    case Arr(_) => t == "array"
    case Obj(_) => t == "object"
  }

  lemma FitsIsOf(types: set<string>, v: Json)
    requires v != Null
    ensures TypeFits(types, v) <==> types == {} || exists t :: t in types && IsOf(t, v)
  {
    if v.Number? {
      assert Whole(v.text) <==> !('.' in v.text || 'e' in v.text || 'E' in v.text);
    }
    if TypeFits(types, v) && types != {} {
      assert exists t :: t in types && IsOf(t, v) by {
        var t := if Kind(v) in types then Kind(v) else "number";
        assert t in types && IsOf(t, v);
      }
    }
  }

  lemma NothingTakesAll(c: Components, rank: Heights, v: Json)
    requires Ranked(c, rank) && Null in rank
    ensures Conforms(c, rank, Null, v)
  {
    hide Ranked;
  }

  // Where nothing is said of fields or items, any will do.
  lemma PartsAreAny(c: Components, rank: Heights, m: Schema, v: Json)
    requires Ranked(c, rank) && PartsKnown(rank, m)
    requires forall key :: FieldSchema(m, key).None?
    requires forall i: nat :: ItemSchema(m, i) == Some(Null)
    ensures v.Obj? ==> FieldsConform(c, rank, m, v, |v.fields|)
    ensures v.Arr? ==> ItemsConform(c, rank, m, v, |v.items|)
  {
    hide Ranked, Conforms, FieldSchema, ItemSchema;
    if v.Arr? {
      forall i: nat | i < |v.items| ensures ItemConforms(c, rank, m, v, i) {
        assert ItemSchema(m, i).Some?;
        NothingTakesAll(c, rank, v.items[i]);
      }
    }
  }

  lemma LeadsOn(c: Components, rank: Heights, s: Json, m: Schema)
    requires Ranked(c, rank) && s in rank && Flatten(c, s, 0) == m && m != [] && !Deep(m)
    ensures Branches(m) == [] ==> PartsKnown(rank, m)
    ensures Below(rank, Branches(m), rank[s])
  {
    hide Flatten, Deep, Branches, PartsKnown;
    assert Leads(c, rank, s);
  }

  // A schema with nothing but a type.
  lemma OnlyTyped(c: Components, rank: Heights, s: Json, type_: Json, v: Json)
    requires s == Only("type", type_) && Ranked(c, rank) && s in rank
    ensures v != Null ==> (Conforms(c, rank, s, v) <==> TypeFits(Types([Field("type", type_)]), v))
    ensures v == Null ==> (Conforms(c, rank, s, v) <==> "null" in Types([Field("type", type_)]))
  {
    hide Ranked, Flatten, TypeFits, Types, RequiredName;
    FlattenOnly(c, "type", type_);
    var m := [Field("type", type_)];
    NoOther(m, type_);
    LeadsOn(c, rank, s, m);
    if v.Obj? || v.Arr? {
      PartsAreAny(c, rank, m, v);
    }
  }

  lemma NoOther(m: Schema, type_: Json)
    requires m == [Field("type", type_)]
    ensures !Deep(m) && Branches(m) == [] && ItemsOf(Lookup(m, "required")) == [] && !Closed(m)
    ensures forall key :: FieldSchema(m, key).None?
    ensures forall i: nat :: ItemSchema(m, i) == Some(Null)
  {
    LookupOnly("type", type_);
    hide Lookup;
    assert !Has(PropertiesOf(m), "");
  }

  /** type: a value conforms to a schema that only names a type exactly when it is of that type.
      Every number is a "number"; an "integer" is one written without a fraction or exponent. */
  lemma TypeNameMeans(c: Components, rank: Heights, t: string, v: Json)
    requires Ranked(c, rank) && Only("type", Str(t)) in rank
    ensures Conforms(c, rank, Only("type", Str(t)), v) <==> IsOf(t, v)
  {
    OnlyTyped(c, rank, Only("type", Str(t)), Str(t), v);
    LookupOnly("type", Str(t));
    hide Ranked, Conforms, TypeFits, Lookup;
    if v != Null {
      FitsIsOf({t}, v);
    }
  }

  /** A list of types takes what any of its names takes; one without a name takes any value. */
  lemma TypeListMeans(c: Components, rank: Heights, ts: seq<Json>, v: Json)
    requires Ranked(c, rank) && Only("type", Arr(ts)) in rank
    ensures Conforms(c, rank, Only("type", Arr(ts)), v) <==>
              || (exists i :: 0 <= i < |ts| && ts[i].Str? && IsOf(ts[i].s, v))
              || (v != Null && forall i :: 0 <= i < |ts| ==> !ts[i].Str?)
  {
    OnlyTyped(c, rank, Only("type", Arr(ts)), Arr(ts), v);
    LookupOnly("type", Arr(ts));
    hide Ranked, Conforms, TypeFits, Lookup;
    var names := set x | x in ts && x.Str? :: x.s;
    assert forall i :: 0 <= i < |ts| && ts[i].Str? ==> ts[i] in ts && ts[i].s in names;
    if v != Null {
      FitsIsOf(names, v);
    }
  }

  // --- the other keywords ----------------------------------------------------------------

  // What a schema without branches asks of a value that is not null.
  lemma AsksOf(c: Components, rank: Heights, s: Json, m: Schema, v: Json)
    requires Ranked(c, rank) && s in rank && Flatten(c, s, 0) == m && m != [] && !Deep(m)
    requires Branches(m) == [] && v != Null && Lookup(m, "type") == Null
    ensures PartsKnown(rank, m)
    ensures Conforms(c, rank, s, v) <==>
              && (v.Obj? ==> AllSupplied(ItemsOf(Lookup(m, "required")), v.fields) && FieldsConform(c, rank, m, v, |v.fields|))
              && (v.Arr? ==> ItemsConform(c, rank, m, v, |v.items|))
  {
    LeadsOn(c, rank, s, m);
    hide Ranked, Flatten, Deep, Branches, PartsKnown, FieldsConform, ItemsConform, AllSupplied;
    assert TypeFits(Types(m), v);
  }

  lemma OnlyRequired(m: Schema, required: Json)
    requires m == [Field("required", required)]
    ensures !Deep(m) && Branches(m) == [] && Lookup(m, "type") == Null && Lookup(m, "required") == required && !Closed(m)
    ensures forall key :: FieldSchema(m, key).None?
    ensures forall i: nat :: ItemSchema(m, i) == Some(Null)
  {
    LookupOnly("required", required);
    hide Lookup;
    assert !Has(PropertiesOf(m), "");
  }

  /** required: an object has every name listed; other values are not asked. */
  lemma RequiredMeans(c: Components, rank: Heights, required: seq<Json>, v: Json)
    requires Ranked(c, rank) && Only("required", Arr(required)) in rank && v != Null
    ensures Conforms(c, rank, Only("required", Arr(required)), v) <==>
              (v.Obj? ==> forall name :: name != "" && Str(name) in required ==>
                            exists j :: 0 <= j < |v.fields| && v.fields[j].key == name)
  {
    var s, m := Only("required", Arr(required)), [Field("required", Arr(required))];
    FlattenOnly(c, "required", Arr(required));
    OnlyRequired(m, Arr(required));
    AsksOf(c, rank, s, m, v);
    PartsAreAny(c, rank, m, v);
    hide Ranked, Conforms, FieldsConform, ItemsConform, Lookup;
    if v.Obj? {
      if AllSupplied(required, v.fields) {
        forall name | name != "" && Str(name) in required
          ensures exists j :: 0 <= j < |v.fields| && v.fields[j].key == name
        {
          assert Supplied(Str(name), v.fields);
        }
      }
    }
  }

  lemma HasAt(props: seq<Field>, j: nat)
    requires UniqueKeys(props) && j < |props|
    ensures Has(props, props[j].key) && Lookup(props, props[j].key) == props[j].val
    decreases props
  {
    if j > 0 {
      assert props[1..][j - 1] == props[j];
      HasAt(props[1..], j - 1);
    }
  }

  lemma ShapeOf(m: Schema, extra: Json, props: seq<Field>)
    requires m == [Field("additionalProperties", extra), Field("properties", Obj(props))]
    ensures !Deep(m) && Branches(m) == [] && Lookup(m, "type") == Null && ItemsOf(Lookup(m, "required")) == []
    ensures forall key :: FieldSchema(m, key) ==
              if Has(props, key) then Some(Lookup(props, key)) else if extra.Obj? then Some(extra) else None
    ensures forall i: nat :: ItemSchema(m, i) == Some(Null)
    ensures Closed(m) <==> extra == Null
    ensures PropertiesOf(m) == props
  {
    LookupBoth("additionalProperties", extra, "properties", Obj(props));
    hide Lookup, Has, Join;
  }

  // What is asked of one field: by the property of its name, or else by additionalProperties.
  ghost predicate FieldFits(c: Components, rank: Heights, extra: Json, props: seq<Field>, f: Field)
    requires Ranked(c, rank) && (forall p :: p in props ==> p.val in rank) && (extra.Obj? ==> extra in rank)
  {
    && (forall j: nat :: j < |props| && props[j].key == f.key ==> Conforms(c, rank, props[j].val, f.val))
    && (extra.Obj? && (forall j: nat :: j < |props| ==> props[j].key != f.key) ==> Conforms(c, rank, extra, f.val))
  }

  function Shape(extra: Json, props: seq<Field>): Json {
    Both("additionalProperties", extra, "properties", Obj(props))
  }

  lemma OneProperty(c: Components, rank: Heights, extra: Json, props: seq<Field>, f: Field, j: nat)
    requires Ranked(c, rank) && (forall p :: p in props ==> p.val in rank) && (extra.Obj? ==> extra in rank)
    requires UniqueKeys(props) && j < |props| && props[j].key == f.key
    ensures FieldFits(c, rank, extra, props, f) <==> Conforms(c, rank, props[j].val, f.val)
  {
    hide Ranked, Conforms;
    assert props[j] in props;
    assert forall i: nat :: i < |props| && props[i].key == f.key ==> i == j;
  }

  lemma FieldFitsIs(c: Components, rank: Heights, extra: Json, props: seq<Field>, m: Schema, v: Json, i: nat)
    requires Ranked(c, rank) && (forall p :: p in props ==> p.val in rank) && (extra.Obj? ==> extra in rank)
    requires m == [Field("additionalProperties", extra), Field("properties", Obj(props))] && UniqueKeys(props)
    requires PartsKnown(rank, m) && v.Obj? && i < |v.fields|
    ensures FieldConforms(c, rank, m, v, i) <==> FieldFits(c, rank, extra, props, v.fields[i])
  {
    ShapeOf(m, extra, props);
    var f := v.fields[i];
    assert FieldSchema(m, f.key) == if Has(props, f.key) then Some(Lookup(props, f.key)) else if extra.Obj? then Some(extra) else None;
    hide Ranked, Conforms, Lookup, FieldSchema, ItemSchema, PartsKnown, Branches, Deep;
    if Has(props, f.key) {
      var j: nat :| j < |props| && props[j].key == f.key;
      HasAt(props, j);
      OneProperty(c, rank, extra, props, f, j);
      hide FieldFits, UniqueKeys;
    } else {
      assert forall j: nat :: j < |props| ==> props[j].key != f.key;
    }
  }

  /** properties and additionalProperties: a field is asked what the property of its name says;
      a field with no property of its name is asked what additionalProperties says, if that is
      a schema, and else nothing. */
  lemma PropertiesMean(c: Components, rank: Heights, extra: Json, props: seq<Field>, v: Json)
    requires Ranked(c, rank) && Shape(extra, props) in rank && v != Null && UniqueKeys(props)
    requires (forall p :: p in props ==> p.val in rank) && (extra.Obj? ==> extra in rank)
    ensures Conforms(c, rank, Shape(extra, props), v) <==>
              (v.Obj? ==> forall f :: f in v.fields ==> FieldFits(c, rank, extra, props, f))
  {
    var m := [Field("additionalProperties", extra), Field("properties", Obj(props))];
    FlattenBoth(c, "additionalProperties", extra, "properties", Obj(props));
    ShapeOf(m, extra, props);
    AsksOf(c, rank, Shape(extra, props), m, v);
    hide Ranked, Conforms, Lookup, FieldFits, FieldConforms, ItemConforms, FieldSchema, ItemSchema;
    if v.Obj? {
      forall i: nat | i < |v.fields|
        ensures FieldConforms(c, rank, m, v, i) <==> FieldFits(c, rank, extra, props, v.fields[i])
      {
        FieldFitsIs(c, rank, extra, props, m, v, i);
      }
      if FieldsConform(c, rank, m, v, |v.fields|) {
        forall f | f in v.fields ensures FieldFits(c, rank, extra, props, f) {
          var i: nat :| i < |v.fields| && v.fields[i] == f;
          assert FieldConforms(c, rank, m, v, i);
        }
      }
    } else if v.Arr? {
      EveryItemAny(c, rank, m, v);
    }
  }

  lemma EveryItemAny(c: Components, rank: Heights, m: Schema, v: Json)
    requires Ranked(c, rank) && PartsKnown(rank, m) && v.Arr?
    requires forall i: nat :: ItemSchema(m, i) == Some(Null)
    ensures ItemsConform(c, rank, m, v, |v.items|)
  {
    hide Ranked, Conforms, FieldSchema, ItemSchema;
    forall i: nat | i < |v.items| ensures ItemConforms(c, rank, m, v, i) {
      assert ItemSchema(m, i).Some?;
      NothingTakesAll(c, rank, v.items[i]);
    }
  }

  lemma RowOf(m: Schema, each: Json, prefix: Json)
    requires m == [Field("items", each), Field("prefixItems", prefix)]
    ensures !Deep(m) && Branches(m) == [] && Lookup(m, "type") == Null && ItemsOf(Lookup(m, "required")) == []
    ensures forall key :: FieldSchema(m, key).None?
    ensures forall i: nat :: ItemSchema(m, i) ==
              if !prefix.Arr? then Some(each) else if i < |prefix.items| then Some(prefix.items[i]) else None
    ensures Lookup(m, "prefixItems") == prefix
  {
    LookupBoth("items", each, "prefixItems", prefix);
    hide Lookup;
    assert !Has(PropertiesOf(m), "");
  }

  function Row(each: Json, prefix: Json): Json { Both("items", each, "prefixItems", prefix) }

  // What is asked of one element: by its place in prefixItems if there is a list of them,
  // which asks nothing of what comes after it, and else by items.
  ghost predicate ItemFits(c: Components, rank: Heights, each: Json, prefix: Json, v: Json, i: nat)
    requires Ranked(c, rank) && each in rank && (prefix.Arr? ==> forall p :: p in prefix.items ==> p in rank)
    requires v.Arr? && i < |v.items|
  {
    if prefix.Arr? then i < |prefix.items| ==> Conforms(c, rank, prefix.items[i], v.items[i])
    else Conforms(c, rank, each, v.items[i])
  }

  /** items and prefixItems. */
  lemma ItemsMean(c: Components, rank: Heights, each: Json, prefix: Json, v: Json)
    requires Ranked(c, rank) && Row(each, prefix) in rank && v != Null
    requires each in rank && (prefix.Arr? ==> forall p :: p in prefix.items ==> p in rank)
    ensures Conforms(c, rank, Row(each, prefix), v) <==>
              (v.Arr? ==> forall i: nat :: i < |v.items| ==> ItemFits(c, rank, each, prefix, v, i))
  {
    var m := [Field("items", each), Field("prefixItems", prefix)];
    FlattenBoth(c, "items", each, "prefixItems", prefix);
    RowOf(m, each, prefix);
    AsksOf(c, rank, Row(each, prefix), m, v);
    hide Ranked, Conforms, Lookup, FieldSchema, ItemSchema, PartsKnown, Branches, Deep;
    if v.Arr? {
      forall i: nat | i < |v.items|
        ensures ItemConforms(c, rank, m, v, i) <==> ItemFits(c, rank, each, prefix, v, i)
      {
      }
      hide ItemConforms, ItemFits;
    }
  }

  // --- oneOf and anyOf -------------------------------------------------------------------

  function Choice(one: Json, other: Json): Json { Both("anyOf", other, "oneOf", one) }

  // The branches: those of oneOf if it is a list, else those of anyOf.
  function Listed(one: Json, other: Json): seq<Json> {
    if one.Arr? then one.items else if other.Arr? then other.items else []
  }

  lemma ChoiceOf(m: Schema, one: Json, other: Json)
    requires m == [Field("anyOf", other), Field("oneOf", one)]
    ensures !Deep(m) && Branches(m) == Listed(one, other) && Lookup(m, "type") == Null
  {
    LookupBoth("anyOf", other, "oneOf", one);
    hide Lookup;
  }

  // Untyped, or of one type other than null.
  predicate NotForNull(c: Components, b: Json) {
    var t := Lookup(Flatten(c, b, 0), "type");
    t == Null || (t.Str? && t.s != "null")
  }

  lemma NotForNullIs(c: Components, b: Json)
    requires NotForNull(c, b)
    ensures !NullOnly(Flatten(c, b, 0))
  {
    hide Flatten, Lookup;
  }

  // A schema with branches takes what one of them takes, those for null alone left out.
  lemma TakesBranch(c: Components, rank: Heights, s: Json, m: Schema, v: Json)
    requires Ranked(c, rank) && s in rank && Flatten(c, s, 0) == m && m != [] && !Deep(m)
    requires Branches(m) != [] && v != Null
    ensures Known(rank, Branches(m))
    ensures Conforms(c, rank, s, v) <==> SomeConforms(c, rank, Branches(m), v)
  {
    LeadsOn(c, rank, s, m);
    hide Ranked, Flatten, Lookup, Types, TypeFits, NullOnly, Deep, Branches, Nullable, FieldsConform, ItemsConform, AllSupplied;
    var bs := Branches(m);
    forall i: nat | i < |bs|
      ensures BranchConforms(c, rank, bs[i], v) <==> !NullOnly(Flatten(c, bs[i], 0)) && Conforms(c, rank, bs[i], v)
    {
    }
    hide BranchConforms;
  }

  ghost predicate Takes(c: Components, rank: Heights, b: Json, v: Json)
    requires Ranked(c, rank) && b in rank
  {
    Conforms(c, rank, b, v)
  }

  /** oneOf and anyOf mean the same: some branch takes the value. Where there is a oneOf, anyOf
      is not looked at. */
  lemma BranchesMean(c: Components, rank: Heights, one: Json, other: Json, v: Json)
    requires Ranked(c, rank) && Choice(one, other) in rank && v != Null
    requires Listed(one, other) != [] && forall b :: b in Listed(one, other) ==> b in rank && NotForNull(c, b)
    ensures Conforms(c, rank, Choice(one, other), v) <==>
              exists b :: b in Listed(one, other) && Takes(c, rank, b, v)
  {
    var m, bs := [Field("anyOf", other), Field("oneOf", one)], Listed(one, other);
    FlattenBoth(c, "anyOf", other, "oneOf", one);
    ChoiceOf(m, one, other);
    TakesBranch(c, rank, Choice(one, other), m, v);
    hide *;
    SomeTakes(c, rank, bs, v);
  }

  lemma SomeTakes(c: Components, rank: Heights, bs: seq<Json>, v: Json)
    requires Ranked(c, rank) && Known(rank, bs) && forall b :: b in bs ==> NotForNull(c, b)
    ensures SomeConforms(c, rank, bs, v) <==> exists b :: b in bs && Takes(c, rank, b, v)
  {
    hide Ranked, Flatten, NullOnly, NotForNull, Conforms;
    forall b | b in bs ensures BranchConforms(c, rank, b, v) <==> Takes(c, rank, b, v) { NotForNullIs(c, b); }
    hide BranchConforms, Takes;
    if b :| b in bs && Takes(c, rank, b, v) {
      var i: nat :| i < |bs| && bs[i] == b;
      assert BranchConforms(c, rank, bs[i], v);
    }
  }

  function OrNull(t: string): Json { Only("oneOf", Arr([Only("type", Str(t)), Only("type", Str("null"))])) }

  lemma OnlyOneOf(m: Schema, bs: seq<Json>)
    requires m == [Field("oneOf", Arr(bs))]
    ensures !Deep(m) && Branches(m) == bs && Types(m) == {}
  {
    LookupOnly("oneOf", Arr(bs));
    hide Lookup;
  }

  lemma TypedOnly(c: Components, t: string)
    ensures Types(Flatten(c, Only("type", Str(t)), 0)) == {t} && !Deep(Flatten(c, Only("type", Str(t)), 0))
    ensures Branches(Flatten(c, Only("type", Str(t)), 0)) == [] && Flatten(c, Only("type", Str(t)), 0) != []
    ensures NullOnly(Flatten(c, Only("type", Str(t)), 0)) <==> t == "null"
  {
    FlattenOnly(c, "type", Str(t));
    LookupOnly("type", Str(t));
    hide Lookup, Flatten;
    assert t in {t};
  }

  lemma TypedNull(c: Components, rank: Heights, t: string)
    requires Ranked(c, rank) && Only("type", Str(t)) in rank
    ensures Nullable(c, rank, Only("type", Str(t))) <==> t == "null"
  {
    TypedOnly(c, t);
    hide Ranked, Flatten, Types, Branches, Deep, NullOnly;
  }

  /** The usual way to permit null: a oneOf of a type and of null takes null and that type. */
  lemma OrNullMeans(c: Components, rank: Heights, t: string, v: Json)
    requires Ranked(c, rank) && OrNull(t) in rank
    requires Only("type", Str(t)) in rank && Only("type", Str("null")) in rank
    ensures Conforms(c, rank, OrNull(t), v) <==> v == Null || IsOf(t, v)
  {
    var bs := [Only("type", Str(t)), Only("type", Str("null"))];
    var m := [Field("oneOf", Arr(bs))];
    FlattenOnly(c, "oneOf", Arr(bs));
    OnlyOneOf(m, bs);
    hide *;
    if v == Null {
      NullChoice(c, rank, OrNull(t), m, bs, 1);
    } else {
      TakesBranch(c, rank, OrNull(t), m, v);
      OfTwo(c, rank, bs[0], bs[1], v);
      TypedBranch(c, rank, t, v);
      TypedBranch(c, rank, "null", v);
      NoNullIsNull(v);
    }
  }

  lemma OfTwo(c: Components, rank: Heights, a: Json, b: Json, v: Json)
    requires Ranked(c, rank) && a in rank && b in rank
    ensures Known(rank, [a, b])
    ensures SomeConforms(c, rank, [a, b], v) <==> BranchConforms(c, rank, a, v) || BranchConforms(c, rank, b, v)
  {
    hide Ranked, BranchConforms;
    assert [a, b][0] == a && [a, b][1] == b;
  }

  lemma TypedBranch(c: Components, rank: Heights, t: string, v: Json)
    requires Ranked(c, rank) && Only("type", Str(t)) in rank && v != Null
    ensures BranchConforms(c, rank, Only("type", Str(t)), v) <==> IsOf(t, v)
  {
    TypedOnly(c, t);
    TypeNameMeans(c, rank, t, v);
    NoNullIsNull(v);
    hide Ranked, Flatten, NullOnly, Conforms, IsOf, Types, Branches, Deep;
  }

  lemma NullChoice(c: Components, rank: Heights, s: Json, m: Schema, bs: seq<Json>, i: nat)
    requires Ranked(c, rank) && s in rank && Flatten(c, s, 0) == m && m != [] && !Deep(m) && Branches(m) == bs
    requires i < |bs| && bs[i] == Only("type", Str("null"))
    ensures Conforms(c, rank, s, Null)
  {
    LeadsOn(c, rank, s, m);
    TypedNull(c, rank, "null");
    hide Ranked, Flatten, Types, Branches, Deep;
    assert Nullable(c, rank, bs[i]);
    assert Nullable(c, rank, s);
  }

  lemma NoNullIsNull(v: Json)
    requires v != Null
    ensures !IsOf("null", v)
  {
  }

  // --- $ref ------------------------------------------------------------------------------

  // A schema k references away from its target.
  predicate RefChain(c: Components, s: Json, k: nat, target: Json)
    decreases k
  {
    if k == 0 then s == target
    else
      exists name :: name in c && s == Only("$ref", Str("#/components/schemas/" + name)) && RefChain(c, c[name], k - 1, target)
  }

  lemma {:induction false} ChainFlattens(c: Components, s: Json, k: nat, target: Json, depth: nat)
    requires RefChain(c, s, k, target) && target.Obj?
    ensures depth + k <= 16 ==> Flatten(c, s, depth) == Flatten(c, target, depth + k)
    ensures depth + k > 16 && depth <= 17 ==> Flatten(c, s, depth) == TOO_DEEP
    decreases k
  {
    hide Merged, FlattenAll;
    if k > 0 {
      var name :| name in c && s == Only("$ref", Str("#/components/schemas/" + name)) && RefChain(c, c[name], k - 1, target);
      ChainFlattens(c, c[name], k - 1, target, depth + 1);
      LookupOnly("$ref", Str("#/components/schemas/" + name));
      assert ("#/components/schemas/" + name)[|"#/components/schemas/"|..] == name;
      hide Lookup;
    }
  }

  /** $ref: up to sixteen references lead to the object they name; what lies behind more of them
      is not looked at. */
  lemma RefsMean(c: Components, s: Json, k: nat, target: Json)
    requires RefChain(c, s, k, target) && target.Obj?
    requires !Lookup(target.fields, "$ref").Str? && !Lookup(target.fields, "allOf").Arr?
    ensures Flatten(c, s, 0) == if k <= 16 then target.fields else TOO_DEEP
  {
    ChainFlattens(c, s, k, target, 0);
    hide Lookup, RefChain;
  }

  // --- allOf -----------------------------------------------------------------------------

  // Neither refers elsewhere nor merges anything.
  predicate Simple(m: Schema) { !Lookup(m, "$ref").Str? && !Lookup(m, "allOf").Arr? }

  function Objects(ms: seq<Schema>): seq<Json> { seq(|ms|, i requires 0 <= i < |ms| => Obj(ms[i])) }

  predicate AllSimple(ms: seq<Schema>) { forall j :: 0 <= j < |ms| ==> Simple(ms[j]) }

  lemma {:induction false} FlattenSimple(c: Components, ms: seq<Schema>)
    requires AllSimple(ms)
    ensures FlattenAll(c, Objects(ms), 1) == ms
  {
    hide Lookup, Merged;
    if ms != [] {
      var n := |ms| - 1;
      FlattenSimple(c, ms[..n]);
      assert Objects(ms)[..n] == Objects(ms[..n]);
      assert Simple(ms[n]) && Flatten(c, Obj(ms[n]), 1) == ms[n];
    }
  }

  lemma FlattenMerges(c: Components, own: Schema, all: seq<Json>)
    requires Lookup(own, "allOf") == Arr(all) && !Lookup(own, "$ref").Str?
    ensures Flatten(c, Obj(own), 0) == Merged([own] + FlattenAll(c, all, 1))
  {
    hide Lookup, Merged, FlattenAll, Component;
  }

  /** allOf: a keyword is read from the schema itself if it is there, and else from the first of
      the merged schemas that has it. */
  lemma AllOfMeans(c: Components, own: Schema, ms: seq<Schema>, key: string, i: nat)
    requires Lookup(own, "allOf") == Arr(Objects(ms)) && !Lookup(own, "$ref").Str? && AllSimple(ms)
    requires key !in {"allOf", "properties", "required"}
    ensures Has(own, key) ==> Lookup(Flatten(c, Obj(own), 0), key) == Lookup(own, key)
    ensures !Has(own, key) && i < |ms| && Has(ms[i], key) && (forall j :: 0 <= j < i ==> !Has(ms[j], key)) ==>
              Lookup(Flatten(c, Obj(own), 0), key) == Lookup(ms[i], key)
  {
    hide *;
    FlattenMerges(c, own, Objects(ms));
    FlattenSimple(c, ms);
    var parts := [own] + ms;
    MergedMeaning(parts, key);
    if Has(own, key) {
      MergedKeyIsFirst(parts, key, 0);
    } else if i < |ms| && Has(ms[i], key) && forall j :: 0 <= j < i ==> !Has(ms[j], key) {
      forall j | 0 <= j < i + 1 ensures !Has(parts[j], key) {
        assert j > 0 ==> parts[j] == ms[j - 1];
      }
      MergedKeyIsFirst(parts, key, i + 1);
    }
  }
}
