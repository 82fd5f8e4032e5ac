/** What is reported, and under which path (internal/conformance/check.go), keyword by keyword. */
module Places {
  import opened Wrappers
  import opened Schemas
  import opened Conformance
  import opened Keywords
  import Decimals

  // The path of a part: its name after a dot, or just its name at the top, where the path is empty.
  function Under(path: string, name: string): string
    requires name != "[]"
  {
    if path == "" then name else path + "." + name
  }

  lemma JoinIsUnder(path: string, name: string)
    requires name != "[]"
    ensures Join(path, name) == Under(path, name)
  {
    assert "" + name == name;
  }

  lemma ExtraIsUnder(path: string)
    ensures "{}" != "[]" && Join(path, "{}") == Under(path, "{}")
  {
    assert "{}"[0] != "[]"[0];
    JoinIsUnder(path, "{}");
  }

  lemma TypeReport(c: Components, rank: Heights, path: string, t: string, v: Json)
    requires Ranked(c, rank) && Only("type", Str(t)) in rank
    ensures var report := Report(c, rank, path, Only("type", Str(t)), v);
            if v == Null then report == [if t == "null" then Note(Info, path, NullPermitted) else Note(Error, path, NullForbidden)]
            else if IsOf(t, v) then forall n :: n in report ==> n == Note(Info, path, EmptyArray)
            else
              exists kind :: report == [Note(Error, path, WrongType(kind, {t} - {"null"}))]
                             && IsOf(kind, v) && (kind == "number" ==> !IsOf("integer", v))
  {
    var s, m := Only("type", Str(t)), [Field("type", Str(t))];
    FlattenOnly(c, "type", Str(t));
    TypedOnly(c, t);
    TypedNull(c, rank, t);
    NoOther(m, Str(t));
    LeadsOn(c, rank, s, m);
    hide Ranked, Flatten, Types, Branches, Deep, NullOnly, Lookup, Nullable, IsOf, FieldNotes, ItemNotes, MissingNotes;
    if v != Null {
      FitsIsOf({t}, v);
      KindIsOf(v);
      hide TypeFits, Kind;
      if IsOf(t, v) {
        NothingAsked(c, rank, path, m, v);
      }
    }
  }

  lemma KindIsOf(v: Json)
    ensures IsOf(Kind(v), v) && (Kind(v) == "number" ==> !IsOf("integer", v))
  {
  }

  lemma NothingAsked(c: Components, rank: Heights, path: string, m: Schema, v: Json)
    requires Ranked(c, rank) && PartsKnown(rank, m)
    requires ItemsOf(Lookup(m, "required")) == [] && !Closed(m)
    requires forall key :: FieldSchema(m, key).None?
    requires forall i: nat :: ItemSchema(m, i) == Some(Null)
    ensures v.Obj? ==> MissingNotes(path, ItemsOf(Lookup(m, "required")), v.fields) == FieldNotes(c, rank, path, m, v, |v.fields|) == []
    ensures v.Arr? ==> ItemNotes(c, rank, path, m, v, |v.items|) == []
  {
    hide Ranked, Lookup;
    if v.Obj? {
      NoFieldNotes(c, rank, path, m, v, |v.fields|);
    } else if v.Arr? {
      NoItemNotes(c, rank, path, m, v, |v.items|);
    }
  }

  lemma {:induction false} NoFieldNotes(c: Components, rank: Heights, path: string, m: Schema, v: Json, n: nat)
    requires Ranked(c, rank) && PartsKnown(rank, m) && !Closed(m) && v.Obj? && n <= |v.fields|
    requires forall key :: FieldSchema(m, key).None?
    ensures FieldNotes(c, rank, path, m, v, n) == []
  {
    hide Ranked, Closed, Report;
    if n > 0 {
      NoFieldNotes(c, rank, path, m, v, n - 1);
    }
  }

  lemma {:induction false} NoItemNotes(c: Components, rank: Heights, path: string, m: Schema, v: Json, n: nat)
    requires Ranked(c, rank) && PartsKnown(rank, m) && v.Arr? && n <= |v.items|
    requires forall i: nat :: ItemSchema(m, i) == Some(Null)
    ensures ItemNotes(c, rank, path, m, v, n) == []
  {
    hide Ranked, ItemSchema, ItemPath, FieldSchema;
    if n > 0 {
      NoItemNotes(c, rank, path, m, v, n - 1);
      assert ItemSchema(m, n - 1).Some?;
      assert Report(c, rank, ItemPath(m, path, n - 1), Null, v.items[n - 1]) == [];
    }
  }

  lemma {:induction false} FieldNotesOf(c: Components, rank: Heights, path: string, m: Schema, fs: seq<Field>, f: Field, n: nat)
    requires Ranked(c, rank) && PartsKnown(rank, m) && n <= |fs|
    ensures FieldNotes(c, rank, path, m, Obj(fs + [f]), n) == FieldNotes(c, rank, path, m, Obj(fs), n)
  {
    hide Ranked, Report, FieldSchema, ItemSchema, Closed, Join, FieldPath;
    if n > 0 {
      FieldNotesOf(c, rank, path, m, fs, f, n - 1);
      assert (fs + [f])[n - 1] == fs[n - 1];
    }
  }

  lemma {:induction false} ItemNotesOf(c: Components, rank: Heights, path: string, m: Schema, vs: seq<Json>, v: Json, n: nat)
    requires Ranked(c, rank) && PartsKnown(rank, m) && n <= |vs|
    ensures ItemNotes(c, rank, path, m, Arr(vs + [v]), n) == ItemNotes(c, rank, path, m, Arr(vs), n)
  {
    hide Ranked, Report, FieldSchema, ItemSchema, ItemPath;
    if n > 0 {
      ItemNotesOf(c, rank, path, m, vs, v, n - 1);
      assert (vs + [v])[n - 1] == vs[n - 1];
    }
  }

  // The report of a schema without a type and without branches.
  lemma ReportOf(c: Components, rank: Heights, path: string, s: Json, m: Schema, v: Json)
    requires Ranked(c, rank) && s in rank && Flatten(c, s, 0) == m && m != [] && !Deep(m)
    requires Branches(m) == [] && Lookup(m, "type") == Null
    ensures PartsKnown(rank, m)
    ensures var report := Report(c, rank, path, s, v);
            && (v.Obj? ==>
                  report == MissingNotes(path, RequiredOf(m), v.fields) + FieldNotes(c, rank, path, m, v, |v.fields|))
            && (v.Arr? ==> report == EmptyNote(path, v.items) + ItemNotes(c, rank, path, m, v, |v.items|))
  {
    LeadsOn(c, rank, s, m);
    hide Ranked, Flatten, Deep, Branches, PartsKnown, FieldNotes, ItemNotes, MissingNotes, EmptyNote;
    assert TypeFits(Types(m), v);
  }

  lemma MissingNotesLast(path: string, required: seq<Json>, r: string, fields: seq<Field>)
    requires r != "" && r != "[]"
    ensures MissingNotes(path, required + [Str(r)], fields)
         == MissingNotes(path, required, fields) + if Has(fields, r) then [] else [Note(Error, Under(path, r), Absent)]
  {
    JoinIsUnder(path, r);
    hide Has, Join, Under;
    var all := required + [Str(r)];
    assert all[..|all| - 1] == required && all[|all| - 1] == Str(r);
    assert MissingNotes(path, all, fields)
        == MissingNotes(path, required, fields) + if Supplied(Str(r), fields) then [] else [Note(Error, Join(path, r), Absent)];
  }

  /** Every required name that is missing is an error at its own path. */
  lemma RequiredReport(c: Components, rank: Heights, path: string, required: seq<Json>, r: string, fields: seq<Field>)
    requires Ranked(c, rank) && r != "" && r != "[]"
    requires Only("required", Arr(required)) in rank && Only("required", Arr(required + [Str(r)])) in rank
    ensures Report(c, rank, path, Only("required", Arr(required + [Str(r)])), Obj(fields))
         == Report(c, rank, path, Only("required", Arr(required)), Obj(fields))
            + if exists j :: 0 <= j < |fields| && fields[j].key == r then [] else [Note(Error, Under(path, r), Absent)]
  {
    RequiredOnlyReport(c, rank, path, required, fields);
    RequiredOnlyReport(c, rank, path, required + [Str(r)], fields);
    MissingNotesLast(path, required, r, fields);
    hide Report, MissingNotes, Ranked;
  }

  lemma RequiredOnlyReport(c: Components, rank: Heights, path: string, required: seq<Json>, fields: seq<Field>)
    requires Ranked(c, rank) && Only("required", Arr(required)) in rank
    ensures Report(c, rank, path, Only("required", Arr(required)), Obj(fields)) == MissingNotes(path, required, fields)
  {
    var m := [Field("required", Arr(required))];
    FlattenOnly(c, "required", Arr(required));
    OnlyRequired(m, Arr(required));
    hide Lookup, FieldSchema, ItemSchema, Deep, Branches, Closed;
    assert ItemsOf(Lookup(m, "required")) == required;
    hide *;
    ReportOf(c, rank, path, Only("required", Arr(required)), m, Obj(fields));
    NoFieldNotes(c, rank, path, m, Obj(fields), |fields|);
    assert MissingNotes(path, required, fields) + [] == MissingNotes(path, required, fields);
  }

  // What one field adds to the report of its object.
  ghost predicate FieldAdds(c: Components, rank: Heights, path: string, extra: Json, props: seq<Field>, f: Field, notes: seq<Note>)
    requires Ranked(c, rank) && (forall p :: p in props ==> p.val in rank) && (extra.Obj? ==> extra in rank) && f.key != "[]"
  {
    && (forall j: nat :: j < |props| && props[j].key == f.key ==>
          notes == Report(c, rank, Under(path, f.key), props[j].val, f.val))
    && ((forall j: nat :: j < |props| ==> props[j].key != f.key) ==>
          notes == if extra.Obj? then Report(c, rank, Under(path, "{}"), extra, f.val)
                   else if extra == Null then [Note(Warn, Under(path, f.key), Undeclared)] else [])
  }

  /** The findings on an object are those on its fields, one after the other, each under the name
      of its field; a field covered by additionalProperties is reported under {}, and one that
      is not declared is a warning. */
  lemma FieldReport(c: Components, rank: Heights, path: string, extra: Json, props: seq<Field>, fs: seq<Field>, f: Field)
    returns (notes: seq<Note>)
    requires Ranked(c, rank) && Shape(extra, props) in rank && UniqueKeys(props) && f.key != "[]"
    requires (forall p :: p in props ==> p.val in rank) && (extra.Obj? ==> extra in rank)
    ensures Report(c, rank, path, Shape(extra, props), Obj([])) == []
    ensures Report(c, rank, path, Shape(extra, props), Obj(fs + [f])) == Report(c, rank, path, Shape(extra, props), Obj(fs)) + notes
    ensures FieldAdds(c, rank, path, extra, props, f, notes)
  {
    var m, v := [Field("additionalProperties", extra), Field("properties", Obj(props))], Obj(fs + [f]);
    ShapeReport(c, rank, path, extra, props, []);
    ShapeReport(c, rank, path, extra, props, fs);
    ShapeReport(c, rank, path, extra, props, fs + [f]);
    notes := FieldNotesAt(c, rank, path, m, v, |fs|);
    FieldNotesOf(c, rank, path, m, fs, f, |fs|);
    hide Ranked, Report, Lookup, FieldNotesAt, PartsKnown;
    assert FieldNotes(c, rank, path, m, v, |fs| + 1) == FieldNotes(c, rank, path, m, v, |fs|) + notes;
    hide FieldNotes;
    OneFieldAdds(c, rank, path, extra, props, m, v, |fs|);
  }

  lemma ShapeReport(c: Components, rank: Heights, path: string, extra: Json, props: seq<Field>, fs: seq<Field>)
    requires Ranked(c, rank) && Shape(extra, props) in rank
    ensures var m := [Field("additionalProperties", extra), Field("properties", Obj(props))];
            && PartsKnown(rank, m)
            && Report(c, rank, path, Shape(extra, props), Obj(fs)) == FieldNotes(c, rank, path, m, Obj(fs), |fs|)
    ensures fs == [] ==> Report(c, rank, path, Shape(extra, props), Obj(fs)) == []
  {
    var m := [Field("additionalProperties", extra), Field("properties", Obj(props))];
    FlattenBoth(c, "additionalProperties", extra, "properties", Obj(props));
    ShapeOf(m, extra, props);
    ReportOf(c, rank, path, Shape(extra, props), m, Obj(fs));
    hide Ranked, Report, Lookup, FieldSchema, ItemSchema, Deep, Branches, PartsKnown, FieldNotesAt;
  }

  lemma OneFieldAdds(c: Components, rank: Heights, path: string, extra: Json, props: seq<Field>, m: Schema, v: Json, i: nat)
    requires Ranked(c, rank) && (forall p :: p in props ==> p.val in rank) && (extra.Obj? ==> extra in rank)
    requires m == [Field("additionalProperties", extra), Field("properties", Obj(props))] && UniqueKeys(props)
    requires PartsKnown(rank, m) && v.Obj? && i < |v.fields| && v.fields[i].key != "[]"
    ensures FieldAdds(c, rank, path, extra, props, v.fields[i], FieldNotesAt(c, rank, path, m, v, i))
  {
    ShapeOf(m, extra, props);
    FieldAt(c, rank, path, m, v, i);
    var f := v.fields[i];
    JoinIsUnder(path, f.key);
    ExtraIsUnder(path);
    assert FieldSchema(m, f.key) == if Has(props, f.key) then Some(Lookup(props, f.key)) else if extra.Obj? then Some(extra) else None;
    hide Ranked, Report, Lookup, FieldSchema, ItemSchema, PartsKnown, Branches, Deep, Closed, FieldNotesAt, PropertiesOf, Join, Under;
    if Has(props, f.key) {
      var j: nat :| j < |props| && props[j].key == f.key;
      HasAt(props, j);
      assert props[j] in props;
      DeclaredAdds(c, rank, path, extra, props, f, j);
    } else {
      assert forall j: nat :: j < |props| ==> props[j].key != f.key;
      hide UniqueKeys;
    }
  }

  lemma DeclaredAdds(c: Components, rank: Heights, path: string, extra: Json, props: seq<Field>, f: Field, j: nat)
    requires Ranked(c, rank) && (forall p :: p in props ==> p.val in rank) && (extra.Obj? ==> extra in rank)
    requires UniqueKeys(props) && j < |props| && props[j].key == f.key && props[j].val in rank && f.key != "[]"
    ensures FieldAdds(c, rank, path, extra, props, f, Report(c, rank, Join(path, f.key), props[j].val, f.val))
  {
    JoinIsUnder(path, f.key);
    hide Ranked, Report, Join, Under;
    assert forall k: nat :: k < |props| && props[k].key == f.key ==> k == j;
  }

  lemma FieldAt(c: Components, rank: Heights, path: string, m: Schema, v: Json, i: nat)
    requires Ranked(c, rank) && PartsKnown(rank, m) && v.Obj? && i < |v.fields|
    ensures var f := v.fields[i]; var at := FieldSchema(m, f.key);
            FieldNotesAt(c, rank, path, m, v, i)
            == if at.Some? then Report(c, rank, Join(path, if Has(PropertiesOf(m), f.key) then f.key else "{}"), at.value, f.val)
               else if Closed(m) then [Note(Warn, Join(path, f.key), Undeclared)] else []
  {
    hide Ranked, Report, FieldSchema, ItemSchema, Closed, Join, PropertiesOf, Has;
  }

  // What one element adds to the report of its array.
  ghost function ItemAdds(c: Components, rank: Heights, path: string, each: Json, prefix: Json, i: nat, v: Json): seq<Note>
    requires Ranked(c, rank) && each in rank && (prefix.Arr? ==> forall p :: p in prefix.items ==> p in rank)
  {
    if !prefix.Arr? then Report(c, rank, path + "[]", each, v)
    else if i < |prefix.items| then Report(c, rank, path + "[" + Decimals.NatText(i) + "]", prefix.items[i], v)
    else []
  }

  /** The findings on an array are those on its elements, one after the other: all under [], or,
      if the schema goes by place, each under its index. An empty one is noted below the top. */
  lemma ItemReport(c: Components, rank: Heights, path: string, each: Json, prefix: Json, vs: seq<Json>, v: Json)
    requires Ranked(c, rank) && Row(each, prefix) in rank
    requires each in rank && (prefix.Arr? ==> forall p :: p in prefix.items ==> p in rank)
    ensures Report(c, rank, path, Row(each, prefix), Arr([])) == if path == "" then [] else [Note(Info, path, EmptyArray)]
    ensures Report(c, rank, path, Row(each, prefix), Arr(vs + [v]))
         == (if vs == [] then [] else Report(c, rank, path, Row(each, prefix), Arr(vs)))
            + ItemAdds(c, rank, path, each, prefix, |vs|, v)
  {
    var m, all := [Field("items", each), Field("prefixItems", prefix)], Arr(vs + [v]);
    assert all.items[|vs|] == v;
    hide *;
    RowReport(c, rank, path, each, prefix, []);
    EmptyIs(path);
    RowSplits(c, rank, path, each, prefix, m, vs, v);
    OneItemAdds(c, rank, path, each, prefix, m, all, |vs|);
  }

  lemma RowSplits(c: Components, rank: Heights, path: string, each: Json, prefix: Json, m: Schema, vs: seq<Json>, v: Json)
    requires Ranked(c, rank) && Row(each, prefix) in rank && m == [Field("items", each), Field("prefixItems", prefix)]
    ensures PartsKnown(rank, m)
    ensures Report(c, rank, path, Row(each, prefix), Arr(vs + [v]))
         == (if vs == [] then [] else Report(c, rank, path, Row(each, prefix), Arr(vs)))
            + ItemNotesAt(c, rank, path, m, Arr(vs + [v]), |vs|)
  {
    hide *;
    RowReport(c, rank, path, each, prefix, vs);
    RowReport(c, rank, path, each, prefix, vs + [v]);
    ItemNotesOf(c, rank, path, m, vs, v, |vs|);
    ItemNotesLast(c, rank, path, m, Arr(vs + [v]), |vs|);
    assert |vs + [v]| == |vs| + 1;
  }

  lemma OneItemAdds(c: Components, rank: Heights, path: string, each: Json, prefix: Json, m: Schema, v: Json, i: nat)
    requires m == [Field("items", each), Field("prefixItems", prefix)]
    requires Ranked(c, rank) && PartsKnown(rank, m) && v.Arr? && i < |v.items|
    requires each in rank && (prefix.Arr? ==> forall p :: p in prefix.items ==> p in rank)
    ensures ItemNotesAt(c, rank, path, m, v, i) == ItemAdds(c, rank, path, each, prefix, i, v.items[i])
  {
    RowOf(m, each, prefix);
    ItemAt(c, rank, path, m, v, i);
    PlaceOf(path, i);
    hide Ranked, Report, Lookup, ItemNotesAt, PartsKnown, FieldSchema, ItemSchema, Deep, Branches, Indexed, Join;
  }

  lemma EmptyIs(path: string)
    ensures EmptyNote(path, []) == if path == "" then [] else [Note(Info, path, EmptyArray)]
  {
  }

  lemma PlaceOf(path: string, i: nat)
    ensures Indexed(path, i) == path + "[" + Decimals.NatText(i) + "]"
    ensures Join(path, "[]") == path + "[]"
  {
  }

  lemma ItemNotesLast(c: Components, rank: Heights, path: string, m: Schema, v: Json, n: nat)
    requires Ranked(c, rank) && PartsKnown(rank, m) && v.Arr? && n < |v.items|
    ensures ItemNotes(c, rank, path, m, v, n + 1) == ItemNotes(c, rank, path, m, v, n) + ItemNotesAt(c, rank, path, m, v, n)
  {
    hide Ranked, PartsKnown, ItemNotesAt;
  }

  lemma ItemAt(c: Components, rank: Heights, path: string, m: Schema, v: Json, i: nat)
    requires Ranked(c, rank) && PartsKnown(rank, m) && v.Arr? && i < |v.items|
    ensures ItemNotesAt(c, rank, path, m, v, i)
         == if ItemSchema(m, i).Some?
            then Report(c, rank, if Lookup(m, "prefixItems").Arr? then Indexed(path, i) else Join(path, "[]"),
                        ItemSchema(m, i).value, v.items[i])
            else []
  {
    hide Ranked, Report, Lookup, ItemSchema, FieldSchema;
  }

  lemma RowReport(c: Components, rank: Heights, path: string, each: Json, prefix: Json, vs: seq<Json>)
    requires Ranked(c, rank) && Row(each, prefix) in rank
    ensures var m := [Field("items", each), Field("prefixItems", prefix)];
            && PartsKnown(rank, m)
            && Report(c, rank, path, Row(each, prefix), Arr(vs)) == EmptyNote(path, vs) + ItemNotes(c, rank, path, m, Arr(vs), |vs|)
            && (vs == [] ==> ItemNotes(c, rank, path, m, Arr(vs), |vs|) == [])
            && (vs != [] ==> EmptyNote(path, vs) == [])
  {
    var m := [Field("items", each), Field("prefixItems", prefix)];
    FlattenBoth(c, "items", each, "prefixItems", prefix);
    RowOf(m, each, prefix);
    ReportOf(c, rank, path, Row(each, prefix), m, Arr(vs));
    hide Ranked, Report, Lookup, FieldSchema, ItemSchema, Deep, Branches, PartsKnown, ItemNotesAt;
  }

  /** A value where the contract declares only null is an error of its own. */
  lemma OnlyNullReport(c: Components, rank: Heights, path: string, v: Json)
    requires Ranked(c, rank) && Only("oneOf", Arr([Only("type", Str("null"))])) in rank && v != Null
    ensures Report(c, rank, path, Only("oneOf", Arr([Only("type", Str("null"))])), v) == [Note(Error, path, OnlyNull)]
  {
    var s, bs := Only("oneOf", Arr([Only("type", Str("null"))])), [Only("type", Str("null"))];
    FlattenOnly(c, "oneOf", Arr(bs));
    OnlyOneOf([Field("oneOf", Arr(bs))], bs);
    TypedOnly(c, "null");
    LeadsOn(c, rank, s, [Field("oneOf", Arr(bs))]);
    var i := BestIsFirstMinimum(c, rank, path, bs, v, rank[s]);
    hide Ranked, Flatten, NullOnly, Types, Branches, Deep, Best, FirstMinimum, Lookup;
    assert forall j :: 0 <= j < |bs| ==> NullOnly(Flatten(c, bs[j], 0));
  }

  /** What lies behind more than sixteen references is not checked, and a warning says so. */
  lemma TooDeepReport(c: Components, rank: Heights, path: string, s: Json, k: nat, target: Json, v: Json)
    requires Ranked(c, rank) && s in rank
    requires RefChain(c, s, k, target) && target.Obj? && k > 16
    ensures Report(c, rank, path, s, v) == [Note(Warn, path, TooDeep)] && Conforms(c, rank, s, v)
  {
    ChainFlattens(c, s, k, target, 0);
    hide Ranked, RefChain, Flatten;
    assert TOO_DEEP[0].key == TOO_DEEP_KEY;
  }
}
