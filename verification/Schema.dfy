/** Parsed JSON and the schema objects of the spec (internal/conformance/check.go). A
    value Go keeps as nil, absent or JSON null, is Null here. */
module Schemas {

  /** An object's fields are its keys in sorted order, each once, with their values. */
  datatype Json =
    | Null
    | Bool(b: bool)
    | Number(text: string)
    | Str(s: string)
    | Arr(items: seq<Json>)
    | Obj(fields: seq<Field>)

  datatype Field = Field(key: string, val: Json)

  /** A flattened schema object; a nil one has no fields. */
  type Schema = seq<Field>

  type Components = map<string, Json>

  const MAX_DEPTH: nat := 16
  const TOO_DEEP_KEY: string := "x-conformance-too-deep"
  const TOO_DEEP: Schema := [Field(TOO_DEEP_KEY, Bool(true))]
  const REF_PREFIX: string := "#/components/schemas/"

  predicate Has(m: Schema, key: string) { exists i :: 0 <= i < |m| && m[i].key == key }

  function Lookup(m: Schema, key: string): Json {
    if m == [] then Null else if m[0].key == key then m[0].val else Lookup(m[1..], key)
  }

  // out[key] = val
  function Put(m: Schema, key: string, val: Json): Schema {
    if m == [] then [Field(key, val)]
    else if m[0].key == key then [Field(key, val)] + m[1..]
    else [m[0]] + Put(m[1..], key, val)
  }

  function TrimPrefix(s: string, prefix: string): string {
    if prefix <= s then s[|prefix|..] else s
  }

  function Component(c: Components, ref: string): Json {
    var name := TrimPrefix(ref, REF_PREFIX);
    if name in c then c[name] else Null
  }

  function FieldsOf(j: Json): Schema { if j.Obj? then j.fields else [] }

  function RequiredOf(part: Schema): seq<Json> { ItemsOf(Lookup(part, "required")) }

  function PropertiesOf(part: Schema): Schema { FieldsOf(Lookup(part, "properties")) }

  function ItemsOf(j: Json): seq<Json> { if j.Arr? then j.items else [] }

  // --- merging allOf -------------------------------------------------------------------

  // A key keeps the value of the first part that has it.
  function TakeNew(out: Schema, part: Schema): Schema {
    if part == [] then out
    else
      var f := part[|part| - 1];
      var before := TakeNew(out, part[..|part| - 1]);
      if Has(before, f.key) || f.key == "allOf" then before else before + [f]
  }

  // A property keeps the schema of the last part that declares it.
  function PutAll(out: Schema, part: Schema): Schema {
    if part == [] then out
    else Put(PutAll(out, part[..|part| - 1]), part[|part| - 1].key, part[|part| - 1].val)
  }

  function MergedKeys(parts: seq<Schema>): Schema {
    if parts == [] then [] else TakeNew(MergedKeys(parts[..|parts| - 1]), parts[|parts| - 1])
  }

  function MergedProperties(parts: seq<Schema>): Schema {
    if parts == [] then []
    else PutAll(MergedProperties(parts[..|parts| - 1]), PropertiesOf(parts[|parts| - 1]))
  }

  function MergedRequired(parts: seq<Schema>): seq<Json> {
    if parts == [] then []
    else MergedRequired(parts[..|parts| - 1]) + RequiredOf(parts[|parts| - 1])
  }

  function Merged(parts: seq<Schema>): Schema {
    var props, required := MergedProperties(parts), MergedRequired(parts);
    var keys := MergedKeys(parts);
    var withProps := if props != [] then Put(keys, "properties", Obj(props)) else keys;
    if required != [] then Put(withProps, "required", Arr(required)) else withProps
  }

  function Flatten(c: Components, s: Json, depth: nat): Schema
    decreases MAX_DEPTH + 1 - depth, 0
  {
    if !s.Obj? then []
    else if depth > MAX_DEPTH then TOO_DEEP
    else if Lookup(s.fields, "$ref").Str? then Flatten(c, Component(c, Lookup(s.fields, "$ref").s), depth + 1)
    else if Lookup(s.fields, "allOf").Arr? then
      Merged([s.fields] + FlattenAll(c, Lookup(s.fields, "allOf").items, depth + 1))
    else s.fields
  }

  function FlattenAll(c: Components, all: seq<Json>, depth: nat): (parts: seq<Schema>)
    ensures |parts| == |all|
    decreases MAX_DEPTH + 1 - depth, 1, |all|
  {
    if all == [] then []
    else FlattenAll(c, all[..|all| - 1], depth) + [Flatten(c, all[|all| - 1], depth)]
  }

  lemma {:induction false} LookupHas(m: Schema, key: string)
    ensures !Has(m, key) ==> Lookup(m, key) == Null
  {
    if m != [] {
      LookupHas(m[1..], key);
      if Has(m[1..], key) {
        var i :| 0 <= i < |m[1..]| && m[1..][i].key == key;
        assert m[i + 1].key == key;
      }
      if m[0].key == key {
        assert Has(m, key);
      }
    }
  }

  lemma {:induction false} LookupAppend(m: Schema, f: Field, key: string)
    ensures Lookup(m + [f], key) == if Has(m, key) then Lookup(m, key) else if f.key == key then f.val else Null
    ensures Has(m + [f], key) <==> Has(m, key) || f.key == key
  {
    if m == [] {
      assert m + [f] == [f];
      assert [f][1..] == [];
      assert [f][0].key == f.key;
    } else {
      LookupAppend(m[1..], f, key);
      assert (m + [f])[1..] == m[1..] + [f];
      HasSplit(m, key);
      HasSplit(m + [f], key);
    }
  }

  lemma HasSplit(m: Schema, key: string)
    requires m != []
    ensures Has(m, key) <==> m[0].key == key || Has(m[1..], key)
  {
    if i :| 0 < i < |m| && m[i].key == key {
      assert m[1..][i - 1].key == key;
    }
    if i :| 0 <= i < |m[1..]| && m[1..][i].key == key {
      assert m[i + 1].key == key;
    }
  }

  lemma {:induction false} LookupPut(m: Schema, key: string, val: Json, k: string)
    ensures Lookup(Put(m, key, val), k) == if k == key then val else Lookup(m, k)
    ensures Has(Put(m, key, val), k) <==> Has(m, k) || k == key
  {
    if m == [] {
      assert [Field(key, val)][1..] == [];
      assert Put(m, key, val)[0].key == key;
    } else {
      HasSplit(m, k);
      HasSplit(Put(m, key, val), k);
      if m[0].key == key {
        assert Put(m, key, val)[1..] == m[1..];
      } else {
        LookupPut(m[1..], key, val, k);
        assert Put(m, key, val)[1..] == Put(m[1..], key, val);
      }
    }
  }

  lemma {:induction false} TakeNewKeepsFirst(out: Schema, part: Schema, key: string)
    requires key != "allOf"
    ensures Has(TakeNew(out, part), key) <==> Has(out, key) || Has(part, key)
    ensures Has(out, key) ==> Lookup(TakeNew(out, part), key) == Lookup(out, key)
    ensures !Has(out, key) ==> Lookup(TakeNew(out, part), key) == Lookup(part, key)
  {
    if part != [] {
      var n := |part| - 1;
      TakeNewKeepsFirst(out, part[..n], key);
      assert part == part[..n] + [part[n]];
      LookupAppend(part[..n], part[n], key);
      LookupAppend(TakeNew(out, part[..n]), part[n], key);
      LookupHas(part[..n], key);
    } else {
      LookupHas(out, key);
    }
  }

  predicate UniqueKeys(m: Schema) { forall i, j :: 0 <= i < j < |m| ==> m[i].key != m[j].key }

  lemma {:induction false} PutAllKeepsLast(out: Schema, part: Schema, key: string)
    requires UniqueKeys(part)
    ensures Has(PutAll(out, part), key) <==> Has(out, key) || Has(part, key)
    ensures Lookup(PutAll(out, part), key) == if Has(part, key) then Lookup(part, key) else Lookup(out, key)
  {
    hide Put, Lookup;
    if part != [] {
      var n := |part| - 1;
      PutAllKeepsLast(out, part[..n], key);
      assert part == part[..n] + [part[n]];
      LookupAppend(part[..n], part[n], key);
      LookupPut(PutAll(out, part[..n]), part[n].key, part[n].val, key);
    }
  }

  /** allOf, keyword by keyword: a plain keyword comes from the first part that has it. */
  lemma {:induction false} MergedKeyIsFirst(parts: seq<Schema>, key: string, i: nat)
    requires key != "allOf" && i < |parts| && Has(parts[i], key)
    requires forall j :: 0 <= j < i ==> !Has(parts[j], key)
    ensures Has(MergedKeys(parts), key) && Lookup(MergedKeys(parts), key) == Lookup(parts[i], key)
  {
    var n := |parts| - 1;
    TakeNewKeepsFirst(MergedKeys(parts[..n]), parts[n], key);
    if i < n {
      MergedKeyIsFirst(parts[..n], key, i);
    } else {
      NoPartHasKey(parts[..n], key);
    }
  }

  lemma {:induction false} NoPartHasKey(parts: seq<Schema>, key: string)
    requires key != "allOf" && forall j :: 0 <= j < |parts| ==> !Has(parts[j], key)
    ensures !Has(MergedKeys(parts), key)
  {
    if parts != [] {
      var n := |parts| - 1;
      NoPartHasKey(parts[..n], key);
      TakeNewKeepsFirst(MergedKeys(parts[..n]), parts[n], key);
    }
  }

  /** A property's schema comes from the last part that declares it. */
  lemma {:induction false} MergedPropertyIsLast(parts: seq<Schema>, name: string, i: nat)
    requires forall j :: 0 <= j < |parts| ==> UniqueKeys(PropertiesOf(parts[j]))
    requires i < |parts| && Has(PropertiesOf(parts[i]), name)
    requires forall j :: i < j < |parts| ==> !Has(PropertiesOf(parts[j]), name)
    ensures Has(MergedProperties(parts), name)
    ensures Lookup(MergedProperties(parts), name) == Lookup(PropertiesOf(parts[i]), name)
  {
    hide PropertiesOf, PutAll, Lookup, UniqueKeys, Has;
    var n := |parts| - 1;
    PutAllKeepsLast(MergedProperties(parts[..n]), PropertiesOf(parts[n]), name);
    if i < n {
      MergedPropertyIsLast(parts[..n], name, i);
    }
  }

  lemma {:induction false} NoPartHasProperty(parts: seq<Schema>, name: string)
    requires forall j :: 0 <= j < |parts| ==> UniqueKeys(PropertiesOf(parts[j])) && !Has(PropertiesOf(parts[j]), name)
    ensures !Has(MergedProperties(parts), name)
  {
    hide PropertiesOf, PutAll, Lookup, UniqueKeys;
    if parts != [] {
      var n := |parts| - 1;
      PutAllKeepsLast(MergedProperties(parts[..n]), PropertiesOf(parts[n]), name);
      NoPartHasProperty(parts[..n], name);
    }
  }

  /** A name is required when any part requires it. */
  lemma {:induction false} MergedRequiredIsUnion(parts: seq<Schema>, r: Json)
    ensures r in MergedRequired(parts) <==> exists i :: 0 <= i < |parts| && r in RequiredOf(parts[i])
  {
    hide RequiredOf;
    if parts != [] {
      var n := |parts| - 1;
      MergedRequiredIsUnion(parts[..n], r);
      assert forall i :: 0 <= i < n ==> parts[..n][i] == parts[i];
    }
  }

  /** What the merged object says, keyword by keyword: the three merges above; a merge that
      comes out empty leaves what the first part says. */
  lemma MergedMeaning(parts: seq<Schema>, key: string)
    ensures Lookup(Merged(parts), key)
         == if key == "properties" && MergedProperties(parts) != [] then Obj(MergedProperties(parts))
            else if key == "required" && MergedRequired(parts) != [] then Arr(MergedRequired(parts))
            else Lookup(MergedKeys(parts), key)
    ensures Has(Merged(parts), key) <==>
              || Has(MergedKeys(parts), key)
              || (key == "properties" && MergedProperties(parts) != [])
              || (key == "required" && MergedRequired(parts) != [])
  {
    hide Put, Lookup, Has, MergedKeys, MergedProperties, MergedRequired;
    var props, required, keys := MergedProperties(parts), MergedRequired(parts), MergedKeys(parts);
    var withProps := if props != [] then Put(keys, "properties", Obj(props)) else keys;
    LookupPut(keys, "properties", Obj(props), key);
    LookupPut(withProps, "required", Arr(required), key);
  }

  /** Required names are listed part by part, the first part's first. */
  lemma {:induction false} RequiredInOrder(first: Schema, rest: seq<Schema>)
    ensures MergedRequired([first] + rest) == RequiredOf(first) + MergedRequired(rest)
  {
    hide RequiredOf;
    if rest == [] {
      assert ([first] + rest)[..0] == [];
    } else {
      var n := |rest| - 1;
      RequiredInOrder(first, rest[..n]);
      assert ([first] + rest)[..n + 1] == [first] + rest[..n];
    }
  }
}
