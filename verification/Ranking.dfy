/** Which specs the walk is known to end on (internal/conformance/check.go): those whose
    components can be numbered so that each mentions, in $ref, allOf, oneOf and anyOf, only
    components of lower numbers. What it mentions in properties and items does not count, so
    a schema may hold values of its own kind. */
module Ranking {
  import opened Schemas
  import opened Conformance

  lemma {:induction false} LookupFinds(m: Schema, key: string)
    ensures Lookup(m, key) != Null ==> exists i :: 0 <= i < |m| && m[i].key == key && m[i].val == Lookup(m, key)
    ensures Lookup(m, key) != Null ==> Has(m, key)
  {
    if m != [] && m[0].key != key && Lookup(m, key) != Null {
      LookupFinds(m[1..], key);
      var i :| 0 <= i < |m[1..]| && m[1..][i].key == key && m[1..][i].val == Lookup(m[1..], key);
      assert m[i + 1].key == key && m[i + 1].val == Lookup(m, key);
    }
  }

  function RefName(ref: string): string { TrimPrefix(ref, REF_PREFIX) }

  // How high a schema stands above the components it mentions outside properties and items.
  function Height(number: string -> nat, s: Json): nat
    decreases s
  {
    if !s.Obj? then 0
    else if Lookup(s.fields, "$ref").Str? then 1 + number(RefName(Lookup(s.fields, "$ref").s))
    else
      1 + HeightUnder(number, s, "allOf") + HeightUnder(number, s, "oneOf") + HeightUnder(number, s, "anyOf")
  }

  function HeightUnder(number: string -> nat, s: Json, key: string): nat
    requires s.Obj?
    decreases s, 0
  {
    LookupFinds(s.fields, key);
    if Lookup(s.fields, key).Arr? then HeightOfAll(number, Lookup(s.fields, key).items) else 0
  }

  function HeightOfAll(number: string -> nat, js: seq<Json>): nat
    decreases js
  {
    if js == [] then 0 else HeightOfAll(number, js[..|js| - 1]) + Height(number, js[|js| - 1])
  }

  // Each component stands no higher than its number.
  ghost predicate Numbered(c: Components, number: string -> nat) {
    forall name :: name in c ==> Height(number, c[name]) <= number(name)
  }

  predicate AllBelow(number: string -> nat, js: seq<Json>, bound: nat) {
    forall j :: j in js ==> Height(number, j) < bound
  }

  lemma {:induction false} EachBelowAll(number: string -> nat, js: seq<Json>, bound: nat)
    requires HeightOfAll(number, js) < bound
    ensures AllBelow(number, js, bound)
  {
    hide Height;
    if js != [] {
      var n := |js| - 1;
      EachBelowAll(number, js[..n], bound);
      assert js == js[..n] + [js[n]];
    }
  }

  // What a schema says itself under a branch keyword stands below it.
  lemma OwnBranches(number: string -> nat, s: Json, key: string)
    requires s.Obj? && !Lookup(s.fields, "$ref").Str? && key in {"allOf", "oneOf", "anyOf"}
    ensures AllBelow(number, ItemsOf(Lookup(s.fields, key)), Height(number, s))
  {
    hide Lookup, AllBelow;
    assert HeightUnder(number, s, key) < Height(number, s);
    hide Height;
    EachBelowAll(number, ItemsOf(Lookup(s.fields, key)), Height(number, s));
  }

  lemma {:induction false} FlattenAllAt(c: Components, all: seq<Json>, depth: nat, i: nat)
    requires i < |all|
    ensures FlattenAll(c, all, depth)[i] == Flatten(c, all[i], depth)
  {
    hide Flatten;
    if i < |all| - 1 {
      FlattenAllAt(c, all[..|all| - 1], depth, i);
    }
  }

  lemma {:induction false} FirstWith(parts: seq<Schema>, key: string) returns (i: nat)
    requires exists k :: 0 <= k < |parts| && Has(parts[k], key)
    ensures i < |parts| && Has(parts[i], key) && forall j :: 0 <= j < i ==> !Has(parts[j], key)
  {
    hide Has;
    if Has(parts[0], key) {
      i := 0;
    } else {
      var k :| 0 <= k < |parts| && Has(parts[k], key);
      assert parts[1..][k - 1] == parts[k];
      var r := FirstWith(parts[1..], key);
      i := r + 1;
      forall j | 0 <= j < i ensures !Has(parts[j], key) {
        assert j > 0 ==> parts[1..][j - 1] == parts[j];
      }
    }
  }

  // Where a merged keyword comes from.
  lemma MergedFrom(parts: seq<Schema>, key: string)
    requires key in {"oneOf", "anyOf"}
    ensures Lookup(Merged(parts), key) == Null || exists i :: 0 <= i < |parts| && Lookup(Merged(parts), key) == Lookup(parts[i], key)
  {
    hide Merged, MergedKeys, Lookup, Has;
    MergedMeaning(parts, key);
    if exists k :: 0 <= k < |parts| && Has(parts[k], key) {
      var i := FirstWith(parts, key);
      MergedKeyIsFirst(parts, key, i);
    } else {
      NoPartHasKey(parts, key);
      LookupHas(MergedKeys(parts), key);
    }
  }

  lemma NullHasNoItems(number: string -> nat, bound: nat)
    ensures AllBelow(number, ItemsOf(Null), bound)
  {
  }

  lemma TooDeepHasNoBranches(key: string)
    requires key in {"oneOf", "anyOf"}
    ensures Lookup(TOO_DEEP, key) == Null && Lookup([], key) == Null
  {
    assert TOO_DEEP[1..] == [];
  }

  lemma AllBelowMore(number: string -> nat, js: seq<Json>, bound: nat, higher: nat)
    requires AllBelow(number, js, bound) && bound <= higher
    ensures AllBelow(number, js, higher)
  {
  }

  lemma {:induction false} FlattenStaysBelow(c: Components, number: string -> nat, s: Json, depth: nat, key: string)
    requires Numbered(c, number) && key in {"oneOf", "anyOf"}
    ensures AllBelow(number, ItemsOf(Lookup(Flatten(c, s, depth), key)), Height(number, s))
    decreases MAX_DEPTH + 1 - depth
  {
    hide Lookup, Height, AllBelow, Numbered, Merged, FlattenAll, ItemsOf;
    NullHasNoItems(number, Height(number, s));
    TooDeepHasNoBranches(key);
    if s.Obj? && depth <= MAX_DEPTH {
      if Lookup(s.fields, "$ref").Str? {
        var next := Component(c, Lookup(s.fields, "$ref").s);
        FlattenStaysBelow(c, number, next, depth + 1, key);
        RefIsHigher(c, number, s);
        AllBelowMore(number, ItemsOf(Lookup(Flatten(c, next, depth + 1), key)), Height(number, next), Height(number, s));
      } else if Lookup(s.fields, "allOf").Arr? {
        MergeStaysBelow(c, number, s, depth, key);
      } else {
        OwnBranches(number, s, key);
      }
    }
  }

  lemma RefIsHigher(c: Components, number: string -> nat, s: Json)
    requires Numbered(c, number) && s.Obj? && Lookup(s.fields, "$ref").Str?
    ensures Height(number, Component(c, Lookup(s.fields, "$ref").s)) <= Height(number, s)
  {
    hide Lookup;
  }

  lemma {:induction false} MergeStaysBelow(c: Components, number: string -> nat, s: Json, depth: nat, key: string)
    requires Numbered(c, number) && key in {"oneOf", "anyOf"} && depth <= MAX_DEPTH
    requires s.Obj? && !Lookup(s.fields, "$ref").Str? && Lookup(s.fields, "allOf").Arr?
    ensures AllBelow(number,
                     ItemsOf(Lookup(Merged([s.fields] + FlattenAll(c, Lookup(s.fields, "allOf").items, depth + 1)), key)),
                     Height(number, s))
    decreases MAX_DEPTH + 1 - depth, 0
  {
    hide Lookup, Height, AllBelow, Numbered, Merged, FlattenAll, Flatten, ItemsOf;
    var all := Lookup(s.fields, "allOf").items;
    var parts := [s.fields] + FlattenAll(c, all, depth + 1);
    OwnBranches(number, s, key);
    if Lookup(Merged(parts), key) == Null {
      NullHasNoItems(number, Height(number, s));
    } else {
      MergedFrom(parts, key);
      var i :| 0 <= i < |parts| && Lookup(Merged(parts), key) == Lookup(parts[i], key);
      if i > 0 {
        FlattenAllAt(c, all, depth + 1, i - 1);
        FlattenStaysBelow(c, number, all[i - 1], depth + 1, key);
        PartIsBelow(number, s, i - 1);
        AllBelowMore(number, ItemsOf(Lookup(parts[i], key)), Height(number, all[i - 1]), Height(number, s));
      }
    }
  }

  lemma PartIsBelow(number: string -> nat, s: Json, i: nat)
    requires s.Obj? && !Lookup(s.fields, "$ref").Str? && Lookup(s.fields, "allOf").Arr?
    requires i < |Lookup(s.fields, "allOf").items|
    ensures Height(number, Lookup(s.fields, "allOf").items[i]) < Height(number, s)
  {
    hide Lookup, Height;
    OwnBranches(number, s, "allOf");
  }

  // Every schema, at its height.
  ghost function AllHeights(number: string -> nat): imap<Json, nat> { imap s: Json :: Height(number, s) }

  /** A numbered spec is ranked, every schema included: so for it the checker decides conformance
      of any value against any schema. */
  lemma NumberedIsRanked(c: Components, number: string -> nat)
    requires Numbered(c, number)
    ensures Ranked(c, AllHeights(number)) && forall s :: s in AllHeights(number)
  {
    hide Flatten, Height, Lookup, FieldSchema, ItemSchema;
    var rank := AllHeights(number);
    forall s ensures Leads(c, rank, s) {
      FlattenStaysBelow(c, number, s, 0, "oneOf");
      FlattenStaysBelow(c, number, s, 0, "anyOf");
      assert AllBelow(number, Branches(Flatten(c, s, 0)), Height(number, s));
    }
  }

  // {"properties": {"next": {"anyOf": [{"$ref": "#/components/schemas/Node"}, {"type": "null"}]}}}
  const NODE: Json := Obj([Field("properties", Obj([Field("next", Obj([Field("anyOf", Arr([
    Obj([Field("$ref", Str(REF_PREFIX + "Node"))]), Obj([Field("type", Str("null"))])]))]))]))])

  lemma OnlyProperties(key: string)
    requires |key| < 10
    ensures Lookup(NODE.fields, key) == Null
  {
    assert |"properties"| == 10;
    assert NODE.fields[1..] == [];
  }

  function AlwaysOne(name: string): nat { 1 }

  /** A component that holds values of its own kind is numbered, and so ranked. */
  lemma RecursiveValuesAreRanked()
    ensures Numbered(map["Node" := NODE], AlwaysOne)
    ensures Ranked(map["Node" := NODE], AllHeights(AlwaysOne))
  {
    OnlyProperties("$ref");
    OnlyProperties("allOf");
    OnlyProperties("oneOf");
    OnlyProperties("anyOf");
    assert Height(AlwaysOne, NODE) <= 1;
    NumberedIsRanked(map["Node" := NODE], AlwaysOne);
  }

  // Each schema of the path is a branch of the one before it.
  predicate BranchPath(c: Components, path: seq<Json>) {
    forall i :: 0 <= i < |path| - 1 ==> path[i + 1] in Branches(Flatten(c, path[i], 0))
  }

  lemma {:induction false} HeightsFall(c: Components, rank: Heights, path: seq<Json>)
    requires Ranked(c, rank) && path != [] && path[0] in rank && BranchPath(c, path)
    ensures path[|path| - 1] in rank && rank[path[|path| - 1]] <= rank[path[0]] - (|path| - 1)
  {
    hide Flatten, Branches, PartsKnown;
    if |path| > 1 {
      var n := |path| - 1;
      HeightsFall(c, rank, path[..n]);
      var s := path[n - 1];
      assert Leads(c, rank, s) && path[(n - 1) + 1] in Branches(Flatten(c, s, 0));
    }
  }

  /** No path through branches is longer than the height it starts from, so none of any length
      comes back to where it started: a cycle through oneOf and anyOf alone, on which the walk
      of a value would go on for ever, has no heights. */
  lemma NoBranchCycles(c: Components, rank: Heights, path: seq<Json>)
    requires Ranked(c, rank) && |path| > 1 && path[0] in rank && BranchPath(c, path)
    ensures path[|path| - 1] != path[0] && |path| <= rank[path[0]] + 1
  {
    hide Ranked, BranchPath;
    HeightsFall(c, rank, path);
  }
}
