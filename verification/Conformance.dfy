/** What the checker reports of a value against a schema, and what conforming to the
    schema means (internal/conformance/check.go). The walk follows $ref, so it ends only
    if no schema reaches itself through oneOf or anyOf alone: rank is a height function
    over the schemas that says so. */
module Conformance {
  import opened Wrappers
  import opened Schemas
  import Decimals

  datatype Severity = Info | Warn | Error

  datatype Msg =
    | NotJson
    | TooDeep
    | NullPermitted
    | NullForbidden
    | OnlyNull
    | WrongType(kind: string, declared: set<string>)
    | Absent
    | Undeclared
    | EmptyArray

  // One deviation, on one item.
  datatype Note = Note(severity: Severity, path: string, msg: Msg)

  // --- the keywords read ---------------------------------------------------------------

  function Types(m: Schema): set<string> {
    match Lookup(m, "type")
    case Str(t) => {t}
    case Arr(ts) => set x | x in ts && x.Str? :: x.s
    case _ => {}
  }

  function Branches(m: Schema): seq<Json> {
    if Lookup(m, "oneOf").Arr? then Lookup(m, "oneOf").items else ItemsOf(Lookup(m, "anyOf"))
  }

  function Kind(v: Json): string {
    match v
    case Null => "null"
    case Bool(_) => "boolean"
    case Number(t) => if '.' in t || 'e' in t || 'E' in t then "number" else "integer"
    case Str(_) => "string"
    case Arr(_) => "array"
    case Obj(_) => "object"
  }

  function Join(path: string, key: string): string {
    if path == "" || key == "[]" then path + key else path + "." + key
  }

  function Indexed(path: string, i: nat): string { path + "[" + Decimals.NatText(i) + "]" }

  predicate NullOnly(m: Schema) { Types(m) == {"null"} }

  predicate TypeFits(types: set<string>, v: Json) {
    types == {} || Kind(v) in types || (Kind(v) == "integer" && "number" in types)
  }

  predicate Deep(m: Schema) { Lookup(m, TOO_DEEP_KEY) != Null }

  // The schema of element i, and the path its findings carry.
  function ItemSchema(m: Schema, i: nat): Option<Json> {
    if Lookup(m, "prefixItems").Arr? then
      var prefix := Lookup(m, "prefixItems").items;
      if i < |prefix| then Some(prefix[i]) else None
    else Some(Lookup(m, "items"))
  }

  function ItemPath(m: Schema, path: string, i: nat): string {
    if Lookup(m, "prefixItems").Arr? then Indexed(path, i) else Join(path, "[]")
  }

  // The schema of the value under key, if the contract has one.
  function FieldSchema(m: Schema, key: string): Option<Json> {
    if Has(PropertiesOf(m), key) then Some(Lookup(PropertiesOf(m), key))
    else if Lookup(m, "additionalProperties").Obj? then Some(Lookup(m, "additionalProperties"))
    else None
  }

  function FieldPath(m: Schema, path: string, key: string): string {
    if Has(PropertiesOf(m), key) then Join(path, key) else Join(path, "{}")
  }

  predicate Closed(m: Schema) {
    Lookup(m, "properties").Obj? && Lookup(m, "additionalProperties") == Null
  }

  // The names a schema requires; an entry that is no string, or empty, requires nothing.
  function RequiredName(r: Json): Option<string> { if r.Str? && r.s != "" then Some(r.s) else None }

  // The schemas a walk can reach, each with a height.
  type Heights = imap<Json, nat>

  // No cycle through oneOf or anyOf alone among them: every branch is lower than its schema.
  // Whatever else a schema leads to is among them too, at any height.
  ghost predicate Ranked(c: Components, rank: Heights) {
    forall s :: s in rank ==> Leads(c, rank, s)
  }

  ghost predicate Leads(c: Components, rank: Heights, s: Json)
    requires s in rank
  {
    var m := Flatten(c, s, 0);
    && Below(rank, Branches(m), rank[s])
    && (m != [] && !Deep(m) && Branches(m) == [] ==> PartsKnown(rank, m))
  }

  ghost predicate Below(rank: Heights, bs: seq<Json>, bound: nat) {
    forall i :: 0 <= i < |bs| ==> bs[i] in rank && rank[bs[i]] < bound
  }

  ghost predicate Known(rank: Heights, bs: seq<Json>) { forall b :: b in bs ==> b in rank }

  ghost predicate PartsKnown(rank: Heights, m: Schema) {
    && (forall key :: FieldSchema(m, key).Some? ==> FieldSchema(m, key).value in rank)
    && (forall i: nat :: ItemSchema(m, i).Some? ==> ItemSchema(m, i).value in rank)
  }

  // --- conforming ----------------------------------------------------------------------

  // Null is permitted where some chain of branches ends in a schema that lists null.
  ghost predicate Nullable(c: Components, rank: Heights, s: Json)
    requires Ranked(c, rank) && s in rank
    decreases rank[s]
  {
    var m := Flatten(c, s, 0);
    "null" in Types(m)
    || exists i: nat :: i < |Branches(m)| && Nullable(c, rank, Branches(m)[i])
  }

  ghost predicate Conforms(c: Components, rank: Heights, s: Json, v: Json)
    requires Ranked(c, rank) && s in rank
    decreases v, rank[s], 2
  {
    var m := Flatten(c, s, 0);
    if m == [] || Deep(m) then true
    else if v == Null then Nullable(c, rank, s)
    else if Branches(m) != [] then
      exists i: nat :: i < |Branches(m)| && !NullOnly(Flatten(c, Branches(m)[i], 0))
                       && Conforms(c, rank, Branches(m)[i], v)
    else
      && TypeFits(Types(m), v)
      && (v.Obj? ==> AllSupplied(ItemsOf(Lookup(m, "required")), v.fields) && FieldsConform(c, rank, m, v, |v.fields|))
      && (v.Arr? ==> ItemsConform(c, rank, m, v, |v.items|))
  }

  predicate AllSupplied(required: seq<Json>, fields: seq<Field>) {
    forall r :: r in required ==> Supplied(r, fields)
  }

  ghost predicate FieldsConform(c: Components, rank: Heights, m: Schema, v: Json, n: nat)
    requires Ranked(c, rank) && PartsKnown(rank, m) && v.Obj? && n <= |v.fields|
    decreases v, 0, 1
  {
    forall i: nat :: i < n ==> FieldConforms(c, rank, m, v, i)
  }

  ghost predicate ItemsConform(c: Components, rank: Heights, m: Schema, v: Json, n: nat)
    requires Ranked(c, rank) && PartsKnown(rank, m) && v.Arr? && n <= |v.items|
    decreases v, 0, 1
  {
    forall i: nat :: i < n ==> ItemConforms(c, rank, m, v, i)
  }

  ghost predicate FieldConforms(c: Components, rank: Heights, m: Schema, v: Json, i: nat)
    requires Ranked(c, rank) && PartsKnown(rank, m) && v.Obj? && i < |v.fields|
    decreases v, 0, 0
  {
    FieldSchema(m, v.fields[i].key).Some? ==> Conforms(c, rank, FieldSchema(m, v.fields[i].key).value, v.fields[i].val)
  }

  ghost predicate ItemConforms(c: Components, rank: Heights, m: Schema, v: Json, i: nat)
    requires Ranked(c, rank) && PartsKnown(rank, m) && v.Arr? && i < |v.items|
    decreases v, 0, 0
  {
    ItemSchema(m, i).Some? ==> Conforms(c, rank, ItemSchema(m, i).value, v.items[i])
  }

  predicate Supplied(r: Json, fields: seq<Field>) {
    RequiredName(r).Some? ==> Has(fields, RequiredName(r).value)
  }

  // --- reporting -----------------------------------------------------------------------

  function CountOf(notes: seq<Note>, sev: Severity): nat {
    if notes == [] then 0
    else CountOf(notes[..|notes| - 1], sev) + (if notes[|notes| - 1].severity == sev then 1 else 0)
  }

  // The branch that fits better: fewer errors, then fewer warnings.
  predicate Better(a: seq<Note>, b: seq<Note>) {
    CountOf(a, Error) < CountOf(b, Error)
    || (CountOf(a, Error) == CountOf(b, Error) && CountOf(a, Warn) < CountOf(b, Warn))
  }

  ghost function Report(c: Components, rank: Heights, path: string, s: Json, v: Json): seq<Note>
    requires Ranked(c, rank) && s in rank
    decreases v, rank[s], 2, 0
  {
    var m := Flatten(c, s, 0);
    if m == [] then []
    else if Deep(m) then [Note(Warn, path, TooDeep)]
    else if v == Null then
      [if Nullable(c, rank, s) then Note(Info, path, NullPermitted) else Note(Error, path, NullForbidden)]
    else if Branches(m) != [] then
      Chosen(path, Best(c, rank, path, Branches(m), v, rank[s]))
    else if !TypeFits(Types(m), v) then [Note(Error, path, WrongType(Kind(v), Types(m) - {"null"}))]
    else if v.Obj? then
      MissingNotes(path, ItemsOf(Lookup(m, "required")), v.fields) + FieldNotes(c, rank, path, m, v, |v.fields|)
    else if v.Arr? then
      EmptyNote(path, v.items) + ItemNotes(c, rank, path, m, v, |v.items|)
    else []
  }

  function Chosen(path: string, best: Option<seq<Note>>): seq<Note> {
    if best.Some? then best.value else [Note(Error, path, OnlyNull)]
  }

  function EmptyNote(path: string, items: seq<Json>): seq<Note> {
    if items == [] && path != "" then [Note(Info, path, EmptyArray)] else []
  }

  function MissingNotes(path: string, required: seq<Json>, fields: seq<Field>): seq<Note> {
    if required == [] then []
    else
      var r := required[|required| - 1];
      MissingNotes(path, required[..|required| - 1], fields)
      + (if Supplied(r, fields) then [] else [Note(Error, Join(path, RequiredName(r).value), Absent)])
  }

  ghost function FieldNotes(c: Components, rank: Heights, path: string, m: Schema, v: Json, n: nat): seq<Note>
    requires Ranked(c, rank) && PartsKnown(rank, m) && v.Obj? && n <= |v.fields|
    decreases v, 0, 0, n
  {
    if n == 0 then []
    else
      FieldNotes(c, rank, path, m, v, n - 1) + FieldNotesAt(c, rank, path, m, v, n - 1)
  }

  ghost function FieldNotesAt(c: Components, rank: Heights, path: string, m: Schema, v: Json, i: nat): seq<Note>
    requires Ranked(c, rank) && PartsKnown(rank, m) && v.Obj? && i < |v.fields|
    decreases v, 0, 0, i
  {
    var f := v.fields[i];
    if FieldSchema(m, f.key).Some? then Report(c, rank, FieldPath(m, path, f.key), FieldSchema(m, f.key).value, f.val)
    else if Closed(m) then [Note(Warn, Join(path, f.key), Undeclared)]
    else []
  }

  ghost function ItemNotes(c: Components, rank: Heights, path: string, m: Schema, v: Json, n: nat): seq<Note>
    requires Ranked(c, rank) && PartsKnown(rank, m) && v.Arr? && n <= |v.items|
    decreases v, 0, 0, n
  {
    if n == 0 then []
    else
      ItemNotes(c, rank, path, m, v, n - 1) + ItemNotesAt(c, rank, path, m, v, n - 1)
  }

  ghost function ItemNotesAt(c: Components, rank: Heights, path: string, m: Schema, v: Json, i: nat): seq<Note>
    requires Ranked(c, rank) && PartsKnown(rank, m) && v.Arr? && i < |v.items|
    decreases v, 0, 0, i
  {
    if ItemSchema(m, i).Some? then Report(c, rank, ItemPath(m, path, i), ItemSchema(m, i).value, v.items[i]) else []
  }

  // The report of the branch that fits best so far; a branch that is null only is skipped.
  ghost function Best(c: Components, rank: Heights, path: string, bs: seq<Json>, v: Json, bound: nat): Option<seq<Note>>
    requires Ranked(c, rank) && Below(rank, bs, bound)
    decreases v, bound, 1, |bs|
  {
    if bs == [] then None
    else
      var n := |bs| - 1;
      var best := Best(c, rank, path, bs[..n], v, bound);
      if NullOnly(Flatten(c, bs[n], 0)) then best
      else
        var tried := Report(c, rank, path, bs[n], v);
        if best.None? || Better(tried, best.value) then Some(tried) else best
  }

  // --- soundness and completeness ------------------------------------------------------

  lemma {:induction false} CountOfAppend(a: seq<Note>, b: seq<Note>, sev: Severity)
    ensures CountOf(a + b, sev) == CountOf(a, sev) + CountOf(b, sev)
  {
    if b == [] {
      assert a + b == a;
    } else {
      CountOfAppend(a, b[..|b| - 1], sev);
      assert (a + b)[..|a + b| - 1] == a + b[..|b| - 1];
    }
  }

  lemma {:induction false} MissingIsSound(path: string, required: seq<Json>, fields: seq<Field>)
    ensures CountOf(MissingNotes(path, required, fields), Error) == 0 <==>
            AllSupplied(required, fields)
  {
    hide Join, Has;
    if required != [] {
      var n := |required| - 1;
      var r := required[n];
      MissingIsSound(path, required[..n], fields);
      assert required == required[..n] + [r];
      if Supplied(r, fields) {
        CountOfAppend(MissingNotes(path, required[..n], fields), [], Error);
        CountOfNone(Error);
      } else {
        var absent := Note(Error, Join(path, RequiredName(r).value), Absent);
        CountOfAppend(MissingNotes(path, required[..n], fields), [absent], Error);
        CountOfOne(absent, Error);
      }
    }
  }

  ghost predicate BranchConforms(c: Components, rank: Heights, b: Json, v: Json)
    requires Ranked(c, rank) && b in rank
  {
    !NullOnly(Flatten(c, b, 0)) && Conforms(c, rank, b, v)
  }

  // Some branch that is not null only takes the value.
  ghost predicate SomeConforms(c: Components, rank: Heights, bs: seq<Json>, v: Json)
    requires Ranked(c, rank) && Known(rank, bs)
  {
    exists i: nat :: i < |bs| && BranchConforms(c, rank, bs[i], v)
  }

  lemma SomeConformsLast(c: Components, rank: Heights, bs: seq<Json>, v: Json)
    requires Ranked(c, rank) && Known(rank, bs) && bs != []
    ensures SomeConforms(c, rank, bs, v) <==>
            SomeConforms(c, rank, bs[..|bs| - 1], v) || BranchConforms(c, rank, bs[|bs| - 1], v)
  {
    hide Ranked, BranchConforms;
    var n := |bs| - 1;
    assert forall i: nat :: i < n ==> bs[..n][i] == bs[i];
  }

  lemma {:induction false} FieldIsSound(c: Components, rank: Heights, path: string, m: Schema, v: Json, i: nat)
    requires Ranked(c, rank) && PartsKnown(rank, m) && v.Obj? && i < |v.fields|
    ensures CountOf(FieldNotesAt(c, rank, path, m, v, i), Error) == 0 <==> FieldConforms(c, rank, m, v, i)
    decreases v, 0, 0, i
  {
    hide Ranked, FieldSchema, FieldPath, Join, Closed, Report, Conforms, CountOf;
    var f := v.fields[i];
    if FieldSchema(m, f.key).Some? {
      IsSound(c, rank, FieldPath(m, path, f.key), FieldSchema(m, f.key).value, f.val);
    } else {
      CountOfOne(Note(Warn, Join(path, f.key), Undeclared), Error);
      CountOfNone(Error);
    }
  }

  lemma {:induction false} FieldsAreSound(c: Components, rank: Heights, path: string, m: Schema, v: Json, n: nat)
    requires Ranked(c, rank) && PartsKnown(rank, m) && v.Obj? && n <= |v.fields|
    ensures CountOf(FieldNotes(c, rank, path, m, v, n), Error) == 0 <==>
            FieldsConform(c, rank, m, v, n)
    decreases v, 0, 0, n
  {
    hide Ranked, FieldNotesAt, FieldConforms, CountOf;
    if n == 0 {
      CountOfNone(Error);
    } else {
      FieldsAreSound(c, rank, path, m, v, n - 1);
      FieldIsSound(c, rank, path, m, v, n - 1);
      CountOfAppend(FieldNotes(c, rank, path, m, v, n - 1), FieldNotesAt(c, rank, path, m, v, n - 1), Error);
    }
  }

  lemma {:induction false} ItemIsSound(c: Components, rank: Heights, path: string, m: Schema, v: Json, i: nat)
    requires Ranked(c, rank) && PartsKnown(rank, m) && v.Arr? && i < |v.items|
    ensures CountOf(ItemNotesAt(c, rank, path, m, v, i), Error) == 0 <==> ItemConforms(c, rank, m, v, i)
    decreases v, 0, 0, i
  {
    hide Ranked, ItemSchema, ItemPath, Report, Conforms, CountOf;
    if ItemSchema(m, i).Some? {
      IsSound(c, rank, ItemPath(m, path, i), ItemSchema(m, i).value, v.items[i]);
    } else {
      CountOfNone(Error);
    }
  }

  lemma {:induction false} ItemsAreSound(c: Components, rank: Heights, path: string, m: Schema, v: Json, n: nat)
    requires Ranked(c, rank) && PartsKnown(rank, m) && v.Arr? && n <= |v.items|
    ensures CountOf(ItemNotes(c, rank, path, m, v, n), Error) == 0 <==>
            ItemsConform(c, rank, m, v, n)
    decreases v, 0, 0, n
  {
    hide Ranked, ItemNotesAt, ItemConforms, CountOf;
    if n == 0 {
      CountOfNone(Error);
    } else {
      ItemsAreSound(c, rank, path, m, v, n - 1);
      ItemIsSound(c, rank, path, m, v, n - 1);
      CountOfAppend(ItemNotes(c, rank, path, m, v, n - 1), ItemNotesAt(c, rank, path, m, v, n - 1), Error);
    }
  }

  lemma {:induction false} BestIsSound(c: Components, rank: Heights, path: string, bs: seq<Json>, v: Json, bound: nat)
    requires Ranked(c, rank) && Below(rank, bs, bound)
    ensures (Best(c, rank, path, bs, v, bound).Some? && CountOf(Best(c, rank, path, bs, v, bound).value, Error) == 0) <==>
            SomeConforms(c, rank, bs, v)
    decreases v, bound, 1, |bs|
  {
    if bs != [] {
      var n := |bs| - 1;
      BestIsSound(c, rank, path, bs[..n], v, bound);
      IsSound(c, rank, path, bs[n], v);
      SomeConformsLast(c, rank, bs, v);
      hide *;
      BestStep(c, rank, path, bs, v, bound);
    }
  }

  // One turn of the search, with the judgement of its branch left abstract.
  lemma BestStep(c: Components, rank: Heights, path: string, bs: seq<Json>, v: Json, bound: nat)
    requires Ranked(c, rank) && Below(rank, bs, bound) && bs != []
    ensures var before, after := Best(c, rank, path, bs[..|bs| - 1], v, bound), Best(c, rank, path, bs, v, bound);
            var tried := Report(c, rank, path, bs[|bs| - 1], v);
            if NullOnly(Flatten(c, bs[|bs| - 1], 0)) || (before.Some? && !Better(tried, before.value)) then after == before
            else after == Some(tried)
  {
    hide Report, Flatten, Better, NullOnly;
  }

  /** The checker is sound and complete: it reports no error exactly when the value conforms. */
  lemma {:induction false} IsSound(c: Components, rank: Heights, path: string, s: Json, v: Json)
    requires Ranked(c, rank) && s in rank
    ensures CountOf(Report(c, rank, path, s, v), Error) == 0 <==> Conforms(c, rank, s, v)
    decreases v, rank[s], 2, 0
  {
    hide Flatten, Types, Branches, TypeFits, Lookup, Best, FieldNotes, ItemNotes, MissingNotes, Nullable, CountOf, EmptyNote, FieldSchema, ItemSchema, FieldsConform, ItemsConform, AllSupplied;
    var m := Flatten(c, s, 0);
    var report := Report(c, rank, path, s, v);
    if m == [] {
      CountOfNone(Error);
    } else if Deep(m) || v == Null {
      CountOfOne(report[0], Error);
    } else if Branches(m) != [] {
      BestIsSound(c, rank, path, Branches(m), v, rank[s]);
      CountOfOne(Note(Error, path, OnlyNull), Error);
    } else if !TypeFits(Types(m), v) {
      CountOfOne(report[0], Error);
    } else if v.Obj? {
      var required := ItemsOf(Lookup(m, "required"));
      MissingIsSound(path, required, v.fields);
      FieldsAreSound(c, rank, path, m, v, |v.fields|);
      CountOfAppend(MissingNotes(path, required, v.fields), FieldNotes(c, rank, path, m, v, |v.fields|), Error);
    } else if v.Arr? {
      ItemsAreSound(c, rank, path, m, v, |v.items|);
      CountOfAppend(EmptyNote(path, v.items), ItemNotes(c, rank, path, m, v, |v.items|), Error);
      EmptyIsNoError(path, v.items);
    } else {
      CountOfNone(Error);
    }
  }

  lemma EmptyIsNoError(path: string, items: seq<Json>)
    ensures CountOf(EmptyNote(path, items), Error) == 0
  {
    CountOfOne(Note(Info, path, EmptyArray), Error);
  }

  lemma CountOfOne(n: Note, sev: Severity)
    ensures CountOf([n], sev) == if n.severity == sev then 1 else 0
  {
    assert [n][..0] == [];
  }

  lemma CountOfNone(sev: Severity)
    ensures CountOf([], sev) == 0
  {
  }

  // Fewer errors, or as many errors and no more warnings.
  predicate NoWorse(a: seq<Note>, b: seq<Note>) {
    CountOf(a, Error) <= CountOf(b, Error) && (CountOf(a, Error) == CountOf(b, Error) ==> CountOf(a, Warn) <= CountOf(b, Warn))
  }

  lemma NoWorseIsBetter(a: seq<Note>, b: seq<Note>)
    ensures NoWorse(a, b) <==> !Better(b, a)
  {
    hide CountOf;
  }

  // Branch i fits no worse than any other branch tried, and better than every earlier one.
  ghost predicate FirstMinimum(c: Components, rank: Heights, path: string, bs: seq<Json>, v: Json, i: nat)
    requires Ranked(c, rank) && Known(rank, bs) && i < |bs|
  {
    && !NullOnly(Flatten(c, bs[i], 0))
    && (forall j :: 0 <= j < |bs| && !NullOnly(Flatten(c, bs[j], 0)) ==>
          && NoWorse(Report(c, rank, path, bs[i], v), Report(c, rank, path, bs[j], v))
          && (j < i ==> !NoWorse(Report(c, rank, path, bs[j], v), Report(c, rank, path, bs[i], v))))
  }

  lemma BetterIsOrder(a: seq<Note>, b: seq<Note>, d: seq<Note>)
    ensures Better(a, b) && NoWorse(b, d) ==> Better(a, d)
    ensures Better(a, b) ==> !Better(b, a)
    ensures NoWorse(a, b) <==> !Better(b, a)
  {
    hide CountOf;
  }

  // The minimum of the branches before the last, and what the last makes of it.
  lemma FirstMinimumStep(c: Components, rank: Heights, path: string, bs: seq<Json>, v: Json, i: nat)
    requires Ranked(c, rank) && Known(rank, bs) && i < |bs| - 1 && FirstMinimum(c, rank, path, bs[..|bs| - 1], v, i)
    ensures var n := |bs| - 1;
            if NullOnly(Flatten(c, bs[n], 0)) || !Better(Report(c, rank, path, bs[n], v), Report(c, rank, path, bs[i], v))
            then FirstMinimum(c, rank, path, bs, v, i)
            else FirstMinimum(c, rank, path, bs, v, n)
  {
    hide Ranked, Report, Flatten, NullOnly, Better, NoWorse;
    var n := |bs| - 1;
    assert forall j :: 0 <= j < n ==> bs[..n][j] == bs[j];
    BetterIsOrder(Report(c, rank, path, bs[n], v), Report(c, rank, path, bs[i], v), []);
    BetterIsOrder(Report(c, rank, path, bs[i], v), Report(c, rank, path, bs[n], v), []);
    forall j | 0 <= j < n && !NullOnly(Flatten(c, bs[j], 0))
      ensures NoWorse(Report(c, rank, path, bs[i], v), Report(c, rank, path, bs[j], v))
    {
      assert bs[..n][j] == bs[j];
    }
    BetterIsOrder(Report(c, rank, path, bs[n], v), Report(c, rank, path, bs[n], v), []);
    forall j | 0 <= j < n && !NullOnly(Flatten(c, bs[j], 0))
      ensures Better(Report(c, rank, path, bs[n], v), Report(c, rank, path, bs[i], v)) ==>
                && NoWorse(Report(c, rank, path, bs[n], v), Report(c, rank, path, bs[j], v))
                && !NoWorse(Report(c, rank, path, bs[j], v), Report(c, rank, path, bs[n], v))
    {
      BetterIsOrder(Report(c, rank, path, bs[n], v), Report(c, rank, path, bs[i], v), Report(c, rank, path, bs[j], v));
      BetterIsOrder(Report(c, rank, path, bs[n], v), Report(c, rank, path, bs[j], v), []);
      BetterIsOrder(Report(c, rank, path, bs[j], v), Report(c, rank, path, bs[n], v), []);
    }
  }

  /** The branch reported is the first lexicographic minimum of (errors, warnings), and
      none is reported only if every branch is null only. */
  lemma {:induction false} BestIsFirstMinimum(c: Components, rank: Heights, path: string, bs: seq<Json>, v: Json, bound: nat)
    returns (i: nat)
    requires Ranked(c, rank) && Below(rank, bs, bound)
    ensures Best(c, rank, path, bs, v, bound).None? <==>
            forall j :: 0 <= j < |bs| ==> NullOnly(Flatten(c, bs[j], 0))
    ensures Best(c, rank, path, bs, v, bound).Some? ==>
              && i < |bs| && FirstMinimum(c, rank, path, bs, v, i)
              && Best(c, rank, path, bs, v, bound).value == Report(c, rank, path, bs[i], v)
  {
    hide Ranked, Report, Flatten, NullOnly, CountOf;
    i := 0;
    if bs != [] {
      var n := |bs| - 1;
      var prefix := bs[..n];
      i := BestIsFirstMinimum(c, rank, path, prefix, v, bound);
      assert forall j :: 0 <= j < n ==> prefix[j] == bs[j];
      BestStep(c, rank, path, bs, v, bound);
      hide Best, Better;
      var before := Best(c, rank, path, prefix, v, bound);
      if before.None? {
        BetterIsOrder(Report(c, rank, path, bs[n], v), Report(c, rank, path, bs[n], v), []);
        i := n;
      } else {
        FirstMinimumStep(c, rank, path, bs, v, i);
        hide FirstMinimum;
        if !NullOnly(Flatten(c, bs[n], 0)) && Better(Report(c, rank, path, bs[n], v), before.value) {
          i := n;
        }
      }
    }
  }
}
