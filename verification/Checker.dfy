/** The checker object (internal/conformance/check.go): a recursive walk that adds what it
    finds to a list of counted findings. */
module Checkers {
  import opened Wrappers
  import opened Schemas
  import opened Conformance
  import opened Findings
  import opened Sorting

  /** flatten's loops compute Flatten. */
  method FlattenSchema(c: Components, s: Json, depth: nat) returns (m: Schema)
    ensures m == Flatten(c, s, depth)
    decreases MAX_DEPTH + 1 - depth, 0
  {
    hide Merged, FlattenAll, Lookup, Component;
    if !s.Obj? { return []; }
    if depth > MAX_DEPTH { return TOO_DEEP; }
    var ref := Lookup(s.fields, "$ref");
    if ref.Str? {
      m := FlattenSchema(c, Component(c, ref.s), depth + 1);
      return;
    }
    var allOf := Lookup(s.fields, "allOf");
    if !allOf.Arr? { return s.fields; }
    var parts := FlattenParts(c, allOf.items, depth + 1);
    m := MergeParts([s.fields] + parts);
  }

  method FlattenParts(c: Components, all: seq<Json>, depth: nat) returns (parts: seq<Schema>)
    requires depth <= MAX_DEPTH + 1
    ensures parts == FlattenAll(c, all, depth)
    decreases MAX_DEPTH + 1 - depth, 1
  {
    hide Flatten;
    parts := [];
    var i := 0;
    while i < |all|
      invariant i <= |all| && parts == FlattenAll(c, all[..i], depth)
    {
      assert all[..i + 1][..i] == all[..i];
      var part := FlattenSchema(c, all[i], depth);
      parts := parts + [part];
      i := i + 1;
    }
    assert all[..i] == all;
  }

  method MergeParts(parts: seq<Schema>) returns (m: Schema)
    ensures m == Merged(parts)
  {
    hide TakeNew, PutAll, Put, PropertiesOf, RequiredOf;
    var keys, props, required := [], [], [];
    var i := 0;
    while i < |parts|
      invariant i <= |parts|
      invariant keys == MergedKeys(parts[..i])
      invariant props == MergedProperties(parts[..i])
      invariant required == MergedRequired(parts[..i])
    {
      assert parts[..i + 1][..i] == parts[..i];
      keys := AddNewKeys(keys, parts[i]);
      props := PutProperties(props, PropertiesOf(parts[i]));
      required := required + RequiredOf(parts[i]);
      i := i + 1;
    }
    assert parts[..i] == parts;
    m := keys;
    if |props| > 0 { m := Put(m, "properties", Obj(props)); }
    if |required| > 0 { m := Put(m, "required", Arr(required)); }
  }

  method AddNewKeys(out: Schema, part: Schema) returns (keys: Schema)
    ensures keys == TakeNew(out, part)
  {
    keys := out;
    var i := 0;
    while i < |part|
      invariant i <= |part|
      invariant keys == TakeNew(out, part[..i])
    {
      assert part[..i + 1][..i] == part[..i];
      if !Has(keys, part[i].key) && part[i].key != "allOf" {
        keys := keys + [part[i]];
      }
      i := i + 1;
    }
    assert part[..i] == part;
  }

  method PutProperties(out: Schema, part: Schema) returns (props: Schema)
    ensures props == PutAll(out, part)
  {
    props := out;
    var i := 0;
    while i < |part|
      invariant i <= |part|
      invariant props == PutAll(out, part[..i])
    {
      assert part[..i + 1][..i] == part[..i];
      props := Put(props, part[i].key, part[i].val);
      i := i + 1;
    }
    assert part[..i] == part;
  }

  /** nullable: the search stops at the first branch that permits null. */
  method IsNullable(c: Components, ghost rank: Heights, ghost s: Json, m: Schema) returns (yes: bool)
    requires Ranked(c, rank) && s in rank && m == Flatten(c, s, 0)
    ensures yes == Nullable(c, rank, s)
    decreases rank[s]
  {
    hide Flatten, Types, Branches;
    if "null" in Types(m) { return true; }
    var bs := Branches(m);
    var i := 0;
    while i < |bs|
      invariant i <= |bs|
      invariant forall j: nat :: j < i ==> !Nullable(c, rank, bs[j])
    {
      var f := FlattenSchema(c, bs[i], 0);
      yes := IsNullable(c, rank, bs[i], f);
      if yes { return; }
      i := i + 1;
    }
    yes := false;
  }

  class Checker {
    const schemas: Components
    var out: seq<Finding>

    constructor (schemas: Components)
      ensures this.schemas == schemas && out == []
    {
      this.schemas, out := schemas, [];
    }

    method Add(severity: Severity, path: string, msg: Msg)
      modifies this
      ensures out == Merge(old(out), Note(severity, path, msg))
    {
      var note := Note(severity, path, msg);
      var i := 0;
      while i < |out|
        invariant i <= |out| && out == old(out)
        invariant Merge(out, note) == out[..i] + Merge(out[i..], note)
      {
        if out[i].note == note {
          out := out[i := out[i].(n := out[i].n + 1)];
          return;
        }
        assert out[i..][1..] == out[i + 1..];
        assert out[..i + 1] == out[..i] + [out[i]];
        i := i + 1;
      }
      assert out[..i] == out && out[i..] == [];
      out := out + [Finding(note, 1)];
    }

    method Count(severity: Severity) returns (n: nat)
      ensures n == Total(out, severity)
    {
      n := 0;
      var i := 0;
      while i < |out|
        invariant i <= |out|
        invariant n + Total(out[i..], severity) == Total(out, severity)
      {
        assert out[i..][1..] == out[i + 1..];
        if out[i].note.severity == severity { n := n + out[i].n; }
        i := i + 1;
      }
    }

    /** walk adds the report of v against s, note by note. */
    method Walk(path: string, s: Json, v: Json, ghost rank: Heights)
      requires Ranked(schemas, rank) && s in rank
      modifies this
      ensures out == MergeAll(old(out), Report(schemas, rank, path, s, v))
      decreases v, rank[s], 2, 0
    {
      hide Flatten, Types, Branches, TypeFits, Nullable, Deep, Best, FieldNotes, ItemNotes, MissingNotes, Merge, Ranked;
      var m := FlattenSchema(schemas, s, 0);
      if |m| == 0 { return; }
      if Deep(m) {
        Add(Warn, path, TooDeep);
        MergeOne(old(out), Note(Warn, path, TooDeep));
        return;
      }
      if v == Null {
        var ok := IsNullable(schemas, rank, s, m);
        if ok {
          Add(Info, path, NullPermitted);
          MergeOne(old(out), Note(Info, path, NullPermitted));
        } else {
          Add(Error, path, NullForbidden);
          MergeOne(old(out), Note(Error, path, NullForbidden));
        }
        return;
      }
      var b := Branches(m);
      RankedLeads(schemas, rank, s);
      if |b| > 0 {
        WalkBranches(path, b, v, rank, rank[s]);
        return;
      }
      if !TypeFits(Types(m), v) {
        Add(Error, path, WrongType(Kind(v), Types(m) - {"null"}));
        MergeOne(old(out), Note(Error, path, WrongType(Kind(v), Types(m) - {"null"})));
        return;
      }
      if v.Obj? {
        WalkObject(path, m, v, rank);
      } else if v.Arr? {
        WalkArray(path, m, v, rank);
      }
    }

    method WalkObject(path: string, m: Schema, v: Json, ghost rank: Heights)
      requires Ranked(schemas, rank) && PartsKnown(rank, m) && v.Obj?
      modifies this
      ensures out == MergeAll(old(out),
                              MissingNotes(path, RequiredOf(m), v.fields) + FieldNotes(schemas, rank, path, m, v, |v.fields|))
      decreases v, 0, 1
    {
      hide Merge, MergeAll, FieldNotesAt, Ranked, FieldSchema, Report, RequiredOf;
      AddMissing(path, RequiredOf(m), v.fields);
      ghost var missing := MissingNotes(path, RequiredOf(m), v.fields);
      var i := 0;
      MergeNone(out);
      while i < |v.fields|
        invariant i <= |v.fields|
        invariant out == MergeAll(MergeAll(old(out), missing), FieldNotes(schemas, rank, path, m, v, i))
      {
        ghost var before := out;
        WalkField(path, m, v, i, rank);
        MergeAllAppend(MergeAll(old(out), missing), FieldNotes(schemas, rank, path, m, v, i), FieldNotesAt(schemas, rank, path, m, v, i));
        i := i + 1;
      }
      MergeAllAppend(old(out), missing, FieldNotes(schemas, rank, path, m, v, |v.fields|));
    }

    method AddMissing(path: string, required: seq<Json>, fields: seq<Field>)
      modifies this
      ensures out == MergeAll(old(out), MissingNotes(path, required, fields))
    {
      hide Merge, Has, Join;
      var i := 0;
      MergeNone(out);
      while i < |required|
        invariant i <= |required|
        invariant out == MergeAll(old(out), MissingNotes(path, required[..i], fields))
      {
        assert required[..i + 1][..i] == required[..i];
        var r := required[i];
        if r.Str? && r.s != "" && !Has(fields, r.s) {
          Add(Error, Join(path, r.s), Absent);
          MergeLast(old(out), MissingNotes(path, required[..i], fields), Note(Error, Join(path, r.s), Absent));
        } else {
          assert MissingNotes(path, required[..i + 1], fields) == MissingNotes(path, required[..i], fields);
        }
        i := i + 1;
      }
      assert required[..i] == required;
    }

    method WalkField(path: string, m: Schema, v: Json, i: nat, ghost rank: Heights)
      requires Ranked(schemas, rank) && PartsKnown(rank, m) && v.Obj? && i < |v.fields|
      modifies this
      ensures out == MergeAll(old(out), FieldNotesAt(schemas, rank, path, m, v, i))
      decreases v, 0, 0, i
    {
      hide Ranked, Report, Join, Merge, Lookup, Has, PropertiesOf;
      var f := v.fields[i];
      var props := PropertiesOf(m);
      var extra := Lookup(m, "additionalProperties");
      assert FieldSchema(m, f.key).Some? ==> FieldSchema(m, f.key).value in rank;
      if Has(props, f.key) {
        Walk(Join(path, f.key), Lookup(props, f.key), f.val, rank);
      } else if extra.Obj? {
        Walk(Join(path, "{}"), extra, f.val, rank);
      } else if Lookup(m, "properties").Obj? && extra == Null {
        Add(Warn, Join(path, f.key), Undeclared);
        MergeOne(old(out), Note(Warn, Join(path, f.key), Undeclared));
      }
    }

    method WalkArray(path: string, m: Schema, v: Json, ghost rank: Heights)
      requires Ranked(schemas, rank) && PartsKnown(rank, m) && v.Arr?
      modifies this
      ensures out == MergeAll(old(out), EmptyNote(path, v.items) + ItemNotes(schemas, rank, path, m, v, |v.items|))
      decreases v, 0, 1
    {
      hide Merge, MergeAll, ItemNotesAt, Ranked, Report, Lookup;
      MergeNone(out);
      if |v.items| == 0 && path != "" {
        Add(Info, path, EmptyArray);
        MergeOne(old(out), Note(Info, path, EmptyArray));
      }
      ghost var empty := EmptyNote(path, v.items);
      var i := 0;
      MergeNone(out);
      while i < |v.items|
        invariant i <= |v.items|
        invariant out == MergeAll(MergeAll(old(out), empty), ItemNotes(schemas, rank, path, m, v, i))
      {
        WalkItem(path, m, v, i, rank);
        MergeAllAppend(MergeAll(old(out), empty), ItemNotes(schemas, rank, path, m, v, i), ItemNotesAt(schemas, rank, path, m, v, i));
        i := i + 1;
      }
      MergeAllAppend(old(out), empty, ItemNotes(schemas, rank, path, m, v, |v.items|));
    }

    method WalkItem(path: string, m: Schema, v: Json, i: nat, ghost rank: Heights)
      requires Ranked(schemas, rank) && PartsKnown(rank, m) && v.Arr? && i < |v.items|
      modifies this
      ensures out == MergeAll(old(out), ItemNotesAt(schemas, rank, path, m, v, i))
      decreases v, 0, 0, i
    {
      hide Ranked, Report, Join, Indexed, Merge, Lookup;
      var prefix := Lookup(m, "prefixItems");
      assert ItemSchema(m, i).Some? ==> ItemSchema(m, i).value in rank;
      if prefix.Arr? {
        if i < |prefix.items| {
          Walk(Indexed(path, i), prefix.items[i], v.items[i], rank);
        }
      } else {
        Walk(Join(path, "[]"), Lookup(m, "items"), v.items[i], rank);
      }
    }

    /** walkBranches judges every branch with a checker of its own and replays the best. */
    method WalkBranches(path: string, bs: seq<Json>, v: Json, ghost rank: Heights, ghost bound: nat)
      requires Ranked(schemas, rank) && Below(rank, bs, bound)
      modifies this
      ensures out == MergeAll(old(out), Chosen(path, Best(schemas, rank, path, bs, v, bound)))
      decreases v, bound, 1, |bs|
    {
      hide Ranked, Report, Flatten, Merge, MergeAll, Types;
      var best: Checker? := null;
      var i := 0;
      while i < |bs|
        invariant i <= |bs| && out == old(out) && Below(rank, bs[..i], bound)
        invariant best == null <==> Best(schemas, rank, path, bs[..i], v, bound).None?
        invariant best != null ==>
          fresh(best) && best.out == MergeAll([], Best(schemas, rank, path, bs[..i], v, bound).value)
      {
        BestStep(schemas, rank, path, bs[..i + 1], v, bound);
        assert bs[..i + 1][..i] == bs[..i];
        var f := FlattenSchema(schemas, bs[i], 0);
        if !NullOnly(f) {
          var tried := Try(path, bs[i], v, rank);
          var replace := best == null;
          if !replace {
            replace := Fits(tried, best, Report(schemas, rank, path, bs[i], v), Best(schemas, rank, path, bs[..i], v, bound).value);
          }
          if replace { best := tried; }
        }
        i := i + 1;
      }
      assert bs[..i] == bs;
      if best == null {
        Add(Error, path, OnlyNull);
        MergeOne(old(out), Note(Error, path, OnlyNull));
        return;
      }
      ReplayFrom(best, Best(schemas, rank, path, bs, v, bound).value);
    }

    method Try(path: string, branch: Json, v: Json, ghost rank: Heights) returns (tried: Checker)
      requires Ranked(schemas, rank) && branch in rank
      ensures fresh(tried) && tried.schemas == schemas
      ensures tried.out == MergeAll([], Report(schemas, rank, path, branch, v))
      decreases v, rank[branch], 3
    {
      hide Ranked, Report;
      tried := new Checker(schemas);
      tried.Walk(path, branch, v, rank);
    }

    static method Fits(tried: Checker, best: Checker, ghost a: seq<Note>, ghost b: seq<Note>) returns (better: bool)
      requires tried.out == MergeAll([], a) && best.out == MergeAll([], b)
      ensures better == Better(a, b)
    {
      MergingConservesCounts([], a, Error);
      MergingConservesCounts([], a, Warn);
      MergingConservesCounts([], b, Error);
      MergingConservesCounts([], b, Warn);
      hide MergeAll, CountOf;
      var errors := tried.Count(Error);
      var bestErrors := best.Count(Error);
      var warnings := tried.Count(Warn);
      var bestWarnings := best.Count(Warn);
      better := errors < bestErrors || (errors == bestErrors && warnings < bestWarnings);
    }

    method ReplayFrom(best: Checker, ghost notes: seq<Note>)
      requires best != this && best.out == MergeAll([], notes)
      modifies this
      ensures out == MergeAll(old(out), notes)
    {
      hide Merge;
      ReplayIsFaithful(out, notes);
      var i := 0;
      while i < |best.out|
        invariant i <= |best.out|
        invariant MergeAll(out, Replay(best.out[i..])) == MergeAll(old(out), notes)
      {
        AddTimes(best.out[i]);
        assert best.out[i..] == [best.out[i]] + best.out[i + 1..];
        i := i + 1;
      }
    }

    method AddTimes(f: Finding)
      modifies this
      ensures forall rest: seq<Finding> :: MergeAll(out, Replay(rest)) == MergeAll(old(out), Replay([f] + rest))
    {
      hide Merge;
      var k := 0;
      while k < f.n
        invariant k <= f.n
        invariant out == MergeAll(old(out), Copies(f.note, k))
      {
        CopiesSeen(old(out), f.note, k);
        Add(f.note.severity, f.note.path, f.note.msg);
        k := k + 1;
      }
      forall rest: seq<Finding> ensures MergeAll(out, Replay(rest)) == MergeAll(old(out), Replay([f] + rest)) {
        ReplaySplit(old(out), f, rest);
      }
    }
  }

  lemma MergeNone(out: seq<Finding>)
    ensures MergeAll(out, []) == out
  {
  }

  lemma MergeOne(out: seq<Finding>, note: Note)
    ensures MergeAll(out, [note]) == Merge(out, note)
  {
    MergeLast(out, [], note);
    assert [] + [note] == [note];
  }

  lemma MergeLast(out: seq<Finding>, notes: seq<Note>, note: Note)
    ensures MergeAll(out, notes + [note]) == Merge(MergeAll(out, notes), note)
  {
    assert (notes + [note])[..|notes + [note]| - 1] == notes;
  }

  lemma RankedLeads(c: Components, rank: Heights, s: Json)
    requires Ranked(c, rank) && s in rank
    ensures Leads(c, rank, s)
  {
  }

  /** How many items a response holds: the elements of a list or a map, else one. */
  function ItemCount(m: Schema, v: Json): nat {
    match v
    case Null => 0
    case Arr(items) => |items|
    case Obj(fields) => if Lookup(m, "properties") != Null && |fields| > 0 then 1 else |fields|
    case _ => 1
  }

  /** Check: a response has no error counted against it exactly when it is JSON and conforms. The
      findings are those of the report, merged, gravest first and then by path, and otherwise
      in the order they were found. */
  method Check(c: Components, ghost rank: Heights, s: Json, body: Option<Json>) returns (items: nat, found: seq<Finding>)
    requires Ranked(c, rank) && s in rank
    ensures Total(found, Error) == 0 <==> body.Some? && Conforms(c, rank, s, body.value)
    ensures body.None? ==> items == 0 && found == [Finding(Note(Error, "", NotJson), 1)]
    ensures body.Some? ==>
              && (forall sev :: Total(found, sev) == CountOf(Report(c, rank, "", s, body.value), sev))
              && IsStableSort(found, MergeAll([], Report(c, rank, "", s, body.value)))
    ensures Distinct(found)
    ensures items == 0 <==> body in {None, Some(Null), Some(Arr([])), Some(Obj([]))}
    ensures body.Some? && body.value.Arr? ==> items == |body.value.items|
    ensures body.Some? && body.value.Obj? && body.value.fields != [] ==>
              items == if Lookup(Flatten(c, s, 0), "properties") != Null then 1 else |body.value.fields|
    ensures body.Some? && (body.value.Bool? || body.value.Number? || body.value.Str?) ==> items == 1
  {
    hide Ranked, Report, Conforms, MergeAll, Flatten, CountOf, Sorted, Total, Distinct, IsStableSort;
    var checker := new Checker(c);
    if body.None? {
      checker.Add(Error, "", NotJson);
      OneError(checker.out);
      return 0, checker.out;
    }
    var v := body.value;
    checker.Walk("", s, v, rank);
    var m := FlattenSchema(c, s, 0);
    items := ItemCount(m, v);
    found := Sorted(checker.out);
    IsSound(c, rank, "", s, v);
    EntriesAreDistinct(Report(c, rank, "", s, v));
    SortedIsStableSort(checker.out);
    SortOrders(checker.out);
    RearrangedStayDistinct(checker.out, found);
    forall sev ensures Total(found, sev) == CountOf(Report(c, rank, "", s, v), sev) {
      MergingConservesCounts([], Report(c, rank, "", s, v), sev);
      NothingCounts(sev);
      SortIsStable(checker.out, Finding(Note(sev, "", NotJson), 0), sev);
    }
  }

  lemma OneError(out: seq<Finding>)
    requires out == Merge([], Note(Error, "", NotJson))
    ensures out == [Finding(Note(Error, "", NotJson), 1)] && Total(out, Error) == 1 && Distinct(out)
  {
  }

  lemma NothingCounts(sev: Severity)
    ensures Total([], sev) == 0
  {
  }
}
