/** The order findings are returned in (internal/conformance/check.go): the gravest first,
    then by path, and otherwise in the order they were found. */
module Sorting {
  import opened Conformance
  import opened Findings

  function Rank(s: Severity): nat {
    match s
    case Info => 0
    case Warn => 1
    case Error => 2
  }

  predicate PathLeq(a: string, b: string) {
    if a == "" then true
    else if b == "" then false
    else if a[0] != b[0] then a[0] < b[0]
    else PathLeq(a[1..], b[1..])
  }

  predicate Leq(a: Finding, b: Finding) {
    Rank(a.note.severity) > Rank(b.note.severity)
    || (a.note.severity == b.note.severity && PathLeq(a.note.path, b.note.path))
  }

  predicate Alike(a: Finding, b: Finding) { Leq(a, b) && Leq(b, a) }

  predicate Ordered(out: seq<Finding>) { forall i, j :: 0 <= i < j < |out| ==> Leq(out[i], out[j]) }

  // A finding goes after everything that may stay before it.
  function Insert(out: seq<Finding>, f: Finding): seq<Finding> {
    if out == [] then [f]
    else if Leq(out[0], f) then [out[0]] + Insert(out[1..], f)
    else [f] + out
  }

  function Sorted(found: seq<Finding>): seq<Finding> {
    if found == [] then [] else Insert(Sorted(found[..|found| - 1]), found[|found| - 1])
  }

  // The findings alike to x, in order.
  function AllAlike(out: seq<Finding>, x: Finding): seq<Finding> {
    if out == [] then [] else (if Alike(out[0], x) then [out[0]] else []) + AllAlike(out[1..], x)
  }

  lemma {:induction false} PathsCompare(a: string, b: string, c: string)
    ensures PathLeq(a, b) || PathLeq(b, a)
    ensures PathLeq(a, b) && PathLeq(b, c) ==> PathLeq(a, c)
  {
    if a != "" && b != "" {
      PathsCompare(a[1..], b[1..], if c == "" then "" else c[1..]);
    }
  }

  lemma LeqIsOrder(a: Finding, b: Finding, c: Finding)
    ensures Leq(a, b) || Leq(b, a)
    ensures Leq(a, b) && Leq(b, c) ==> Leq(a, c)
  {
    PathsCompare(a.note.path, b.note.path, c.note.path);
    hide PathLeq;
  }

  lemma {:induction false} InsertHolds(out: seq<Finding>, f: Finding)
    ensures multiset(Insert(out, f)) == multiset(out) + multiset{f}
    ensures |Insert(out, f)| == |out| + 1
  {
    hide Leq;
    if out != [] {
      assert out == [out[0]] + out[1..];
      InsertHolds(out[1..], f);
    }
  }

  lemma {:induction false} InsertOrders(out: seq<Finding>, f: Finding)
    requires Ordered(out)
    ensures Ordered(Insert(out, f))
  {
    hide Leq;
    if out != [] {
      LeqIsOrder(out[0], f, f);
      if Leq(out[0], f) {
        InsertOrders(out[1..], f);
        InsertHolds(out[1..], f);
        forall g | g in Insert(out[1..], f) ensures Leq(out[0], g) {
          assert g in multiset(Insert(out[1..], f));
        }
      } else {
        forall g | g in out ensures Leq(f, g) {
          LeqIsOrder(f, out[0], g);
        }
      }
    }
  }

  lemma {:induction false} NoneAlike(out: seq<Finding>, x: Finding)
    requires forall g :: g in out ==> !Alike(g, x)
    ensures AllAlike(out, x) == []
  {
    hide Alike;
    if out != [] {
      NoneAlike(out[1..], x);
    }
  }

  lemma {:induction false} InsertIsLastAlike(out: seq<Finding>, f: Finding, x: Finding)
    requires Ordered(out)
    ensures AllAlike(Insert(out, f), x) == AllAlike(out, x) + (if Alike(f, x) then [f] else [])
  {
    hide Leq;
    if out == [] {
      assert Insert(out, f)[1..] == [];
    } else if Leq(out[0], f) {
      InsertIsLastAlike(out[1..], f, x);
      assert Insert(out, f)[1..] == Insert(out[1..], f);
    } else {
      assert Insert(out, f)[1..] == out;
      if Alike(f, x) {
        forall g | g in out ensures !Alike(g, x) {
          LeqIsOrder(out[0], g, x);
          LeqIsOrder(out[0], x, f);
        }
        NoneAlike(out, x);
      }
    }
  }

  lemma {:induction false} TotalInsert(out: seq<Finding>, f: Finding, sev: Severity)
    ensures Total(Insert(out, f), sev) == Total(out, sev) + (if f.note.severity == sev then f.n else 0)
  {
    hide Leq;
    if out == [] {
      assert Insert(out, f)[1..] == [];
    } else if Leq(out[0], f) {
      TotalInsert(out[1..], f, sev);
      assert Insert(out, f)[1..] == Insert(out[1..], f);
    } else {
      assert Insert(out, f)[1..] == out;
    }
  }

  lemma {:induction false} TotalLast(out: seq<Finding>, f: Finding, sev: Severity)
    ensures Total(out + [f], sev) == Total(out, sev) + (if f.note.severity == sev then f.n else 0)
  {
    if out == [] {
      assert ([] + [f])[1..] == [];
    } else {
      TotalLast(out[1..], f, sev);
      assert (out + [f])[1..] == out[1..] + [f];
    }
  }

  lemma {:induction false} AllAlikeLast(out: seq<Finding>, f: Finding, x: Finding)
    ensures AllAlike(out + [f], x) == AllAlike(out, x) + (if Alike(f, x) then [f] else [])
  {
    hide Alike;
    if out == [] {
      assert ([] + [f])[1..] == [];
    } else {
      AllAlikeLast(out[1..], f, x);
      assert (out + [f])[1..] == out[1..] + [f];
    }
  }

  lemma {:induction false} SortOrders(found: seq<Finding>)
    ensures Ordered(Sorted(found)) && multiset(Sorted(found)) == multiset(found)
  {
    hide Insert, Ordered;
    if found != [] {
      var n := |found| - 1;
      SortOrders(found[..n]);
      assert found == found[..n] + [found[n]];
      InsertHolds(Sorted(found[..n]), found[n]);
      InsertOrders(Sorted(found[..n]), found[n]);
    } else {
      NothingIsOrdered();
    }
  }

  lemma NothingIsOrdered()
    ensures Ordered([])
  {
  }

  /** Sorting is stable and loses nothing: the result is ordered, holds the same findings, keeps
      alike ones in the order they were found, and counts the same. */
  lemma {:induction false} SortIsStable(found: seq<Finding>, x: Finding, sev: Severity)
    ensures Ordered(Sorted(found)) && multiset(Sorted(found)) == multiset(found)
    ensures AllAlike(Sorted(found), x) == AllAlike(found, x)
    ensures Total(Sorted(found), sev) == Total(found, sev)
  {
    hide Insert, Ordered, AllAlike, Total, Alike;
    SortOrders(found);
    if found != [] {
      var n := |found| - 1;
      SortIsStable(found[..n], x, sev);
      assert found == found[..n] + [found[n]];
      InsertIsLastAlike(Sorted(found[..n]), found[n], x);
      AllAlikeLast(found[..n], found[n], x);
      TotalInsert(Sorted(found[..n]), found[n], sev);
      TotalLast(found[..n], found[n], sev);
    }
  }

  // Distinct entries stay distinct under any rearrangement.
  lemma {:induction false} RearrangedStayDistinct(out: seq<Finding>, other: seq<Finding>)
    requires Distinct(out) && multiset(other) == multiset(out)
    ensures Distinct(other)
  {
    forall i, j | 0 <= i < j < |other| ensures other[i].note != other[j].note {
      AtMostOne(out, other[i].note);
      TwiceThere(other, i, j);
      assert other[i] in multiset(out) && other[j] in multiset(out);
    }
  }

  lemma {:induction false} AtMostOne(out: seq<Finding>, note: Note)
    requires Distinct(out)
    ensures forall f :: f in out && f.note == note ==> multiset(out)[f] == 1
    ensures forall f, g :: f in out && g in out && f.note == note == g.note ==> f == g
  {
    if out != [] {
      var n := |out| - 1;
      AtMostOne(out[..n], note);
      assert out == out[..n] + [out[n]];
    }
  }

  lemma TwiceThere(out: seq<Finding>, i: nat, j: nat)
    requires i < j < |out|
    ensures out[i] == out[j] ==> multiset(out)[out[i]] >= 2
  {
    assert out == out[..j] + [out[j]] + out[j + 1..];
    assert out[i] in out[..j];
  }

  // out is `found` put in order, alike findings as they were.
  ghost predicate IsStableSort(out: seq<Finding>, found: seq<Finding>) {
    && Ordered(out) && multiset(out) == multiset(found)
    && forall x :: AllAlike(out, x) == AllAlike(found, x)
  }

  lemma SortedIsStableSort(found: seq<Finding>)
    ensures IsStableSort(Sorted(found), found)
  {
    hide Sorted, Ordered, AllAlike;
    SortOrders(found);
    forall x ensures AllAlike(Sorted(found), x) == AllAlike(found, x) {
      SortIsStable(found, x, Error);
    }
  }

  // a comes before b in a dictionary, or is b: at the first letter in which they differ a has the
  // lower one, or a ends there.
  ghost predicate InDictionary(a: string, b: string) {
    exists k: nat :: FirstDifference(a, b, k)
  }

  predicate FirstDifference(a: string, b: string, k: nat) {
    k <= |a| && k <= |b| && a[..k] == b[..k] && (k == |a| || (k < |b| && a[k] < b[k]))
  }

  lemma {:induction false} PathLeqMeans(a: string, b: string)
    ensures PathLeq(a, b) ==> InDictionary(a, b)
  {
    if PathLeq(a, b) {
      if a == "" || a[0] != b[0] {
        assert FirstDifference(a, b, 0);
      } else {
        PathLeqMeans(a[1..], b[1..]);
        var k: nat :| FirstDifference(a[1..], b[1..], k);
        assert a == [a[0]] + a[1..] && b == [b[0]] + b[1..];
        assert a[..k + 1] == [a[0]] + a[1..][..k] && b[..k + 1] == [b[0]] + b[1..][..k];
        assert FirstDifference(a, b, k + 1);
      }
    }
  }

  /** Gravest first: what is returned holds every error before every warning and every warning
      before every note, and findings of one severity stand in the order of their paths. */
  lemma GravestFirst(found: seq<Finding>, i: nat, j: nat)
    requires i < j < |Sorted(found)|
    ensures var a, b := Sorted(found)[i].note, Sorted(found)[j].note;
            && (b.severity == Error ==> a.severity == Error)
            && (a.severity == Info ==> b.severity == Info)
            && (a.severity == b.severity ==> InDictionary(a.path, b.path))
  {
    SortOrders(found);
    PathLeqMeans(Sorted(found)[i].note.path, Sorted(found)[j].note.path);
    hide Sorted, PathLeq;
    assert Leq(Sorted(found)[i], Sorted(found)[j]);
  }
}
