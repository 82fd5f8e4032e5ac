/** How findings merge (internal/conformance/check.go): the same deviation is one entry
    with a count, and entries keep the order they were first seen in. */
module Findings {
  import opened Conformance

  datatype Finding = Finding(note: Note, n: nat)

  // add
  function Merge(out: seq<Finding>, note: Note): seq<Finding> {
    if out == [] then [Finding(note, 1)]
    else if out[0].note == note then [out[0].(n := out[0].n + 1)] + out[1..]
    else [out[0]] + Merge(out[1..], note)
  }

  function MergeAll(out: seq<Finding>, notes: seq<Note>): seq<Finding> {
    if notes == [] then out else Merge(MergeAll(out, notes[..|notes| - 1]), notes[|notes| - 1])
  }

  // count
  function Total(out: seq<Finding>, sev: Severity): nat {
    if out == [] then 0 else (if out[0].note.severity == sev then out[0].n else 0) + Total(out[1..], sev)
  }

  predicate Seen(out: seq<Finding>, note: Note) { exists i :: 0 <= i < |out| && out[i].note == note }

  function Copies(note: Note, n: nat): seq<Note> { if n == 0 then [] else Copies(note, n - 1) + [note] }

  // The notes an entry stands for, over all entries in order.
  function Replay(out: seq<Finding>): seq<Note> {
    if out == [] then [] else Copies(out[0].note, out[0].n) + Replay(out[1..])
  }

  lemma {:induction false} TotalMerge(out: seq<Finding>, note: Note, sev: Severity)
    ensures Total(Merge(out, note), sev) == Total(out, sev) + (if note.severity == sev then 1 else 0)
  {
    if out == [] {
      assert Merge(out, note)[1..] == [];
    } else if out[0].note == note {
      assert Merge(out, note)[1..] == out[1..];
    } else {
      TotalMerge(out[1..], note, sev);
      assert Merge(out, note)[1..] == Merge(out[1..], note);
    }
  }

  /** Merging conserves counts: what is counted afterwards is what was counted before and
      what was reported since, severity by severity. */
  lemma {:induction false} MergingConservesCounts(out: seq<Finding>, notes: seq<Note>, sev: Severity)
    ensures Total(MergeAll(out, notes), sev) == Total(out, sev) + CountOf(notes, sev)
  {
    if notes != [] {
      MergingConservesCounts(out, notes[..|notes| - 1], sev);
      TotalMerge(MergeAll(out, notes[..|notes| - 1]), notes[|notes| - 1], sev);
    }
  }

  lemma {:induction false} MergeAllAppend(out: seq<Finding>, a: seq<Note>, b: seq<Note>)
    ensures MergeAll(out, a + b) == MergeAll(MergeAll(out, a), b)
  {
    if b == [] {
      assert a + b == a;
    } else {
      MergeAllAppend(out, a, b[..|b| - 1]);
      assert (a + b)[..|a + b| - 1] == a + b[..|b| - 1];
    }
  }

  lemma SeenSplit(out: seq<Finding>, note: Note)
    requires out != []
    ensures Seen(out, note) <==> out[0].note == note || Seen(out[1..], note)
  {
    if i :| 0 < i < |out| && out[i].note == note {
      assert out[1..][i - 1].note == note;
    }
    if i :| 0 <= i < |out[1..]| && out[1..][i].note == note {
      assert out[i + 1].note == note;
    }
  }

  lemma {:induction false} MergeSees(out: seq<Finding>, note: Note, other: Note)
    ensures Seen(Merge(out, note), other) <==> Seen(out, other) || note == other
  {
    SeenSplit(Merge(out, note), other);
    if out == [] {
      assert Merge(out, note)[1..] == [];
    } else {
      SeenSplit(out, other);
      if out[0].note == note {
        assert Merge(out, note)[1..] == out[1..];
      } else {
        MergeSees(out[1..], note, other);
        assert Merge(out, note)[1..] == Merge(out[1..], note);
      }
    }
  }

  // Counting a note that is already there may happen sooner or later.
  lemma {:induction false} SeenCommutes(out: seq<Finding>, note: Note, other: Note)
    requires Seen(out, note)
    ensures Merge(Merge(out, note), other) == Merge(Merge(out, other), note)
  {
    SeenSplit(out, note);
    var rest := out[1..];
    if out[0].note == note || out[0].note == other {
      assert forall x: Finding, m: Note {:trigger Merge([x] + rest, m)} ::
        ([x] + rest)[0] == x && ([x] + rest)[1..] == rest;
      assert forall x: Finding, m: Note {:trigger Merge([x] + Merge(rest, m), note)} :: ([x] + Merge(rest, m))[1..] == Merge(rest, m);
      assert forall x: Finding, m: Note {:trigger Merge([x] + Merge(rest, m), other)} :: ([x] + Merge(rest, m))[1..] == Merge(rest, m);
    } else {
      SeenCommutes(rest, note, other);
      assert Merge(out, note)[1..] == Merge(rest, note);
      assert Merge(out, other)[1..] == Merge(rest, other);
    }
  }

  lemma {:induction false} SeenSlides(out: seq<Finding>, note: Note, later: seq<Note>)
    requires Seen(out, note)
    ensures MergeAll(Merge(out, note), later) == Merge(MergeAll(out, later), note)
    ensures Seen(MergeAll(out, later), note)
  {
    hide Merge, Seen;
    if later != [] {
      var n := |later| - 1;
      SeenSlides(out, note, later[..n]);
      SeenCommutes(MergeAll(out, later[..n]), note, later[n]);
      MergeSees(MergeAll(out, later[..n]), later[n], note);
    }
  }

  lemma {:induction false} CopiesSeen(out: seq<Finding>, note: Note, n: nat)
    ensures MergeAll(out, Copies(note, n + 1)) == Merge(MergeAll(out, Copies(note, n)), note)
    ensures n > 0 ==> Seen(MergeAll(out, Copies(note, n)), note)
  {
    assert (Copies(note, n) + [note])[..n + 1 - 1] == Copies(note, n) by { CopiesLength(note, n); }
    CopiesLength(note, n + 1);
    if n > 0 {
      CopiesSeen(out, note, n - 1);
      MergeSees(MergeAll(out, Copies(note, n - 1)), note, note);
    }
  }

  lemma {:induction false} CopiesLength(note: Note, n: nat)
    ensures |Copies(note, n)| == n
  {
    if n > 0 {
      CopiesLength(note, n - 1);
    }
  }

  predicate Counted(out: seq<Finding>) { forall i :: 0 <= i < |out| ==> out[i].n > 0 }

  lemma ReplaySplit(out: seq<Finding>, f: Finding, rest: seq<Finding>)
    ensures MergeAll(out, Replay([f] + rest)) == MergeAll(MergeAll(out, Copies(f.note, f.n)), Replay(rest))
  {
    hide MergeAll, Copies;
    assert ([f] + rest)[1..] == rest;
    MergeAllAppend(out, Copies(f.note, f.n), Replay(rest));
  }

  lemma {:induction false} ReplayMerge(out: seq<Finding>, had: seq<Finding>, note: Note)
    requires Counted(had)
    ensures MergeAll(out, Replay(Merge(had, note))) == Merge(MergeAll(out, Replay(had)), note)
    ensures Counted(Merge(had, note))
    decreases had
  {
    hide Seen, MergeAll, Copies;
    if had == [] {
      ReplayOne(out, note);
    } else {
      var f, rest := had[0], had[1..];
      assert had == [f] + rest;
      hide Replay;
      ReplaySplit(out, f, rest);
      if f.note == note {
        ReplaySplit(out, f.(n := f.n + 1), rest);
        CopiesSeen(out, note, f.n);
        SeenSlides(MergeAll(out, Copies(note, f.n)), note, Replay(rest));
      } else {
        ReplaySplit(out, f, Merge(rest, note));
        ReplayMerge(MergeAll(out, Copies(f.note, f.n)), rest, note);
      }
    }
  }

  lemma ReplayOne(out: seq<Finding>, note: Note)
    ensures MergeAll(out, Replay([Finding(note, 1)])) == Merge(MergeAll(out, Replay([])), note)
  {
    assert [Finding(note, 1)][1..] == [];
    assert Copies(note, 1) == [note];
    assert Replay([Finding(note, 1)]) == [note];
    assert [note][..0] == [];
  }

  /** Findings gathered apart and then replayed count by count end up exactly as if they
      had been reported in place. */
  lemma {:induction false} ReplayIsFaithful(out: seq<Finding>, notes: seq<Note>)
    ensures MergeAll(out, Replay(MergeAll([], notes))) == MergeAll(out, notes)
    ensures Counted(MergeAll([], notes))
  {
    if notes != [] {
      var n := |notes| - 1;
      ReplayIsFaithful(out, notes[..n]);
      ReplayMerge(out, MergeAll([], notes[..n]), notes[n]);
    }
  }

  predicate Distinct(out: seq<Finding>) { forall i, j :: 0 <= i < j < |out| ==> out[i].note != out[j].note }

  /** One entry per deviation, however often it occurs. */
  lemma {:induction false} EntriesAreDistinct(notes: seq<Note>)
    ensures Distinct(MergeAll([], notes))
  {
    if notes != [] {
      var n := |notes| - 1;
      EntriesAreDistinct(notes[..n]);
      MergeKeepsDistinct(MergeAll([], notes[..n]), notes[n]);
    }
  }

  lemma {:induction false} MergeKeepsDistinct(out: seq<Finding>, note: Note)
    requires Distinct(out)
    ensures Distinct(Merge(out, note))
  {
    if out != [] && out[0].note != note {
      MergeKeepsDistinct(out[1..], note);
      if Seen(Merge(out[1..], note), out[0].note) {
        MergeSees(out[1..], note, out[0].note);
      }
    }
  }

  // Merge counts entry i once more.
  predicate CountsAt(out: seq<Finding>, note: Note, i: nat, merged: seq<Finding>) {
    i < |out| && out[i].note == note && merged == out[i := Finding(note, out[i].n + 1)]
  }

  /** Reporting what was seen before counts it where it stands; anything new goes last. */
  lemma {:induction false} MergeMeans(out: seq<Finding>, note: Note) returns (i: nat)
    ensures !Seen(out, note) ==> Merge(out, note) == out + [Finding(note, 1)]
    ensures Seen(out, note) ==> CountsAt(out, note, i, Merge(out, note))
  {
    i := 0;
    if out != [] {
      SeenSplit(out, note);
      hide Seen;
      assert out == [out[0]] + out[1..];
      if out[0].note == note {
        assert Merge(out, note) == out[0 := Finding(note, out[0].n + 1)];
      } else {
        var k := MergeMeans(out[1..], note);
        i := k + 1;
        var rest := Merge(out[1..], note);
        assert Merge(out, note) == [out[0]] + rest;
        hide Merge;
        if Seen(out, note) {
          assert [out[0]] + out[1..][k := Finding(note, out[k + 1].n + 1)] == out[k + 1 := Finding(note, out[k + 1].n + 1)];
        }
      }
    }
  }
}
