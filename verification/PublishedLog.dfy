/** Slices of a channel's published log, which only grows and only upwards. */
module PublishedLog {
  import opened Resume

  ghost predicate Increasing(log: seq<nat>) {
    && (forall i, j :: 0 <= i < j < |log| ==> log[i] < log[j])
    && (log != [] ==> log[0] > 0)
  }

  lemma AllUpToHead(log: seq<nat>, i: nat)
    requires Increasing(log) && i < |log|
    ensures 0 < log[i] <= Head(log)
  {
  }

  lemma {:induction false} NothingBetween(log: seq<nat>, lo: nat, hi: nat)
    requires Increasing(log) && (lo >= Head(log) || lo >= hi)
    ensures Between(log, lo, hi) == []
  {
    if log != [] {
      var n := |log| - 1;
      NothingBetween(log[..n], lo, hi);
    }
  }

  lemma BetweenLast(log: seq<nat>, lo: nat, hi: nat)
    requires log != []
    ensures Between(log, lo, hi)
         == Between(log[..|log| - 1], lo, hi) + if lo < log[|log| - 1] <= hi then [log[|log| - 1]] else []
  {
  }

  lemma {:induction false} BetweenSplits(log: seq<nat>, lo: nat, mid: nat, hi: nat)
    requires Increasing(log) && lo <= mid <= hi
    ensures Between(log, lo, hi) == Between(log, lo, mid) + Between(log, mid, hi)
  {
    if log != [] {
      var n := |log| - 1;
      BetweenSplits(log[..n], lo, mid, hi);
      if log[n] <= mid {
        NothingBetween(log[..n], mid, hi);
      }
      BetweenLast(log, lo, mid);
      BetweenLast(log, lo, hi);
      BetweenLast(log, mid, hi);
      hide Between, Head, Increasing;
      var a, b := Between(log[..n], lo, mid), Between(log[..n], mid, hi);
      assert (a + b) + [log[n]] == a + (b + [log[n]]);
    }
  }

  lemma BetweenUpToHead(log: seq<nat>, lo: nat, hi: nat)
    requires Increasing(log) && hi >= Head(log)
    ensures Between(log, lo, hi) == Between(log, lo, Head(log))
  {
    NothingBetween(log, Head(log), hi);
    if lo <= Head(log) {
      BetweenSplits(log, lo, Head(log), hi);
    } else {
      NothingBetween(log, lo, hi);
      NothingBetween(log, lo, Head(log));
    }
  }

  // Publishing more leaves what is below the old head alone.
  lemma PublishKeepsBetween(log: seq<nat>, n: nat, lo: nat, hi: nat)
    requires Increasing(log) && n > Head(log)
    ensures Increasing(log + [n])
    ensures Between(log + [n], lo, hi) == Between(log, lo, hi) + if lo < n <= hi then [n] else []
  {
    var log' := log + [n];
    assert log'[..|log|] == log;
    forall i | 0 <= i < |log| ensures log[i] < n { AllUpToHead(log, i); }
  }

  // The newest entry directly follows the head before it.
  lemma NextAfterHead(log: seq<nat>, n: nat)
    requires Increasing(log) && n > Head(log)
    ensures Between(log + [n], Head(log), n) == [n]
  {
    PublishKeepsBetween(log, n, Head(log), n);
    NothingBetween(log, Head(log), n);
  }

  lemma BetweenSingle(log: seq<nat>, lo: nat, n: nat)
    requires Increasing(log) && Between(log, lo, n) == [n]
    ensures lo < n <= Head(log)
  {
    if n <= lo || lo >= Head(log) {
      NothingBetween(log, lo, n);
      assert false;
    }
    BetweenSplits(log, lo, if n < Head(log) then n else Head(log), if n < Head(log) then Head(log) else n);
    if n > Head(log) {
      BetweenUpToHead(log, lo, n);
      EntriesAreBounded(log, lo, Head(log), 0);
    }
  }

  lemma {:induction false} EntriesAreBounded(log: seq<nat>, lo: nat, hi: nat, i: nat)
    requires i < |Between(log, lo, hi)|
    ensures lo < Between(log, lo, hi)[i] <= hi
  {
    var n := |log| - 1;
    if i < |Between(log[..n], lo, hi)| {
      EntriesAreBounded(log[..n], lo, hi, i);
    }
  }
}
