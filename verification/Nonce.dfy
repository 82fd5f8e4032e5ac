/** The nonce an agent key issues with every request (internal/signing/agent.go). Signers
    that run at once take the lock one after another, so a run is the clock readings in
    lock order, each read before the lock was taken and in no order at all. */
module Nonce {
  import opened Wrappers

  const WORD: nat := 0x1_0000_0000_0000_0000
  const HIGHEST: nat := WORD - 1

  // uint64(ts): a clock set before 1970 reads as a huge number.
  function Unsigned(ts: int): (u: nat)
    ensures u < WORD
  {
    ts % WORD
  }

  // max(last+1, uint64(ts)), where last+1 wraps.
  function Issue(last: nat, ts: int): (nonce: nat)
    ensures nonce < WORD
  {
    var next := (last + 1) % WORD;
    if next < Unsigned(ts) then Unsigned(ts) else next
  }

  predicate Contains(s: string, word: string) {
    word <= s || (s != "" && Contains(s[1..], word))
  }

  // The routes an agent key may not sign.
  predicate MovesFunds(verb: string, path: string) {
    path == "/transfers" || "/transfers/" <= path
    || (verb != "GET" && verb != "HEAD" && Contains(path, "withdraw"))
  }

  class Agent {
    var last: nat

    predicate Valid() reads this { last < WORD }

    constructor ()
      ensures Valid() && last == 0
    {
      last := 0;
    }

    // The part of Sign under the lock; a refused request takes no nonce.
    method Sign(verb: string, path: string, ts: int) returns (nonce: Option<nat>)
      requires Valid()
      modifies this
      ensures Valid()
      ensures nonce.None? <==> MovesFunds(verb, path)
      ensures nonce.None? ==> last == old(last)
      ensures nonce.Some? ==> nonce.value == last == Issue(old(last), ts)
      ensures nonce.Some? ==> (last > old(last) <==> old(last) != HIGHEST)
    {
      if MovesFunds(verb, path) { return None; }
      var next := if last == HIGHEST then 0 else last + 1;
      last := if next < Unsigned(ts) then Unsigned(ts) else next;
      nonce := Some(last);
    }
  }

  // The nonces of a run, from a given last one.
  function Nonces(last: nat, ts: seq<int>): (ns: seq<nat>)
    ensures |ns| == |ts|
  {
    if ts == [] then []
    else Nonces(last, ts[..|ts| - 1]) + [Issue(LastOf(last, ts[..|ts| - 1]), ts[|ts| - 1])]
  }

  function LastOf(last: nat, ts: seq<int>): nat {
    if ts == [] then last else Issue(LastOf(last, ts[..|ts| - 1]), ts[|ts| - 1])
  }

  // The closed form of the n-th nonce: n, or the highest of ts[i] + (n - 1 - i).
  function Highest(last: nat, ts: seq<int>): nat {
    if ts == [] then last
    else
      var before := Highest(last, ts[..|ts| - 1]) + 1;
      if before < Unsigned(ts[|ts| - 1]) then Unsigned(ts[|ts| - 1]) else before
  }

  /** Highest is the maximum it is named for: it is reached, and nothing passes it. */
  lemma {:induction false} HighestIsMaximum(last: nat, ts: seq<int>)
    ensures Highest(last, ts) >= last + |ts|
    ensures forall i :: 0 <= i < |ts| ==> Highest(last, ts) >= Unsigned(ts[i]) + (|ts| - 1 - i)
    ensures Highest(last, ts) == last + |ts|
            || exists i :: 0 <= i < |ts| && Highest(last, ts) == Unsigned(ts[i]) + (|ts| - 1 - i)
  {
    hide Unsigned;
    if ts != [] {
      var n := |ts| - 1;
      HighestIsMaximum(last, ts[..n]);
      assert forall i :: 0 <= i < n ==> ts[..n][i] == ts[i];
    }
  }

  /** The n-th nonce is the closed form exactly while the closed form fits 64 bits. */
  lemma {:induction false} ClosedForm(last: nat, ts: seq<int>)
    requires last < WORD
    ensures LastOf(last, ts) == Highest(last, ts) <==> Highest(last, ts) < WORD
    ensures LastOf(last, ts) < WORD
  {
    if ts != [] {
      ClosedForm(last, ts[..|ts| - 1]);
      hide Unsigned;
      var next := (LastOf(last, ts[..|ts| - 1]) + 1) % WORD;
      assert next == LastOf(last, ts[..|ts| - 1]) + 1 || next == 0;
    }
  }

  /** With clocks at or after 1970 the closed form fits 64 bits for any run that could happen. */
  lemma HonestClocksNeverWrap(ts: seq<int>)
    requires forall t :: t in ts ==> 0 <= t < WORD / 2
    requires |ts| <= WORD / 2
    ensures Highest(0, ts) < WORD && LastOf(0, ts) == Highest(0, ts)
  {
    HighestIsMaximum(0, ts);
    ClosedForm(0, ts);
    hide Highest, LastOf;
    if i :| 0 <= i < |ts| && Highest(0, ts) == Unsigned(ts[i]) + (|ts| - 1 - i) {
      assert ts[i] in ts;
    }
  }

  // Every nonce is above the last one and above every earlier one.
  predicate Rising(last: nat, ns: seq<nat>) {
    && (forall i :: 0 <= i < |ns| ==> last < ns[i])
    && (forall i, j :: 0 <= i < j < |ns| ==> ns[i] < ns[j])
  }

  /** The nonces of a run rise, so that none is issued twice, if and only if the closed form
      fits 64 bits. */
  lemma {:induction false} NoncesRise(last: nat, ts: seq<int>)
    requires last < WORD
    ensures Rising(last, Nonces(last, ts)) <==> Highest(last, ts) < WORD
    ensures Highest(last, ts) < WORD ==>
              LastOf(last, ts) == Highest(last, ts) && forall n :: n in Nonces(last, ts) ==> n <= LastOf(last, ts)
  {
    ClosedForm(last, ts);
    if ts != [] {
      var n := |ts| - 1;
      var before, next := Nonces(last, ts[..n]), LastOf(last, ts);
      NoncesRise(last, ts[..n]);
      assert Nonces(last, ts) == before + [next];
      assert Highest(last, ts) > Highest(last, ts[..n]);
      RisingPrefix(last, before, next);
      if Highest(last, ts[..n]) < WORD {
        NextIsHigherIffItFits(last, ts);
        HighestIsMaximum(last, ts[..n]);
        if n > 0 {
          LastNonce(last, ts[..n]);
        }
        hide Issue, Nonces, Unsigned, Highest, Rising;
        assert n > 0 ==> before[n - 1] in before;
      }
    }
  }

  lemma RisingPrefix(last: nat, ns: seq<nat>, n: nat)
    ensures Rising(last, ns + [n]) <==> Rising(last, ns) && last < n && forall m :: m in ns ==> m < n
  {
    var all := ns + [n];
    if Rising(last, all) {
      assert last < all[|ns|];
      forall i, j | 0 <= i < j < |ns| ensures ns[i] < ns[j] {
        assert all[i] < all[j];
      }
      forall i | 0 <= i < |ns| ensures last < ns[i] {
        assert last < all[i];
      }
      forall m | m in ns ensures m < n {
        var i :| 0 <= i < |ns| && ns[i] == m;
        assert all[i] < all[|ns|];
      }
    }
    if Rising(last, ns) && last < n && forall m :: m in ns ==> m < n {
      forall i, j | 0 <= i < j < |all| ensures all[i] < all[j] {
        assert ns[i] in ns;
      }
    }
  }

  // A nonce is above the one before exactly when the closed form still fits.
  lemma NextIsHigherIffItFits(last: nat, ts: seq<int>)
    requires last < WORD && ts != [] && Highest(last, ts[..|ts| - 1]) < WORD
    ensures LastOf(last, ts[..|ts| - 1]) < LastOf(last, ts) <==> Highest(last, ts) < WORD
  {
    ClosedForm(last, ts[..|ts| - 1]);
    ClosedForm(last, ts);
    hide Unsigned;
  }

  // The highest nonce of a run: the closed form, or the highest word once it wrapped.
  function Peak(ts: seq<int>): nat { if Highest(0, ts) < WORD then Highest(0, ts) else HIGHEST }

  lemma {:induction false} PeakIsReached(ts: seq<int>)
    requires ts != []
    ensures Peak(ts) in Nonces(0, ts) && forall n :: n in Nonces(0, ts) ==> n <= Peak(ts)
    ensures Peak(ts) > 0
  {
    var n := |ts| - 1;
    var before := Nonces(0, ts[..n]);
    HighestIsMaximum(0, ts);
    NoncesRise(0, ts);
    LastNonce(0, ts);
    NoncesFit(0, ts);
    assert Nonces(0, ts) == before + [LastOf(0, ts)];
    assert LastOf(0, ts) in Nonces(0, ts);
    if Highest(0, ts) >= WORD {
      assert Highest(0, ts) <= Highest(0, ts[..n]) + 1;
      if Highest(0, ts[..n]) < WORD {
        ClosedForm(0, ts[..n]);
        assert LastOf(0, ts[..n]) == HIGHEST;
        LastNonce(0, ts[..n]);
        assert HIGHEST == before[n - 1];
      } else {
        PeakIsReached(ts[..n]);
      }
      assert HIGHEST in before;
    }
  }

  lemma {:induction false} NoncesFit(last: nat, ts: seq<int>)
    ensures forall n :: n in Nonces(last, ts) ==> n < WORD
  {
    if ts != [] {
      NoncesFit(last, ts[..|ts| - 1]);
      hide Issue;
    }
  }

  // The first nonce of a run, and each one after the highest word, start from the clock alone.
  predicate StartsOver(ts: seq<int>, i: nat)
    requires i < |ts|
  {
    i == 0 || Nonces(0, ts)[i - 1] == HIGHEST
  }

  lemma {:induction false} NonceAt(ts: seq<int>, i: nat)
    requires i < |ts|
    ensures Nonces(0, ts)[i] == Issue(if i == 0 then 0 else Nonces(0, ts)[i - 1], ts[i])
  {
    if i < |ts| - 1 {
      NonceAt(ts[..|ts| - 1], i);
    } else if i > 0 {
      LastNonce(0, ts[..i]);
      assert ts[..|ts| - 1] == ts[..i];
    } else {
      assert ts[..0] == [];
    }
  }

  // Every time the second run starts over, its clock is past the first run.
  ghost predicate ClockIsPast(before: seq<int>, after: seq<int>) {
    forall i: nat :: i < |after| && StartsOver(after, i) ==> Peak(before) < Unsigned(after[i])
  }

  lemma {:induction false} StaysAboveFrom(before: seq<int>, after: seq<int>, i: nat)
    requires before != [] && i < |after| && ClockIsPast(before, after)
    ensures Peak(before) < Nonces(0, after)[i]
  {
    NonceAt(after, i);
    NoncesFit(0, after);
    if !StartsOver(after, i) {
      StaysAboveFrom(before, after, i - 1);
      assert Nonces(0, after)[i - 1] in Nonces(0, after);
    }
  }

  /** An issuer restarted from nothing stays above every nonce of the run before it if and only
      if its clock is past the highest of them whenever it starts over, or one of the two runs
      issues none. */
  lemma RestartStaysAbove(before: seq<int>, after: seq<int>)
    ensures (forall m, n :: m in Nonces(0, before) && n in Nonces(0, after) ==> m < n)
            <==> before == [] || ClockIsPast(before, after)
  {
    if before != [] {
      PeakIsReached(before);
      if ClockIsPast(before, after) {
        forall n | n in Nonces(0, after) ensures Peak(before) < n {
          var i :| 0 <= i < |after| && Nonces(0, after)[i] == n;
          StaysAboveFrom(before, after, i);
        }
      } else {
        var i: nat :| i < |after| && StartsOver(after, i) && Peak(before) >= Unsigned(after[i]);
        NonceAt(after, i);
        assert Nonces(0, after)[i] in Nonces(0, after) && Nonces(0, after)[i] <= Peak(before);
      }
    }
  }

  lemma LastNonce(last: nat, ts: seq<int>)
    requires ts != []
    ensures Nonces(last, ts)[|ts| - 1] == LastOf(last, ts)
  {
  }

  lemma {:induction false} FirstNonce(ts: seq<int>)
    requires ts != []
    ensures Nonces(0, ts)[0] == if Unsigned(ts[0]) == 0 then 1 else Unsigned(ts[0])
  {
    if |ts| > 1 {
      FirstNonce(ts[..|ts| - 1]);
    } else {
      assert ts[..0] == [];
    }
  }

  /** A clock before 1970 breaks the order: the nonce after it starts over. */
  lemma OldClockStartsOver(ts: int)
    requires 0 <= ts < WORD / 2
    ensures Nonces(0, [-1, ts]) == [HIGHEST, ts]
  {
    var run := [-1, ts];
    assert run[..1] == [-1] && run[..1][..0] == [];
    assert Unsigned(-1) == HIGHEST;
  }

  // --- the routes an agent key may not sign --------------------------------------------

  lemma {:induction false} ContainsAround(a: string, word: string, b: string)
    ensures Contains(a + word + b, word)
  {
    if a == [] {
      assert a + word + b == word + b;
    } else {
      ContainsAround(a[1..], word, b);
      assert (a + word + b)[1..] == a[1..] + word + b;
    }
  }

  lemma {:induction false} ContainedAt(s: string, word: string) returns (a: string, b: string)
    requires Contains(s, word)
    ensures s == a + word + b
  {
    if word <= s {
      a, b := [], s[|word|..];
    } else {
      a, b := ContainedAt(s[1..], word);
      a := [s[0]] + a;
    }
  }

  /** An agent key signs nothing under /transfers, and no write to a path with "withdraw" anywhere
      in it; it signs everything else, reads of withdrawals included. */
  lemma AgentsMoveNothing(verb: string, path: string)
    ensures MovesFunds(verb, path) <==>
              || path == "/transfers" || (exists rest :: path == "/transfers/" + rest)
              || (verb !in {"GET", "HEAD"} && exists a, b :: path == a + "withdraw" + b)
  {
    if "/transfers/" <= path {
      assert path == "/transfers/" + path[|"/transfers/"|..];
    }
    if Contains(path, "withdraw") {
      var a, b := ContainedAt(path, "withdraw");
    }
    if a, b :| path == a + "withdraw" + b {
      ContainsAround(a, "withdraw", b);
    }
    hide Contains;
  }
}
