/** When a cancelled reservation's refund is exact (internal/transport/ratelimit.go): whatever
    made it wait, exactly when no refill was lost to a full bucket in the meantime. */
module Refunds {
  import opened Numbers
  import opened RateLimit

  // The bucket with what has refilled by now written down.
  function Settled(b: Level, now: int): Level { b.(level := Refilled(b, now), at := now) }

  // Refill is lost before now: the bucket has been full for a while.
  predicate Overflows(b: Level, now: int) { b.level + (now - b.at) * b.limit > b.limit * SECOND }

  // p is q with `owed` nano-tokens fewer.
  ghost predicate Short(p: Level, q: Level, owed: int) {
    && p.limit == q.limit > 0 && p.at == q.at && Bounded(p) && Bounded(q)
    && owed >= 0 && p.level == q.level - owed
  }

  // A reservation keeps the shortfall, unless refill is lost: then it shrinks.
  lemma TakeShrinks(p: Level, q: Level, owed: int, weight: nat, now: int)
    returns (left: int)
    requires Short(p, q, owed) && q.at <= now && weight > 0
    ensures Short(Reserved(p, weight, now), Reserved(q, weight, now), left)
    ensures left <= owed && (owed > 0 ==> (left == owed <==> !Overflows(q, now)))
    ensures Reserved(q, weight, now).level < q.limit * SECOND
    ensures Reserved(q, weight, now).at == now && Reserved(q, weight, now).limit == q.limit
  {
    left := Refilled(q, now) - Refilled(p, now);
    RefilledBy(q, now);
    RefilledBy(p, now);
    assert Charge(q, weight) == Charge(p, weight) > 0;
    hide Refilled, Charge, Overflows, Gain;
  }

  // What `time` brings at `limit` per nanosecond.
  function Gain(time: int, limit: nat): int { time * limit }

  lemma GainAdds(time: int, more: int, limit: nat)
    ensures Gain(time + more, limit) == Gain(time, limit) + Gain(more, limit)
    ensures time >= 0 ==> Gain(time, limit) >= 0
    ensures Gain(0, limit) == 0
  {
  }

  // A refill adds what time brings, up to the limit.
  lemma RefilledBy(b: Level, now: int)
    requires b.at <= now && Bounded(b)
    ensures Refilled(b, now) == Min(b.limit * SECOND, b.level + Gain(now - b.at, b.limit))
    ensures Overflows(b, now) <==> b.level + Gain(now - b.at, b.limit) > b.limit * SECOND
    ensures Gain(now - b.at, b.limit) >= 0
  {
    GainAdds(now - b.at, 0, b.limit);
    assert (now - b.at) * b.limit == Gain(now - b.at, b.limit);
    hide Gain;
  }

  predicate InOrder(now: int, reqs: seq<Request>) {
    && (forall i :: 0 <= i < |reqs| ==> now <= reqs[i].now && reqs[i].weight > 0)
    && (forall i, j :: 0 <= i < j < |reqs| ==> reqs[i].now <= reqs[j].now)
  }

  function LastTime(now: int, reqs: seq<Request>): int { if reqs == [] then now else reqs[|reqs| - 1].now }

  ghost predicate NothingLost(q: Level, reqs: seq<Request>) {
    forall i :: 0 <= i < |reqs| ==> !Overflows(After(q, reqs[..i]), reqs[i].now)
  }

  lemma NothingLostLast(q: Level, reqs: seq<Request>)
    requires reqs != []
    ensures NothingLost(q, reqs) <==>
            NothingLost(q, reqs[..|reqs| - 1]) && !Overflows(After(q, reqs[..|reqs| - 1]), reqs[|reqs| - 1].now)
  {
    hide Overflows, After;
    var n := |reqs| - 1;
    assert forall i :: 0 <= i < n ==> reqs[..n][..i] == reqs[..i];
  }

  lemma {:induction false} TakesShrink(p: Level, q: Level, owed: int, reqs: seq<Request>)
    returns (left: int)
    requires Short(p, q, owed) && owed > 0 && InOrder(q.at, reqs)
    ensures Short(After(p, reqs), After(q, reqs), left) && left <= owed
    ensures left == owed <==> NothingLost(q, reqs)
    ensures After(q, reqs).at == LastTime(q.at, reqs) && After(q, reqs).limit == q.limit
    ensures reqs != [] ==> After(q, reqs).level < q.limit * SECOND
  {
    left := owed;
    if reqs != [] {
      var n := |reqs| - 1;
      var before := TakesShrink(p, q, owed, reqs[..n]);
      NothingLostLast(q, reqs);
      hide NothingLost, Overflows, Short;
      left := TakeShrinks(After(p, reqs[..n]), After(q, reqs[..n]), before, reqs[n].weight, reqs[n].now);
      hide After;
      if before < owed {
        assert !NothingLost(q, reqs);
      }
    }
  }

  // Writing down the refill changes nothing anyone could see later.
  lemma SettlingIsSilent(b: Level, now: int, t: int)
    requires b.limit > 0 && Bounded(b) && b.at <= now <= t
    ensures Refilled(Settled(b, now), t) == Refilled(b, t)
    ensures Bounded(Settled(b, now))
  {
    RefilledBy(b, now);
    RefilledBy(b, t);
    SettledFacts(b, now);
    RefilledBy(Settled(b, now), t);
    GainAdds(t - now, now - b.at, b.limit);
    hide Gain, Refilled, Overflows;
  }

  lemma SettledFacts(b: Level, now: int)
    ensures var s := Settled(b, now); s.at == now && s.limit == b.limit && s.level == Refilled(b, now)
    ensures Bounded(Settled(b, now)) <==> Refilled(b, now) <= b.limit * SECOND
  {
  }

  lemma {:induction false} SettledAfter(b: Level, now: int, reqs: seq<Request>, t: int)
    requires b.limit > 0 && Bounded(b) && b.at <= now && InOrder(now, reqs) && LastTime(now, reqs) <= t
    ensures Refilled(After(Settled(b, now), reqs), t) == Refilled(After(b, reqs), t)
    ensures reqs != [] ==> After(Settled(b, now), reqs) == After(b, reqs)
  {
    hide Settled;
    if reqs == [] {
      SettlingIsSilent(b, now, t);
    } else if |reqs| == 1 {
      assert reqs[..0] == [];
      SettlingIsSilent(b, now, reqs[0].now);
      SameTake(b, now, reqs[0].weight, reqs[0].now);
    } else {
      SettledAfter(b, now, reqs[..|reqs| - 1], t);
    }
  }

  lemma SameTake(b: Level, now: int, weight: nat, t: int)
    requires b.limit > 0 && Refilled(Settled(b, now), t) == Refilled(b, t)
    ensures Reserved(Settled(b, now), weight, t) == Reserved(b, weight, t)
  {
    hide Refilled;
  }

  // Repaying a shortfall of `left` with `owed` is seen unless they are the same.
  lemma RepaySeen(p: Level, q: Level, left: int, weight: nat)
    requires Short(p, q, left) && left <= Charge(q, weight) * SECOND
    requires q.level < q.limit * SECOND || left == Charge(q, weight) * SECOND
    ensures left == Charge(q, weight) * SECOND <==> Refilled(Refunded(p, weight), q.at) == Refilled(q, q.at)
    ensures left == Charge(q, weight) * SECOND ==> Refunded(p, weight).level == q.level
    ensures Refunded(p, weight).at == q.at && Refunded(p, weight).limit == q.limit
  {
  }

  lemma SameLevelForGood(p: Level, q: Level, t: int)
    requires p.level == q.level && p.at == q.at && p.limit == q.limit
    ensures Refilled(p, t) == Refilled(q, t)
  {
  }

  ghost predicate SameFrom(p: Level, q: Level, from: int) {
    forall t :: from <= t ==> Refilled(p, t) == Refilled(q, t)
  }

  /** The refund of a reservation, whatever it waited for and whenever it is cancelled, leaves
      the bucket at every later time as if the reservation had never been made if and only if
      no reservation in between finds that the bucket without it had already been full. */
  lemma RefundIsExactIff(b: Level, weight: nat, now: int, others: seq<Request>)
    requires b.limit > 0 && Bounded(b) && b.at <= now && weight > 0 && InOrder(now, others)
    ensures SameFrom(Refunded(After(Reserved(b, weight, now), others), weight), After(b, others), LastTime(now, others))
            <==> NothingLost(Settled(b, now), others)
  {
    var q0, p0 := Settled(b, now), Reserved(b, weight, now);
    var owed := Charge(b, weight) * SECOND;
    SettlingIsSilent(b, now, now);
    FirstShort(b, weight, now);
    var left := TakesShrink(p0, q0, owed, others);
    var p, q := After(p0, others), After(q0, others);
    assert others == [] ==> left == owed;
    assert Charge(q, weight) == Charge(b, weight);
    RepaySeen(p, q, left, weight);
    hide *;
    forall t | LastTime(now, others) <= t ensures Refilled(q, t) == Refilled(After(b, others), t) {
      SettledAfter(b, now, others, t);
    }
    if left == owed {
      forall t ensures Refilled(Refunded(p, weight), t) == Refilled(q, t) {
        SameLevelForGood(Refunded(p, weight), q, t);
      }
    }
    SameFromMeans(Refunded(p, weight), q, After(b, others), LastTime(now, others));
  }

  lemma FirstShort(b: Level, weight: nat, now: int)
    requires b.limit > 0 && Bounded(b) && b.at <= now && weight > 0
    ensures Short(Reserved(b, weight, now), Settled(b, now), Charge(b, weight) * SECOND)
    ensures Charge(b, weight) * SECOND > 0 && Settled(b, now).at == now && Settled(b, now).limit == b.limit
  {
  }

  lemma SameFromMeans(p: Level, q: Level, kept: Level, from: int)
    requires forall t :: from <= t ==> Refilled(q, t) == Refilled(kept, t)
    ensures SameFrom(p, kept, from) <==> SameFrom(p, q, from)
    ensures SameFrom(p, q, from) ==> Refilled(p, from) == Refilled(q, from)
    ensures (forall t :: Refilled(p, t) == Refilled(q, t)) ==> SameFrom(p, q, from)
  {
    hide Refilled;
  }

  // --- the window bound with refunds ---------------------------------------------------

  // Reservations with clocks that do not go back, and refunds, from `at` on.
  predicate PacedFrom(at: int, ops: seq<Op>)
    decreases |ops|
  {
    ops == []
    || (ops[0].Cancel? && PacedFrom(at, ops[1..]))
    || (ops[0].Take? && at <= ops[0].now && PacedFrom(ops[0].now, ops[1..]))
  }

  // What the reservations were charged, less what was refunded.
  function Net(b: Level, ops: seq<Op>): int
    decreases |ops|
  {
    if ops == [] then 0
    else
      var charged: int := if ops[0].Take? || ops[0].Cancel? then Charge(b, ops[0].weight) else 0;
      (if ops[0].Cancel? then -charged else charged) + Net(b, ops[1..])
  }

  lemma RefundTat(b: Level, weight: nat)
    requires b.limit > 0 && Bounded(b)
    ensures var c := Refunded(b, weight);
            && Tat(c) >= Tat(b) - Charge(b, weight) * SECOND
            && Bounded(c) && c.limit == b.limit && c.at == b.at && c.until == b.until
  {
  }

  lemma TakeTat(b: Level, weight: nat, now: int)
    requires b.limit > 0 && Bounded(b) && b.at <= now
    ensures var c := Reserved(b, weight, now);
            && Tat(c) >= Tat(b) + Charge(b, weight) * SECOND
            && Bounded(c) && c.limit == b.limit && c.at == now && c.until == b.until
  {
    TatRecurrence(b, weight, now);
    hide Tat, Refilled, Charge;
  }

  lemma SameNet(b: Level, c: Level, ops: seq<Op>)
    requires b.limit == c.limit
    ensures Net(b, ops) == Net(c, ops)
    decreases |ops|
  {
    if ops != [] {
      SameNet(b, c, ops[1..]);
    }
  }

  lemma {:induction false} TatCoversNet(b: Level, ops: seq<Op>)
    requires b.limit > 0 && Bounded(b) && PacedFrom(b.at, ops)
    ensures var c := Run(b, ops);
            && Tat(c) >= Tat(b) + Net(b, ops) * SECOND
            && Bounded(c) && c.limit == b.limit && c.until == b.until
    ensures ops != [] && ops[|ops| - 1].Take? ==> Run(b, ops).at == ops[|ops| - 1].now
    decreases |ops|
  {
    hide Tat, Reserved, Refunded, Charge, Bounded;
    if ops != [] {
      var op, c := ops[0], Apply(b, ops[0]);
      if op.Take? {
        TakeTat(b, op.weight, op.now);
      } else {
        RefundTat(b, op.weight);
      }
      SameNet(b, c, ops[1..]);
      TatCoversNet(c, ops[1..]);
    }
  }

  /** The window bound, refunds of any kind included: from the start of an epoch, what the
      reservations up to the last one were charged and not refunded is at most what refills until
      its release, plus one second's worth, plus under one nanosecond's worth. */
  lemma NetWindowBound(b: Level, ops: seq<Op>)
    requires b.limit > 0 && Bounded(b) && PacedFrom(b.at, ops)
    requires ops != [] && ops[|ops| - 1].Take? && b.until <= ops[|ops| - 1].now
    ensures var now := ops[|ops| - 1].now;
            Net(b, ops) * SECOND <= b.limit * (now + WaitOf(Run(b, ops), now) - b.at) + b.limit * SECOND + b.limit - 1
  {
    hide *;
    var now, c := ops[|ops| - 1].now, Run(b, ops);
    TatCoversNet(b, ops);
    WaitIsTat(c, now);
    TatFloor(b);
    NetArithmetic(b.limit, now + WaitOf(c, now), b.at, Net(b, ops) * SECOND, Tat(b), Tat(c));
  }

  lemma TatFloor(b: Level)
    requires Bounded(b)
    ensures Tat(b) >= b.limit * b.at - b.limit * SECOND
  {
  }

  lemma NetArithmetic(limit: nat, release: int, at: int, net: int, first: int, last: int)
    requires last >= first + net && last <= limit * release + limit - 1
    requires first >= limit * at - limit * SECOND
    ensures net <= limit * (release - at) + limit * SECOND + limit - 1
  {
    assert limit * (release - at) == limit * release - limit * at;
  }

  /** Between two later releases it fails: a cancelled wait, though its refund is exact, has pushed
      the release of those behind it together with a later one. Three tokens go to reservations
      at one time, on a budget of one a second; the second is cancelled; the fourth, made
      afterwards, is released together with the third. */
  lemma RefundBunchesReleases()
    ensures var b := Level(1, SECOND, 0, 0); var take := Take(1, 0);
            var third, fourth := Run(b, [take, take, take]), Run(b, [take, take, take, Cancel(1), take]);
            && PacedFrom(0, [take, take, take, Cancel(1), take])
            && WaitOf(Run(b, [take, take]), 0) == SECOND
            && WaitOf(third, 0) == WaitOf(fourth, 0) == 2 * SECOND
            && 2 * SECOND > b.limit * (WaitOf(fourth, 0) - WaitOf(third, 0)) + b.limit * SECOND + b.limit - 1
  {
    var b, take := Level(1, SECOND, 0, 0), Take(1, 0);
    RunOne(b, take, [take, take, Cancel(1), take]);
    RunOne(Level(1, 0, 0, 0), take, [take, Cancel(1), take]);
    RunOne(Level(1, -SECOND, 0, 0), take, [Cancel(1), take]);
    RunOne(Level(1, -2 * SECOND, 0, 0), Cancel(1), [take]);
    RunOne(Level(1, -SECOND, 0, 0), take, []);
    RunOne(b, take, [take, take]);
    RunOne(b, take, [take]);
    RunOne(Level(1, 0, 0, 0), take, [take]);
    RunOne(Level(1, 0, 0, 0), take, []);
    assert [take] + [take, take, Cancel(1), take] == [take, take, take, Cancel(1), take];
    assert [take] + [take, Cancel(1), take] == [take, take, Cancel(1), take];
    assert [take] + [Cancel(1), take] == [take, Cancel(1), take];
    assert [Cancel(1)] + [take] == [Cancel(1), take];
    assert [take] + [take, take] == [take, take, take] && [take] + [take] == [take, take] && [take] + [] == [take];
  }

  lemma RunOne(b: Level, op: Op, rest: seq<Op>)
    ensures Run(b, [op] + rest) == Run(Apply(b, op), rest)
    ensures op == Take(1, 0) ==> (PacedFrom(0, [op] + rest) <==> PacedFrom(0, rest))
    ensures op == Cancel(1) ==> (PacedFrom(0, [op] + rest) <==> PacedFrom(0, rest))
  {
    assert ([op] + rest)[1..] == rest;
  }

  // --- what wait makes of this ---------------------------------------------------------

  function TakesOf(reqs: seq<Request>): seq<Op> {
    seq(|reqs|, i requires 0 <= i < |reqs| => Take(reqs[i].weight, reqs[i].now))
  }

  lemma {:induction false} RunLast(b: Level, ops: seq<Op>, op: Op)
    ensures Run(b, ops + [op]) == Apply(Run(b, ops), op)
    decreases |ops|
  {
    hide Apply;
    if ops == [] {
      assert [] + [op] == [op] && [op][1..] == [];
      assert Run(b, [op]) == Run(Apply(b, op), []);
    } else {
      RunLast(Apply(b, ops[0]), ops[1..], op);
      assert (ops + [op])[1..] == ops[1..] + [op];
    }
  }

  lemma {:induction false} RunsAsAfter(b: Level, reqs: seq<Request>)
    ensures Run(b, TakesOf(reqs)) == After(b, reqs)
  {
    hide Reserved;
    if reqs != [] {
      var n := |reqs| - 1;
      RunsAsAfter(b, reqs[..n]);
      RunLast(b, TakesOf(reqs[..n]), Take(reqs[n].weight, reqs[n].now));
      assert TakesOf(reqs) == TakesOf(reqs[..n]) + [Take(reqs[n].weight, reqs[n].now)];
    }
  }

  /** A wait that is due is sent and keeps its tokens, whatever becomes of its context. One that
      sleeps keeps them if it is let finish; cancelled, it leaves the bucket as if it had never
      been made exactly when no refill was lost meanwhile. */
  lemma CancelledWaitIsForgotten(b: Level, weight: nat, now: int, others: seq<Request>)
    requires b.limit > 0 && Bounded(b) && b.at <= now && weight > 0 && InOrder(now, others)
    ensures var due := WaitOf(Reserved(b, weight, now), now) == 0;
            var (kept, sent) := Waited(b, weight, now, TakesOf(others), false);
            var (given, sent') := Waited(b, weight, now, TakesOf(others), true);
            && sent && (sent' <==> due)
            && (due ==> kept == given == Reserved(b, weight, now))
            && (!due ==>
                  && kept == After(Reserved(b, weight, now), others)
                  && (SameFrom(given, After(b, others), LastTime(now, others)) <==> NothingLost(Settled(b, now), others)))
  {
    RunsAsAfter(Reserved(b, weight, now), others);
    RefundIsExactIff(b, weight, now, others);
    hide Reserved, WaitOf, Run, After, Refunded, SameFrom, NothingLost, Settled;
  }
}
