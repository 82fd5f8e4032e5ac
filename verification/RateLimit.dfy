/** The token bucket that paces requests (internal/transport/ratelimit.go). Levels are
    exact: an integer count of nano-tokens, refilled at `limit` per nanosecond. */
module RateLimit {
  import opened Numbers

  const SECOND: int := 1_000_000_000

  /** `limit` is tokens per second and the capacity, 0 until reported; `level` goes
      negative once reservations run ahead. Times are nanoseconds. */
  datatype Level = Level(limit: nat, level: int, at: int, until: int)

  function Charge(b: Level, weight: nat): nat { Min(weight, b.limit) }

  function Set(b: Level, limit: nat, remaining: nat, now: int): Level {
    b.(limit := limit, level := Min(remaining, limit) * SECOND, at := now)
  }

  function Block(b: Level, until: int): Level { if until > b.until then b.(until := until) else b }

  function Refilled(b: Level, now: int): int {
    if now > b.at then Min(b.limit * SECOND, b.level + (now - b.at) * b.limit) else b.level
  }

  function Reserved(b: Level, weight: nat, now: int): Level {
    if b.limit == 0 then b
    else b.(level := Refilled(b, now) - Charge(b, weight) * SECOND, at := now)
  }

  // The wait is cut to whole nanoseconds.
  function WaitOf(b: Level, now: int): nat {
    Max(Max(b.until - now, 0), if b.limit > 0 && b.level < 0 then -b.level / b.limit else 0)
  }

  function Refunded(b: Level, weight: nat): Level {
    if b.limit > 0 then b.(level := Min(b.limit * SECOND, b.level + Charge(b, weight) * SECOND)) else b
  }

  // What callers do to a bucket, one critical section each.
  datatype Op =
    | Report(limit: nat, remaining: nat, now: int)
    | Refuse(until: int)
    | Take(weight: nat, now: int)
    | Cancel(weight: nat)

  function Apply(b: Level, op: Op): Level {
    match op
    case Report(limit, remaining, now) => Set(b, limit, remaining, now)
    case Refuse(until) => Block(b, until)
    case Take(weight, now) => Reserved(b, weight, now)
    case Cancel(weight) => Refunded(b, weight)
  }

  function Run(b: Level, ops: seq<Op>): Level
    decreases |ops|
  {
    if ops == [] then b else Run(Apply(b, ops[0]), ops[1..])
  }

  // A wait: its reservation, what other callers do while it sleeps, and the refund if its
  // context ends first. A reservation that is due at once does not sleep.
  function Waited(b: Level, weight: nat, now: int, during: seq<Op>, cancelled: bool): (Level, bool) {
    var r := Reserved(b, weight, now);
    if WaitOf(r, now) == 0 then (r, true)
    else if cancelled then (Refunded(Run(r, during), weight), false)
    else (Run(r, during), true)
  }

  class Bucket {
    var limit: nat
    var level: int
    var at: int
    var until: int

    ghost function State(): Level
      reads this
    {
      Level(limit, level, at, until)
    }

    constructor ()
      ensures State() == Level(0, 0, 0, 0)
    {
      limit, level, at, until := 0, 0, 0, 0;
    }

    method Adopt(newLimit: nat, remaining: nat, now: int)
      modifies this
      ensures State() == Set(old(State()), newLimit, remaining, now)
    {
      limit, level, at := newLimit, Min(remaining, newLimit) * SECOND, now;
    }

    method BlockUntil(t: int)
      modifies this
      ensures State() == Block(old(State()), t)
    {
      if t > until {
        until := t;
      }
    }

    method Reserve(weight: nat, now: int) returns (wait: nat)
      modifies this
      ensures State() == Reserved(old(State()), weight, now)
      ensures wait == WaitOf(State(), now)
    {
      if limit == 0 {
        return Max(until - now, 0);
      }
      var d := now - at;
      if d > 0 {
        level := Min(limit * SECOND, level + d * limit);
      }
      at := now;
      level := level - Min(weight, limit) * SECOND;
      var w := until - now;
      if level < 0 {
        w := Max(w, -level / limit);
      }
      wait := Max(w, 0);
    }

    method GiveBack(weight: nat)
      modifies this
      ensures State() == Refunded(old(State()), weight)
    {
      if limit > 0 {
        level := Min(limit * SECOND, level + Min(weight, limit) * SECOND);
      }
    }

    method Serve(op: Op)
      modifies this
      ensures State() == Apply(old(State()), op)
    {
      match op {
        case Report(newLimit, remaining, now) => Adopt(newLimit, remaining, now);
        case Refuse(t) => BlockUntil(t);
        case Take(weight, now) => var _ := Reserve(weight, now);
        case Cancel(weight) => GiveBack(weight);
      }
    }

    // wait; the lock is free while it sleeps, and `during` is what others do with it.
    method Wait(weight: nat, now: int, during: seq<Op>, cancelled: bool) returns (sent: bool)
      modifies this
      ensures (State(), sent) == Waited(old(State()), weight, now, during, cancelled)
    {
      hide Reserved, Refunded, Apply, WaitOf;
      var d := Reserve(weight, now);
      if d == 0 {
        return true;
      }
      var i := 0;
      while i < |during|
        invariant i <= |during|
        invariant Run(Reserved(old(State()), weight, now), during) == Run(State(), during[i..])
      {
        Serve(during[i]);
        assert during[i..][1..] == during[i + 1..];
        i := i + 1;
      }
      sent := !cancelled;
      if !sent {
        GiveBack(weight);
      }
    }
  }

  // --- every run -----------------------------------------------------------------------

  predicate Bounded(b: Level) { b.level <= b.limit * SECOND }

  /** In every run, clocks going backwards included, the level never exceeds the limit, and
      a limit once set is never 0 again: observe adopts positive limits only. */
  lemma {:induction false} LevelNeverExceedsLimit(b: Level, ops: seq<Op>)
    requires Bounded(b)
    requires forall i :: 0 <= i < |ops| && ops[i].Report? ==> ops[i].limit > 0
    ensures Bounded(Run(b, ops))
    ensures b.limit > 0 ==> Run(b, ops).limit > 0
    decreases |ops|
  {
    if ops != [] {
      var op := ops[0];
      if op.Report? {
        assert Min(op.remaining, op.limit) * SECOND <= op.limit * SECOND;
      }
      LevelNeverExceedsLimit(Apply(b, op), ops[1..]);
    }
  }

  // --- the theoretical arrival time ----------------------------------------------------

  // When the level would be exactly zero, scaled by the limit: at - level/limit.
  function Tat(b: Level): int { b.limit * b.at - b.level }

  /** The lazy level and its timestamp are the recurrence F' = max(now - 1s, F) + charge/limit. */
  lemma TatRecurrence(b: Level, weight: nat, now: int)
    requires b.limit > 0 && Bounded(b) && b.at <= now
    ensures Tat(Reserved(b, weight, now)) == Max(b.limit * (now - SECOND), Tat(b)) + Charge(b, weight) * SECOND
    ensures Bounded(Reserved(b, weight, now))
  {
    var grown := b.level + (now - b.at) * b.limit;
    assert b.limit * (now - SECOND) == b.limit * now - b.limit * SECOND;
    assert b.limit * now - grown == Tat(b) by {
      assert (now - b.at) * b.limit == b.limit * now - b.limit * b.at;
    }
    assert Charge(b, weight) * SECOND >= 0;
  }

  datatype Request = Request(weight: nat, now: int)

  function After(b: Level, reqs: seq<Request>): Level {
    if reqs == [] then b
    else Reserved(After(b, reqs[..|reqs| - 1]), reqs[|reqs| - 1].weight, reqs[|reqs| - 1].now)
  }

  // When the i-th request is sent.
  function Release(b: Level, reqs: seq<Request>, i: nat): int
    requires i < |reqs|
  {
    reqs[i].now + WaitOf(After(b, reqs[..i + 1]), reqs[i].now)
  }

  function Charged(b: Level, reqs: seq<Request>): nat {
    if reqs == [] then 0 else Charged(b, reqs[..|reqs| - 1]) + Charge(b, reqs[|reqs| - 1].weight)
  }

  // One epoch: a known limit, no block pending and a clock that does not go back.
  ghost predicate Epoch(b: Level, reqs: seq<Request>) {
    && b.limit > 0 && Bounded(b)
    && (forall i :: 0 <= i < |reqs| ==> b.at <= reqs[i].now && b.until <= reqs[i].now)
    && (forall i, j :: 0 <= i < j < |reqs| ==> reqs[i].now <= reqs[j].now)
  }

  lemma {:induction false} AfterFacts(b: Level, reqs: seq<Request>)
    requires Epoch(b, reqs)
    ensures var c := After(b, reqs);
            && c.limit == b.limit && c.until == b.until && Bounded(c)
            && c.at == if reqs == [] then b.at else reqs[|reqs| - 1].now
  {
    if reqs != [] {
      var n := |reqs| - 1;
      AfterFacts(b, reqs[..n]);
      TatRecurrence(After(b, reqs[..n]), reqs[n].weight, reqs[n].now);
    }
  }

  lemma TatStep(b: Level, reqs: seq<Request>, i: nat)
    requires Epoch(b, reqs) && i < |reqs|
    ensures var before, after, c := Tat(After(b, reqs[..i])), Tat(After(b, reqs[..i + 1])), Charge(b, reqs[i].weight) * SECOND;
            && after == Max(b.limit * (reqs[i].now - SECOND), before) + c
            && after >= before + c
  {
    AfterFacts(b, reqs[..i]);
    assert reqs[..i + 1][..i] == reqs[..i];
    TatRecurrence(After(b, reqs[..i]), reqs[i].weight, reqs[i].now);
  }

  lemma {:induction false} TatGrowsByCharges(b: Level, reqs: seq<Request>, j: nat, k: nat)
    requires Epoch(b, reqs) && j <= k <= |reqs|
    ensures Tat(After(b, reqs[..k])) >= Tat(After(b, reqs[..j])) + Charged(b, reqs[j..k]) * SECOND
    decreases k
  {
    hide After, Tat, Epoch;
    if j == k {
      assert reqs[j..k] == [];
    } else {
      TatGrowsByCharges(b, reqs, j, k - 1);
      TatStep(b, reqs, k - 1);
      assert reqs[j..k][..k - j - 1] == reqs[j..k - 1];
    }
  }

  // A release is the later of now and the arrival time, cut to whole nanoseconds.
  lemma ReleaseIsTat(b: Level, reqs: seq<Request>, i: nat)
    requires Epoch(b, reqs) && i < |reqs|
    ensures var r, x := Release(b, reqs, i), Tat(After(b, reqs[..i + 1]));
            && r == Max(reqs[i].now, x / b.limit)
            && x <= b.limit * r + b.limit - 1
            && (r == reqs[i].now || b.limit * r <= x)
  {
    hide After;
    AfterFacts(b, reqs[..i + 1]);
    WaitIsTat(After(b, reqs[..i + 1]), reqs[i].now);
  }

  lemma WaitIsTat(c: Level, now: int)
    requires c.limit > 0 && c.at == now && c.until <= now
    ensures var r, x := now + WaitOf(c, now), Tat(c);
            && r == Max(now, x / c.limit)
            && x <= c.limit * r + c.limit - 1
            && (r == now || c.limit * r <= x)
  {
    var x := Tat(c);
    assert x == c.limit * now - c.level;
    DivBounds(x, c.limit);
    DivShift(-c.level, now, c.limit);
    assert x / c.limit == now + -c.level / c.limit;
    if c.level < 0 {
      assert WaitOf(c, now) == -c.level / c.limit;
    } else {
      DivMonotone(-c.level, 0, c.limit);
    }
  }

  lemma DivShift(a: int, k: int, d: int)
    requires d > 0
    ensures (d * k + a) / d == k + a / d
  {
    var q := (d * k + a) / d;
    var q' := k + a / d;
    assert d * q <= d * k + a < d * q + d;
    assert d * q' <= d * k + a < d * q' + d;
    EuclidUnique(d, q, q', d * k + a);
  }

  lemma MulMonotone(d: int, x: int, y: int)
    requires d >= 0 && x <= y
    ensures d * x <= d * y
  {
  }

  lemma EuclidUnique(d: int, q: int, q': int, a: int)
    requires d > 0 && d * q <= a < d * q + d && d * q' <= a < d * q' + d
    ensures q == q'
  {
    if q < q' {
      MulMonotone(d, q + 1, q');
    } else if q' < q {
      MulMonotone(d, q' + 1, q);
    }
  }

  lemma DivBounds(a: int, d: int)
    requires d > 0
    ensures d * (a / d) <= a <= d * (a / d) + d - 1
  {
  }

  lemma DivMonotone(a: int, c: int, d: int)
    requires d > 0 && a <= c
    ensures a / d <= c / d
  {
    QuotientsOrdered(d, a / d, c / d, a, c);
  }

  lemma QuotientsOrdered(d: int, q: int, q': int, a: int, c: int)
    requires d > 0 && d * q <= a <= c < d * q' + d
    ensures q <= q'
  {
    if q' < q {
      MulMonotone(d, q' + 1, q);
    }
  }

  /** Requests leave in the order they came. */
  lemma ReleasesAreFifo(b: Level, reqs: seq<Request>, j: nat, k: nat)
    requires Epoch(b, reqs) && j <= k < |reqs|
    ensures Release(b, reqs, j) <= Release(b, reqs, k)
  {
    ReleaseIsTat(b, reqs, j);
    ReleaseIsTat(b, reqs, k);
    TatGrowsByCharges(b, reqs, j + 1, k + 1);
    DivMonotone(Tat(After(b, reqs[..j + 1])), Tat(After(b, reqs[..k + 1])), b.limit);
  }

  /** The window bound: what reservations j..k are charged is at most what refills between
      their releases plus one second's worth; waits being whole nanoseconds adds less than
      one nanosecond's worth. */
  lemma WindowBound(b: Level, reqs: seq<Request>, j: nat, k: nat)
    requires Epoch(b, reqs) && j <= k < |reqs|
    ensures Charged(b, reqs[j..k + 1]) * SECOND
            <= b.limit * (Release(b, reqs, k) - Release(b, reqs, j)) + b.limit * SECOND + b.limit - 1
  {
    hide Charged, After, Release, Tat, Charge, Max;
    ReleaseIsTat(b, reqs, j);
    ReleaseIsTat(b, reqs, k);
    TatGrowsByCharges(b, reqs, j + 1, k + 1);
    LateEnough(b, reqs, j);
    SplitCharge(b, reqs[j..k + 1]);
    assert reqs[j..k + 1][1..] == reqs[j + 1..k + 1];
    var rj, rk := Release(b, reqs, j), Release(b, reqs, k);
    assert b.limit * (rk - rj) == b.limit * rk - b.limit * rj;
  }

  // A reservation's arrival time is at most a second of refill behind its release.
  lemma LateEnough(b: Level, reqs: seq<Request>, j: nat)
    requires Epoch(b, reqs) && j < |reqs|
    ensures Tat(After(b, reqs[..j + 1]))
            >= b.limit * Release(b, reqs, j) - b.limit * SECOND + Charge(b, reqs[j].weight) * SECOND
  {
    hide After, Release, Tat;
    ReleaseIsTat(b, reqs, j);
    TatStep(b, reqs, j);
    assert b.limit * (reqs[j].now - SECOND) == b.limit * reqs[j].now - b.limit * SECOND;
    assert Charge(b, reqs[j].weight) * SECOND <= b.limit * SECOND;
  }

  lemma {:induction false} SplitCharge(b: Level, reqs: seq<Request>)
    requires reqs != []
    ensures Charged(b, reqs) == Charge(b, reqs[0].weight) + Charged(b, reqs[1..])
  {
    var n := |reqs| - 1;
    if n > 0 {
      SplitCharge(b, reqs[..n]);
      assert reqs[..n][1..] == reqs[1..][..n - 1];
    } else {
      assert reqs[..0] == [] && reqs[1..] == [];
    }
  }

  /** The bound needs the clock: three requests leave within no time at all when it reads
      10s, 0s and 10s, on a budget of one token a second. */
  lemma BackwardClockBreaksBound()
    ensures var b := Level(1, SECOND, 0, 0);
            var reqs := [Request(1, 10 * SECOND), Request(1, 0), Request(1, 10 * SECOND)];
            && Release(b, reqs, 0) == Release(b, reqs, 2)
            && Charged(b, reqs) * SECOND > 2 * (b.limit * SECOND)
  {
    var b := Level(1, SECOND, 0, 0);
    var r := [Request(1, 10 * SECOND), Request(1, 0), Request(1, 10 * SECOND)];
    assert r[..1] == [r[0]] && r[..2] == [r[0], r[1]] && r[..3] == r;
    assert [r[0]][..0] == [] && [r[0], r[1]][..1] == [r[0]] && r[..2] == [r[0], r[1]];
    assert After(b, [r[0]]) == Level(1, 0, 10 * SECOND, 0);
    assert After(b, [r[0], r[1]]) == Level(1, -SECOND, 0, 0);
    assert After(b, r) == Level(1, 0, 10 * SECOND, 0);
    assert Charged(b, [r[0]]) == 1 && Charged(b, [r[0], r[1]]) == 2 && Charged(b, r) == 3;
  }

  // --- refunds -------------------------------------------------------------------------

  // p is q with one more reservation of `extra` nano-tokens outstanding, due at x / limit.
  ghost predicate Owes(p: Level, q: Level, extra: int, x: int) {
    && p.limit == q.limit > 0 && p.until == q.until
    && Bounded(p) && Bounded(q) && q.at <= p.at
    && 0 <= extra <= p.limit * SECOND
    && x <= Tat(p) && Tat(p) == Max(p.limit * (p.at - SECOND), Tat(q)) + extra
  }

  lemma TakeKeepsDebt(p: Level, q: Level, extra: int, x: int, weight: nat, now: int)
    requires Owes(p, q, extra, x) && p.at <= now && p.limit * now <= x
    ensures Owes(Reserved(p, weight, now), Reserved(q, weight, now), extra, x)
    ensures Reserved(q, weight, now).at == now == Reserved(p, weight, now).at
  {
    hide Tat, Refilled;
    TatRecurrence(p, weight, now);
    TatRecurrence(q, weight, now);
    var l := p.limit;
    assert l * (now - SECOND) == l * now - l * SECOND;
    MulMonotone(l, p.at - SECOND, now - SECOND);
  }

  lemma {:induction false} TakesKeepDebt(p: Level, q: Level, extra: int, x: int, reqs: seq<Request>)
    requires Owes(p, q, extra, x)
    requires forall i :: 0 <= i < |reqs| ==> p.at <= reqs[i].now && p.limit * reqs[i].now <= x
    requires forall i, j :: 0 <= i < j < |reqs| ==> reqs[i].now <= reqs[j].now
    ensures Owes(After(p, reqs), After(q, reqs), extra, x)
    ensures After(p, reqs).limit == p.limit
    ensures After(p, reqs).at == if reqs == [] then p.at else reqs[|reqs| - 1].now
  {
    hide Owes;
    if reqs == [] {
      assert After(p, []) == p && After(q, []) == q;
    } else {
      var n := |reqs| - 1;
      TakesKeepDebt(p, q, extra, x, reqs[..n]);
      TakeKeepsDebt(After(p, reqs[..n]), After(q, reqs[..n]), extra, x, reqs[n].weight, reqs[n].now);
      TakeKeepsLimit(After(p, reqs[..n]), reqs[n].weight, reqs[n].now);
    }
  }

  lemma TakeKeepsLimit(b: Level, weight: nat, now: int)
    ensures Reserved(b, weight, now).limit == b.limit
    ensures b.limit > 0 ==> Reserved(b, weight, now).at == now
  {
  }

  // Giving the debt back leaves a bucket that refills to the same level at every later time.
  lemma RepaidIsEqual(p: Level, q: Level, extra: int, x: int, weight: nat, t: int)
    requires Owes(p, q, extra, x) && extra == Charge(p, weight) * SECOND && p.at <= t
    ensures Refilled(Refunded(p, weight), t) == Refilled(q, t)
  {
    var l, p' := p.limit, Refunded(p, weight);
    assert l * (p.at - SECOND) == l * p.at - l * SECOND;
    assert p'.level == p.level + extra;
    LevelLater(p', t);
    LevelLater(q, t);
    MulMonotone(l, p.at, t);
  }

  lemma LevelLater(b: Level, t: int)
    requires Bounded(b) && b.at <= t
    ensures Refilled(b, t) == Min(b.limit * SECOND, b.limit * t - Tat(b))
  {
    assert (t - b.at) * b.limit == b.limit * t - b.limit * b.at;
  }

  lemma ReservingOwes(b: Level, weight: nat, now: int)
    requires b.limit > 0 && Bounded(b) && b.at <= now
    ensures var p := Reserved(b, weight, now);
            Owes(p, b, Charge(b, weight) * SECOND, Tat(p)) && Tat(p) == b.limit * now - p.level
  {
    TatRecurrence(b, weight, now);
    MulMonotone(SECOND, Charge(b, weight), b.limit);
  }

  /** Exact refund. A reservation runs the bucket into a deficit, other reservations follow,
      and it is cancelled no later than it was due. Then the bucket refills to the same level
      at every later time as if the reservation had never been made, so every later
      reservation waits exactly as long. */
  lemma RefundIsExact(b: Level, weight: nat, now: int, others: seq<Request>, t: int)
    requires b.limit > 0 && Bounded(b) && b.at <= now
    requires var p := Reserved(b, weight, now);
             p.level < 0 && forall i :: 0 <= i < |others| ==> now <= others[i].now <= now + -p.level / b.limit
    requires forall i, j :: 0 <= i < j < |others| ==> others[i].now <= others[j].now
    requires now <= t && forall i :: 0 <= i < |others| ==> others[i].now <= t
    ensures var kept := After(b, others);
            var refunded := Refunded(After(Reserved(b, weight, now), others), weight);
            && Refilled(refunded, t) == Refilled(kept, t)
            && forall w: nat :: WaitOf(Reserved(refunded, w, t), t) == WaitOf(Reserved(kept, w, t), t)
  {
    hide Owes, Tat, After, Refilled, Reserved, WaitOf, Charge;
    var p, x := Reserved(b, weight, now), Tat(Reserved(b, weight, now));
    ReservingOwes(b, weight, now);
    TakeKeepsLimit(b, weight, now);
    forall i | 0 <= i < |others| ensures p.limit * others[i].now <= x {
      NotAfterDue(b.limit, p.level, now, others[i].now);
    }
    TakesKeepDebt(p, b, Charge(b, weight) * SECOND, x, others);
    var pp, q := After(p, others), After(b, others);
    SameTerms(pp, q, Charge(b, weight) * SECOND, x);
    SameCharge(b, pp, weight);
    RepaidIsEqual(pp, q, Charge(b, weight) * SECOND, x, weight, t);
    forall w: nat ensures WaitOf(Reserved(Refunded(pp, weight), w, t), t) == WaitOf(Reserved(q, w, t), t) {
      SameWait(Refunded(pp, weight), q, w, t);
    }
  }

  lemma NotAfterDue(limit: int, level: int, now: int, n: int)
    requires limit > 0 && level < 0 && n <= now + -level / limit
    ensures limit * n <= limit * now - level
  {
    DivBounds(-level, limit);
    MulMonotone(limit, n, now + -level / limit);
    assert limit * (now + -level / limit) == limit * now + limit * (-level / limit);
  }

  lemma SameCharge(b: Level, c: Level, weight: nat)
    requires b.limit == c.limit
    ensures Charge(b, weight) == Charge(c, weight)
  {
  }

  lemma SameTerms(p: Level, q: Level, extra: int, x: int)
    requires Owes(p, q, extra, x)
    ensures p.limit == q.limit > 0 && p.until == q.until
  {
  }

  lemma SameWait(p: Level, q: Level, weight: nat, t: int)
    requires p.limit == q.limit && p.until == q.until && Refilled(p, t) == Refilled(q, t)
    ensures WaitOf(Reserved(p, weight, t), t) == WaitOf(Reserved(q, weight, t), t)
  {
    hide Refilled;
  }

  /** A wait that a 429 caused is different: cancelling it can give back more than it took,
      because the level it lowered has refilled in the meantime. */
  lemma RefundOfBlockedWaitOverpays()
    ensures var b := Level(10, 10 * SECOND, 0, 2 * SECOND);
            var p := Reserved(b, 10, 0);
            && p.level == 0 && WaitOf(p, 0) == 2 * SECOND
            && Refunded(Reserved(p, 1, SECOND), 10).level > Reserved(b, 1, SECOND).level
  {
    var b := Level(10, 10 * SECOND, 0, 2 * SECOND);
    assert Reserved(b, 10, 0) == Level(10, 0, 0, 2 * SECOND);
    assert Reserved(Level(10, 0, 0, 2 * SECOND), 1, SECOND) == Level(10, 9 * SECOND, SECOND, 2 * SECOND);
  }
}
