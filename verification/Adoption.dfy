/** What a response teaches the bucket it describes (internal/transport/ratelimit.go): from then
    on no more is sent than the server said was left and what refills, and all of that is. */
module Adoption {
  import opened Numbers
  import opened Wrappers
  import opened RateLimit
  import opened Refunds
  import opened Routing
  import opened Limiters

  // The bucket a label stands for, and the one a response without a label is about.
  predicate Labels(tag: string, s: Slot) {
    match s
    case RequestSlot => tag == "key" || tag == "owner" || tag == "ip"
    case OrderSlot => tag == "order"
    case LoginSlot => tag == "login"
  }

  // The response describes s: its refusal says so, or else its headers, or else it answers an
  // ordinary request.
  predicate IsAbout(c: Class, h: Headers, e: Option<Refusal>, s: Slot) {
    if e.Some? && e.value.bucket != "" then Labels(e.value.bucket, s)
    else if h.bucket != "" then Labels(h.bucket, s)
    else c == RequestClass && s == RequestSlot
  }

  // The response carries both numbers, and they make sense.
  predicate Reports(h: Headers, limit: nat, remaining: nat) {
    h.limit == Some(limit) && h.remaining == Some(remaining) && limit > 0
  }

  function Least(a: nat, b: nat): nat { if a <= b then a else b }

  lemma IsDescribed(c: Class, h: Headers, e: Option<Refusal>, s: Slot)
    ensures IsAbout(c, h, e, s) <==> Described(c, h, e) == Some(s)
  {
  }

  // The level holds what remains, and no more than the limit.
  ghost predicate Adopted(l: Level, limit: nat, remaining: nat, now: int) {
    l.limit == limit > 0 && l.at == now && l.level == Least(remaining, limit) * SECOND && Bounded(l)
  }

  lemma AdoptedLevel(b: Budgets, c: Class, h: Headers, e: Option<Refusal>, now: int, s: Slot, limit: nat, remaining: nat)
    requires IsAbout(c, h, e, s) && Reports(h, limit, remaining)
    ensures Adopted(At(Observed(b, c, h, e, now), s), limit, remaining, now)
    ensures e.None? ==> At(Observed(b, c, h, e, now), s).until == At(b, s).until
  {
    IsDescribed(c, h, e, s);
    hide IsAbout, Described, Labels;
  }

  // What is taken and not given back, each request at its weight but at most at the limit.
  function Spent(limit: nat, ops: seq<Op>): int
    decreases |ops|
  {
    if ops == [] then 0
    else
      match ops[0]
      case Take(weight, _) => Least(weight, limit) + Spent(limit, ops[1..])
      case Cancel(weight) => Spent(limit, ops[1..]) - Least(weight, limit)
      case _ => Spent(limit, ops[1..])
  }

  lemma {:induction false} SpentIsNet(l: Level, ops: seq<Op>)
    ensures Spent(l.limit, ops) == Net(l, ops)
    decreases |ops|
  {
    if ops != [] {
      SpentIsNet(l, ops[1..]);
    }
  }

  // Spent out of what was left and what `time` refills, but for less than a nanosecond's worth.
  predicate Covered(spent: int, left: nat, limit: nat, time: int) {
    spent * SECOND <= left * SECOND + limit * time + limit - 1
  }

  lemma WaitCoversTat(c: Level, now: int)
    requires c.limit > 0 && c.at == now
    ensures Tat(c) <= c.limit * (now + WaitOf(c, now)) + c.limit - 1
  {
    var idle := c.(until := now);
    WaitIsTat(idle, now);
    assert WaitOf(c, now) >= WaitOf(idle, now);
    assert Tat(c) == Tat(idle);
    MulMonotone(c.limit, now + WaitOf(idle, now), now + WaitOf(c, now));
  }

  /** Adoption, from above. After a response that reports a limit and a remaining, at t0, let
      reservations and refunds follow with clocks that do not go back. What was taken and not
      given back up to the last reservation is at most what the server said remained, or its
      limit if that is less, plus what refills from t0 until that reservation is released, plus
      under one nanosecond's worth. */
  lemma AdoptionBoundsCharges(b: Budgets, c: Class, h: Headers, e: Option<Refusal>, t0: int, s: Slot,
                              limit: nat, remaining: nat, ops: seq<Op>, l: Level)
    requires IsAbout(c, h, e, s) && Reports(h, limit, remaining) && l == At(Observed(b, c, h, e, t0), s)
    requires PacedFrom(t0, ops) && ops != [] && ops[|ops| - 1].Take?
    ensures var now := ops[|ops| - 1].now;
            Covered(Spent(limit, ops), Least(remaining, limit), limit, now + WaitOf(Run(l, ops), now) - t0)
  {
    hide *;
    AdoptedLevel(b, c, h, e, t0, s, limit, remaining);
    BoundFrom(l, limit, remaining, t0, ops);
  }

  lemma BoundFrom(l: Level, limit: nat, remaining: nat, t0: int, ops: seq<Op>)
    requires Adopted(l, limit, remaining, t0) && PacedFrom(t0, ops) && ops != [] && ops[|ops| - 1].Take?
    ensures var now := ops[|ops| - 1].now;
            Covered(Spent(limit, ops), Least(remaining, limit), limit, now + WaitOf(Run(l, ops), now) - t0)
  {
    assert Tat(l) == limit * t0 - Least(remaining, limit) * SECOND;
    assert l.limit == limit > 0 && l.at == t0 && Bounded(l);
    hide *;
    var now := ops[|ops| - 1].now;
    var release := now + WaitOf(Run(l, ops), now);
    TatCoversNet(l, ops);
    SpentIsNet(l, ops);
    WaitCoversTat(Run(l, ops), now);
    BoundArithmetic(limit, release, t0, Spent(limit, ops), Least(remaining, limit), Tat(Run(l, ops)));
  }

  lemma BoundArithmetic(limit: nat, release: int, at: int, spent: int, left: nat, tat: int)
    requires tat >= limit * at - left * SECOND + spent * SECOND && tat <= limit * release + limit - 1
    ensures Covered(spent, left, limit, release - at)
  {
    assert limit * (release - at) == limit * release - limit * at;
  }

  // What the first n of these requests take together.
  function Together(limit: nat, weights: seq<nat>): nat {
    if weights == [] then 0
    else Together(limit, weights[..|weights| - 1]) + Least(weights[|weights| - 1], limit)
  }

  function AllAt(t: int, weights: seq<nat>): seq<Request> {
    seq(|weights|, i requires 0 <= i < |weights| => Request(weights[i], t))
  }

  // Reservations at one time find the level as the ones before left it.
  lemma {:induction false} TakenAtOnce(b: Level, weights: seq<nat>)
    requires b.limit > 0
    ensures var l := After(b, AllAt(b.at, weights));
            l.level == b.level - Together(b.limit, weights) * SECOND && l.limit == b.limit && l.at == b.at && l.until == b.until
  {
    if weights != [] {
      var n := |weights| - 1;
      TakenAtOnce(b, weights[..n]);
      assert AllAt(b.at, weights)[..n] == AllAt(b.at, weights[..n]);
    }
  }

  lemma {:induction false} TogetherGrows(limit: nat, weights: seq<nat>, i: nat)
    requires i <= |weights|
    ensures Together(limit, weights[..i]) <= Together(limit, weights)
    decreases |weights|
  {
    if i < |weights| {
      TogetherGrows(limit, weights[..|weights| - 1], i);
      assert weights[..|weights| - 1][..i] == weights[..i];
    } else {
      assert weights[..i] == weights;
    }
  }

  /** Adoption, from below. With no block pending, requests at t0 that together take at most what
      the server said remained are all released at t0. */
  lemma WhatRemainsIsSentAtOnce(b: Budgets, c: Class, h: Headers, t0: int, s: Slot,
                                limit: nat, remaining: nat, weights: seq<nat>, i: nat)
    requires IsAbout(c, h, None, s) && Reports(h, limit, remaining) && At(b, s).until <= t0
    requires i < |weights| && Together(limit, weights) <= Least(remaining, limit)
    ensures Release(At(Observed(b, c, h, None, t0), s), AllAt(t0, weights), i) == t0
  {
    AdoptedLevel(b, c, h, None, t0, s, limit, remaining);
    var l := At(Observed(b, c, h, None, t0), s);
    hide Observed, At, After, Together;
    assert l.limit == limit && l.at == t0 && l.level == Least(remaining, limit) * SECOND;
    TakenAtOnce(l, weights[..i + 1]);
    TogetherGrows(limit, weights, i + 1);
    assert AllAt(t0, weights)[..i + 1] == AllAt(t0, weights[..i + 1]);
  }

  /** Numbers that are missing, negative or a limit of zero are not adopted, and neither are those
      about another bucket. A bucket no response has described paces nothing. */
  lemma OnlyReportsAreAdopted(b: Budgets, c: Class, h: Headers, e: Option<Refusal>, t0: int, s: Slot, weight: nat, now: int)
    ensures var before, after := At(b, s), At(Observed(b, c, h, e, t0), s);
            !(IsAbout(c, h, e, s) && exists limit, remaining :: Reports(h, limit, remaining)) ==>
              after.limit == before.limit && after.level == before.level && after.at == before.at
    ensures var l := At(b, s);
            l.limit == 0 && l.until <= now ==> Reserved(l, weight, now) == l && WaitOf(l, now) == 0
  {
    IsDescribed(c, h, e, s);
    if h.limit.Some? && h.remaining.Some? && h.limit.value > 0 && h.remaining.value >= 0 {
      assert Reports(h, h.limit.value, h.remaining.value);
    }
    hide IsAbout, Labels;
  }

  // --- a refusal -------------------------------------------------------------------------

  lemma StepKeepsBlock(b: Level, op: Op)
    ensures Apply(b, op).until >= b.until
  {
  }

  lemma {:induction false} RunKeepsBlock(b: Level, ops: seq<Op>)
    ensures Run(b, ops).until >= b.until
    decreases |ops|
  {
    hide Apply;
    if ops != [] {
      StepKeepsBlock(b, ops[0]);
      RunKeepsBlock(Apply(b, ops[0]), ops[1..]);
    }
  }

  /** A 429 holds its bucket: whatever is reported, reserved or refunded afterwards, nothing is
      released before its retry-after has passed, or a second if it gives less. */
  lemma RefusalHolds(b: Budgets, c: Class, h: Headers, refusal: Refusal, t0: int, s: Slot, ops: seq<Op>, weight: nat, now: int)
    requires IsAbout(c, h, Some(refusal), s) && refusal.status == 429
    ensures var l := Run(At(Observed(b, c, h, Some(refusal), t0), s), ops);
            && now + WaitOf(Reserved(l, weight, now), now) >= t0 + refusal.retryAfter
            && now + WaitOf(Reserved(l, weight, now), now) >= t0 + SECOND
  {
    IsDescribed(c, h, Some(refusal), s);
    var l := At(Observed(b, c, h, Some(refusal), t0), s);
    assert l.until >= t0 + refusal.retryAfter && l.until >= t0 + SECOND;
    hide IsAbout, Described, Labels, Observed, At, Refilled, Charge;
    RunKeepsBlock(l, ops);
  }

  /** No other response blocks anything, and a 429 blocks for no longer than that. */
  lemma OnlyRefusalsHold(b: Budgets, c: Class, h: Headers, e: Option<Refusal>, t0: int, s: Slot)
    ensures var before, after := At(b, s).until, At(Observed(b, c, h, e, t0), s).until;
            if IsAbout(c, h, e, s) && e.Some? && e.value.status == 429
            then after in {before, t0 + e.value.retryAfter, t0 + SECOND}
            else after == before
  {
    IsDescribed(c, h, e, s);
    hide IsAbout, Labels;
  }
}
