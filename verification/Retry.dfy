/** The retry loop of Get, and Send which never retries (internal/transport/transport.go).
    What an attempt comes to, when the caller cancels and what the random source draws are
    arbitrary functions of the attempt's number. */
module Retry {
  import opened Numbers
  import opened Wrappers
  import Limiters
  import RateLimit

  // How the JSON value of a body meets the type it is decoded into: it fits, it is of
  // another JSON type, or an UnmarshalJSON of the type refuses it with an error of its own.
  datatype Fit = Fits | Misfit | RefusedByType

  /** The body of a 2xx answer, as a JSON decoder meets it: only whitespace, cut off inside a
      value (by the connection or by the limit on body size), not JSON, or a value and the
      first byte after it that is not whitespace. */
  datatype Body = Blank | Truncated | Malformed | Whole(fit: Fit, next: Option<char>)

  // The error decoding ends with. Syntax and WrongType are *json.SyntaxError and
  // *json.UnmarshalTypeError, EndOfInput is io.EOF, UnexpectedEnd io.ErrUnexpectedEOF.
  datatype DecodeError = Syntax | WrongType | EndOfInput | UnexpectedEnd | Plain

  // UnmarshalNumbers. A closing bracket after the value does not count as more input.
  function Decoded(b: Body): Option<DecodeError> {
    match b
    case Blank => Some(EndOfInput)
    case Truncated => Some(UnexpectedEnd)
    case Malformed => Some(Syntax)
    case Whole(Misfit, _) => Some(WrongType)
    case Whole(RefusedByType, _) => Some(Plain)
    case Whole(Fits, next) => if next.Some? && next.value !in {']', '}'} then Some(Plain) else None
  }

  datatype Outcome =
    | Success                                       // a 2xx answer without a body, or none wanted
    | Answer(body: Body)                            // a 2xx answer to decode
    | Refused                                       // local: no bytes left the process
    | Status(status: int, code: string, retryAfter: int)
    | Lost                                          // the transport failed

  datatype Result = Returned(outcome: Outcome) | ContextError

  // What happens around attempt i: its outcome, whether the caller has cancelled once it is
  // over, and whether the caller cancels during the sleep after it.
  datatype World = World(reply: nat -> Outcome, cancelled: nat -> bool, interrupted: nat -> bool)

  datatype Policy = Policy(maxRetries: nat, minDelay: nat, maxDelay: nat)

  predicate Transient(o: Outcome) {
    match o
    case Status(429, code, _) => code == "" || code == "RATE_LIMIT_EXCEEDED"
    case Status(s, _, _) => s >= 500 && s != 501 && s != 505
    case Answer(body) => Decoded(body).Some? && Decoded(body).value !in {Syntax, WrongType}
    case Lost => true
    case _ => false
  }

  // retryable
  predicate Retryable(w: World, i: nat) { Transient(w.reply(i)) && !w.cancelled(i) }

  predicate IsThrottled(o: Outcome) { o.Status? && o.status == 429 }

  // The loop goes on to another attempt after attempt i.
  predicate GoesOn(p: Policy, w: World, i: nat) {
    i != p.maxRetries && Retryable(w, i) && !w.interrupted(i)
  }

  // How many attempts are made from attempt i on.
  function AttemptsFrom(p: Policy, w: World, i: nat): nat
    requires i <= p.maxRetries
    decreases p.maxRetries - i
  {
    if GoesOn(p, w, i) then 1 + AttemptsFrom(p, w, i + 1) else 1
  }

  // The delay the loop holds at attempt i.
  function Delay(p: Policy, i: nat): nat {
    if i == 0 then p.minDelay else Min(Delay(p, i - 1) * 2, p.maxDelay)
  }

  /** The delay doubles from the least until the greatest caps it. */
  lemma {:induction false} DelayDoubles(p: Policy, i: nat)
    requires p.minDelay <= p.maxDelay
    ensures Delay(p, i) == Min(p.minDelay * Pow2(i), p.maxDelay)
  {
    if i > 0 {
      DelayDoubles(p, i - 1);
      assert Pow2(i) == 2 * Pow2(i - 1);
      hide Pow2;
      Twice(p.minDelay, Pow2(i - 1));
    }
  }

  lemma Twice(d: nat, q: nat)
    ensures d * (2 * q) == 2 * (d * q)
  {
  }

  // The sleeps that were backoff rather than the server's retry-after.
  function BackoffTotal(w: World, slept: seq<int>): int {
    if slept == [] then 0
    else
      var i := |slept| - 1;
      BackoffTotal(w, slept[..i]) + (if IsThrottled(w.reply(i)) then 0 else slept[i])
  }

  // The sleep after attempt i, whatever the random source draws.
  predicate SleepFits(p: Policy, w: World, i: nat, sleep: int) {
    if IsThrottled(w.reply(i)) then
      var floor := Max(w.reply(i).retryAfter, RateLimit.SECOND);
      floor <= sleep <= floor + floor / 2
    else Delay(p, i) / 2 <= sleep <= Delay(p, i)
  }

  method Get(p: Policy, refuse: bool, w: World, draw: (nat, nat) -> nat) returns (attempts: nat, slept: seq<int>, result: Result)
    requires forall i: nat, n: nat :: n > 0 ==> draw(i, n) < n
    ensures refuse ==> attempts == 0 && slept == [] && result == Returned(Refused)
    ensures !refuse ==> 1 <= attempts <= p.maxRetries + 1
    ensures forall i :: 0 <= i < attempts - 1 ==> GoesOn(p, w, i)
    ensures attempts > 0 ==> !GoesOn(p, w, attempts - 1)
    ensures attempts == if refuse then 0 else AttemptsFrom(p, w, 0)
    ensures |slept| <= p.maxRetries
    ensures forall i :: 0 <= i < |slept| ==> Retryable(w, i) && SleepFits(p, w, i, slept[i])
    ensures attempts > 0 ==>
              var last := attempts - 1;
              if last != p.maxRetries && Retryable(w, last)
              then result == ContextError && |slept| == attempts
              else result == Returned(w.reply(last)) && |slept| == attempts - 1
  {
    attempts, slept := 0, [];
    if refuse { return 0, [], Returned(Refused); }
    var delay := p.minDelay;
    while true
      invariant attempts <= p.maxRetries && |slept| == attempts && delay == Delay(p, attempts)
      invariant forall i :: 0 <= i < attempts ==> GoesOn(p, w, i)
      invariant AttemptsFrom(p, w, 0) == attempts + AttemptsFrom(p, w, attempts)
      invariant forall i :: 0 <= i < |slept| ==> Retryable(w, i) && SleepFits(p, w, i, slept[i])
      decreases p.maxRetries - attempts
    {
      var i := attempts;
      var outcome := w.reply(i);
      attempts := attempts + 1;
      if i == p.maxRetries || !Retryable(w, i) { return attempts, slept, Returned(outcome); }
      var sleep: int := delay / 2 + draw(i, delay / 2 + 1);
      if IsThrottled(outcome) {
        sleep := Limiters.RetryAfterDelay(outcome.retryAfter, n => draw(i, n));
      }
      slept := slept + [sleep];
      if w.interrupted(i) { return attempts, slept, ContextError; }
      delay := Min(delay * 2, p.maxDelay);
    }
  }

  // minDelay * (2^k - 1): the first k delays, had none been capped.
  function Budget(p: Policy, k: nat): int { p.minDelay * (Pow2(k) - 1) }

  lemma BudgetStep(p: Policy, k: nat)
    ensures Budget(p, 0) == 0
    ensures Budget(p, k + 1) == Budget(p, k) + p.minDelay * Pow2(k)
  {
    var d: int, q: int := p.minDelay, Pow2(k);
    assert Pow2(k + 1) == 2 * q;
    hide Pow2;
    assert d * (2 * q - 1) == d * (q - 1) + d * q;
  }

  lemma {:induction false} BackoffSoFar(p: Policy, w: World, slept: seq<int>)
    requires p.minDelay <= p.maxDelay
    requires forall i :: 0 <= i < |slept| ==> SleepFits(p, w, i, slept[i])
    ensures BackoffTotal(w, slept) <= Budget(p, |slept|)
  {
    hide Budget, Delay, Pow2;
    if slept == [] {
      BudgetStep(p, 0);
    } else {
      var i := |slept| - 1;
      BackoffSoFar(p, w, slept[..i]);
      DelayDoubles(p, i);
      BudgetStep(p, i);
      assert SleepFits(p, w, i, slept[i]);
    }
  }

  lemma {:induction false} BudgetGrows(p: Policy, a: nat, b: nat)
    requires a <= b
    ensures Budget(p, a) <= Budget(p, b)
    decreases b
  {
    hide Budget, Pow2;
    if a < b {
      BudgetGrows(p, a, b - 1);
      BudgetStep(p, b - 1);
      assert p.minDelay * Pow2(b - 1) >= 0;
    }
  }

  /** However many attempts fail, the backoff of one Get stays below minDelay * 2^maxRetries. */
  lemma BackoffIsBounded(p: Policy, w: World, slept: seq<int>)
    requires p.minDelay <= p.maxDelay && |slept| <= p.maxRetries
    requires forall i :: 0 <= i < |slept| ==> SleepFits(p, w, i, slept[i])
    ensures BackoffTotal(w, slept) <= p.minDelay * (Pow2(p.maxRetries) - 1)
  {
    hide BackoffTotal, SleepFits;
    BackoffSoFar(p, w, slept);
    BudgetGrows(p, |slept|, p.maxRetries);
  }

  // The world answers every attempt with this body, and the caller never cancels.
  ghost predicate AlwaysAnswers(w: World, body: Body) {
    && (forall i :: w.reply(i) == Answer(body))
    && (forall i :: !w.cancelled(i) && !w.interrupted(i))
  }

  lemma {:induction false} SameBodyFrom(p: Policy, w: World, body: Body, i: nat)
    requires i <= p.maxRetries && Decoded(body).Some? && AlwaysAnswers(w, body)
    ensures AttemptsFrom(p, w, i) == if Decoded(body).value in {Syntax, WrongType} then 1 else p.maxRetries - i + 1
    decreases p.maxRetries - i
  {
    if i < p.maxRetries {
      SameBodyFrom(p, w, body, i + 1);
    }
  }

  /** A body that does not decode is given up at once if and only if the decoder blames its
      syntax or its type; every other one is retried to the end, though it is the same body. */
  lemma RetriedUnlessBlamed(p: Policy, w: World, body: Body)
    requires p.maxRetries > 0 && Decoded(body).Some? && AlwaysAnswers(w, body)
    ensures AttemptsFrom(p, w, 0) == 1 <==> body == Malformed || (body.Whole? && body.fit == Misfit)
    ensures AttemptsFrom(p, w, 0) != 1 ==> AttemptsFrom(p, w, 0) == p.maxRetries + 1
  {
    SameBodyFrom(p, w, body, 0);
  }

  /** So a body cut off inside a value, one with bytes after its value, one of whitespace and
      one a custom decoder refuses are each asked for maxRetries + 1 times. */
  lemma CutOffAndTrailingAreRetried(p: Policy, w: World, body: Body)
    requires body in {Blank, Truncated, Whole(Fits, Some('x')), Whole(RefusedByType, None)} && AlwaysAnswers(w, body)
    ensures AttemptsFrom(p, w, 0) == p.maxRetries + 1
  {
    SameBodyFrom(p, w, body, 0);
  }

  /** A mutation is sent at most once, whatever becomes of it. */
  method Send(refuse: bool, verb: string, encodes: bool, w: World) returns (attempts: nat, result: Result)
    ensures attempts <= 1
    ensures attempts == 1 <==> !refuse && verb != "GET" && encodes
    ensures result == Returned(if attempts == 1 then w.reply(0) else Refused)
  {
    if refuse || verb == "GET" || !encodes { return 0, Returned(Refused); }
    return 1, Returned(w.reply(0));
  }

  // The world comes to the same outcome at every attempt, and the caller never cancels.
  ghost predicate AlwaysComesTo(w: World, o: Outcome) {
    && (forall i :: w.reply(i) == o)
    && (forall i :: !w.cancelled(i) && !w.interrupted(i))
  }

  lemma {:induction false} SameOutcomeFrom(p: Policy, w: World, o: Outcome, i: nat)
    requires i <= p.maxRetries && AlwaysComesTo(w, o)
    ensures AttemptsFrom(p, w, i) == if Transient(o) then p.maxRetries - i + 1 else 1
    decreases p.maxRetries - i
  {
    hide Transient;
    if i < p.maxRetries {
      SameOutcomeFrom(p, w, o, i + 1);
    }
  }

  /** Which outcomes are worth another attempt: a lost connection; a 429 that is about the rate, or
      does not say; a server error other than not implemented and HTTP version not supported;
      and a body that does not decode, unless its syntax or type is to blame. They are tried to
      the end, and all others once. */
  lemma RetriedToTheEnd(p: Policy, w: World, o: Outcome)
    requires AlwaysComesTo(w, o)
    ensures AttemptsFrom(p, w, 0) == if WorthAnother(o) then p.maxRetries + 1 else 1
  {
    SameOutcomeFrom(p, w, o, 0);
    assert Transient(o) == WorthAnother(o);
  }

  predicate WorthAnother(o: Outcome) {
    match o
    case Success => false
    case Refused => false
    case Lost => true
    case Status(s, code, _) =>
      if s == 429 then code == "" || code == "RATE_LIMIT_EXCEEDED" else s >= 500 && s != 501 && s != 505
    case Answer(Blank) => true
    case Answer(Truncated) => true
    case Answer(Malformed) => false
    case Answer(Whole(Misfit, _)) => false
    case Answer(Whole(RefusedByType, _)) => true
    case Answer(Whole(Fits, None)) => false
    case Answer(Whole(Fits, Some(next))) => next != ']' && next != '}'
  }

  /** A caller who cancels is not served another attempt. */
  lemma CancelledIsNotRetried(p: Policy, w: World)
    requires w.cancelled(0) || w.interrupted(0)
    ensures AttemptsFrom(p, w, 0) == 1
  {
  }

  /** Only after a 429 is the server's retry-after slept, at least a second and up to half as much
      again; after any other failure it is between half of the attempt's delay and all of it. */
  lemma OnlyThrottlingIsHonoured(p: Policy, w: World, i: nat, sleep: int)
    requires SleepFits(p, w, i, sleep)
    ensures match w.reply(i)
            case Status(429, _, retryAfter) =>
              && sleep >= retryAfter && sleep >= 1_000_000_000
              && (2 * sleep <= 3 * retryAfter || 2 * sleep <= 3 * 1_000_000_000)
            case _ =>
              p.minDelay <= p.maxDelay ==>
                Min(p.minDelay * Pow2(i), p.maxDelay) / 2 <= sleep <= Min(p.minDelay * Pow2(i), p.maxDelay)
  {
    if p.minDelay <= p.maxDelay {
      DelayDoubles(p, i);
    }
    hide Pow2, Delay;
  }
}
