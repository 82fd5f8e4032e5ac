/** One bucket per budget (internal/transport/ratelimit.go) and the pacing that comes
    before a request is sent (internal/transport/transport.go). Cancels have no bucket. */
module Limiters {
  import opened Numbers
  import opened Wrappers
  import opened RateLimit
  import opened Routing

  datatype Slot = RequestSlot | OrderSlot | LoginSlot

  datatype Budgets = Budgets(request: Level, order: Level, login: Level)

  /** An error response: its status, the bucket its body names ("" for none) and its retry-after. */
  datatype Refusal = Refusal(status: int, bucket: string, retryAfter: int)

  /** The rate-limit headers; a number that does not parse is None. */
  datatype Headers = Headers(bucket: string, limit: Option<int>, remaining: Option<int>)

  function SlotOf(c: Class): Option<Slot> {
    match c
    case RequestClass => Some(RequestSlot)
    case OrderClass => Some(OrderSlot)
    case LoginClass => Some(LoginSlot)
    case CancelClass => None
  }

  function SlotNamed(tag: string): Option<Slot> {
    if tag == "key" || tag == "owner" || tag == "ip" then Some(RequestSlot)
    else if tag == "order" then Some(OrderSlot)
    else if tag == "login" then Some(LoginSlot)
    else None
  }

  // A refusal's own label comes before the header's.
  function LabelOf(h: Headers, e: Option<Refusal>): string {
    if e.Some? && e.value.bucket != "" then e.value.bucket else h.bucket
  }

  // Unlabelled numbers are believed on a request-class call only.
  function Described(c: Class, h: Headers, e: Option<Refusal>): Option<Slot> {
    if LabelOf(h, e) != "" then SlotNamed(LabelOf(h, e))
    else if c == RequestClass then Some(RequestSlot)
    else None
  }

  function At(b: Budgets, s: Slot): Level {
    match s
    case RequestSlot => b.request
    case OrderSlot => b.order
    case LoginSlot => b.login
  }

  function With(b: Budgets, s: Slot, l: Level): Budgets {
    match s
    case RequestSlot => b.(request := l)
    case OrderSlot => b.(order := l)
    case LoginSlot => b.(login := l)
  }

  // What a response teaches the bucket it describes.
  function Learned(l: Level, h: Headers, e: Option<Refusal>, now: int): Level {
    var adopted :=
      if h.limit.Some? && h.remaining.Some? && h.limit.value > 0 && h.remaining.value >= 0
      then Set(l, h.limit.value, h.remaining.value, now) else l;
    if e.Some? && e.value.status == 429 then Block(adopted, now + Max(e.value.retryAfter, SECOND)) else adopted
  }

  function Observed(b: Budgets, c: Class, h: Headers, e: Option<Refusal>, now: int): Budgets {
    var s := Described(c, h, e);
    if s.None? then b else With(b, s.value, Learned(At(b, s.value), h, e, now))
  }

  // How long the pacing prologue of do makes a request wait: one without a bucket, not at all.
  function WaitFor(b: Budgets, c: Class, weight: nat, now: int): nat {
    var s := SlotOf(c);
    if s.None? then 0 else WaitOf(Reserved(At(b, s.value), weight, now), now)
  }

  // The budgets after the prologue, and whether the request is then sent. `during` is what
  // other callers do to the same bucket in the meantime.
  function Paced(b: Budgets, c: Class, weight: nat, now: int, during: seq<Op>, cancelled: bool): (Budgets, bool) {
    var s := SlotOf(c);
    if s.None? then (b, true)
    else
      var (l, sent) := Waited(At(b, s.value), weight, now, during, cancelled);
      (With(b, s.value, l), sent)
  }

  class Limiter {
    const request: Bucket
    const order: Bucket
    const login: Bucket

    ghost predicate Valid() {
      request != order && order != login && request != login
    }

    ghost function State(): Budgets
      reads request, order, login
    {
      Budgets(request.State(), order.State(), login.State())
    }

    constructor ()
      ensures Valid() && fresh(request) && fresh(order) && fresh(login)
      ensures State() == Budgets(Level(0, 0, 0, 0), Level(0, 0, 0, 0), Level(0, 0, 0, 0))
    {
      request := new Bucket();
      order := new Bucket();
      login := new Bucket();
    }

    function Of(c: Class): (b: Bucket?)
      ensures b == null <==> c == CancelClass
    {
      match c
      case RequestClass => request
      case OrderClass => order
      case LoginClass => login
      case CancelClass => null
    }

    function Labelled(tag: string): (b: Bucket?)
      ensures b != null <==> tag in {"key", "owner", "ip", "order", "login"}
    {
      if tag in {"key", "owner", "ip"} then request
      else if tag == "order" then order
      else if tag == "login" then login
      else null
    }

    // Classes share no bucket, and a label names the bucket of at most one class.
    lemma OneBucketPerClass(c: Class, d: Class, tag: string)
      requires Valid() && c != CancelClass
      ensures Of(c) == Of(d) <==> c == d
      ensures Labelled(tag) == Of(c) <==> SlotNamed(tag) == SlotOf(c)
      ensures Labelled("key") == Of(RequestClass) && Labelled("order") == Of(OrderClass) && Labelled("login") == Of(LoginClass)
    {
    }

    // What observe tells the one bucket a response describes.
    static method Learn(b: Bucket, h: Headers, e: Option<Refusal>, now: int)
      modifies b
      ensures b.State() == Learned(old(b.State()), h, e, now)
    {
      if h.limit.Some? && h.remaining.Some? && h.limit.value > 0 && h.remaining.value >= 0 {
        b.Adopt(h.limit.value, h.remaining.value, now);
      }
      if e.Some? && e.value.status == 429 {
        b.BlockUntil(now + Max(e.value.retryAfter, SECOND));
      }
    }

    method Observe(c: Class, h: Headers, e: Option<Refusal>, now: int)
      requires Valid()
      modifies request, order, login
      ensures State() == Observed(old(State()), c, h, e, now)
    {
      hide Learned;
      var b := Of(c);
      var tag := h.bucket;
      if e.Some? && e.value.bucket != "" {
        tag := e.value.bucket;
      }
      if tag != "" {
        b := Labelled(tag);
      } else if c != RequestClass {
        b := null;
      }
      if b != null {
        Learn(b, h, e, now);
      }
    }

    // What do does before it builds the request; an error of the wait ends the request.
    method Pace(m: Method, path: string, orders: Option<nat>, now: int, during: seq<Op>, cancelled: bool)
      returns (sent: bool)
      requires Valid()
      modifies request, order, login
      ensures var (c, weight) := CostOf(m, path, orders);
              (State(), sent) == Paced(old(State()), c, weight, now, during, cancelled)
    {
      hide CostOf, Waited;
      var (c, weight) := CostOf(m, path, orders);
      var b := Of(c);
      sent := true;
      if b != null {
        sent := b.Wait(weight, now, during, cancelled);
      }
    }
  }

  /** In every limiter state, and even if its context has ended, a cancel of a named order or of
      everything is sent at once and charges no bucket. */
  lemma CancelsAreNeverPaced(b: Budgets, id: string, query: string, all: Option<string>, orders: Option<nat>,
                             now: int, during: seq<Op>, cancelled: bool)
    ensures id != "" ==> var (c, w) := CostOf(DELETE, OrderPath(id, query), orders);
              WaitFor(b, c, w, now) == 0 && Paced(b, c, w, now, during, cancelled) == (b, true)
    ensures var (c, w) := CostOf(DELETE, CancelAllPath(all), orders);
              WaitFor(b, c, w, now) == 0 && Paced(b, c, w, now, during, cancelled) == (b, true)
  {
    hide CostOf, OrderPath, CancelAllPath, Waited;
    CancelOrderClass(id, query, orders);
    CancelAllClass(all, orders);
  }

  // WaitFor is what the prologue sleeps: a request whose context has ended is sent all the same
  // exactly when it need not wait.
  lemma WaitingIsSlept(b: Budgets, c: Class, weight: nat, now: int, during: seq<Op>)
    ensures Paced(b, c, weight, now, during, true).1 <==> WaitFor(b, c, weight, now) == 0
    ensures Paced(b, c, weight, now, during, false).1
  {
    hide Reserved, Run, Refunded, WaitOf;
  }

  /** The exception: with an empty id the cancel is paced as an ordinary request, so it waits
      exactly when one would. */
  lemma UnnamedCancelIsPaced(b: Budgets, query: string, orders: Option<nat>, now: int, during: seq<Op>, cancelled: bool)
    ensures var (c, w) := CostOf(DELETE, OrderPath("", query), orders);
            && WaitFor(b, c, w, now) == WaitFor(b, RequestClass, 1, now)
            && Paced(b, c, w, now, during, cancelled) == Paced(b, RequestClass, 1, now, during, cancelled)
  {
    hide CostOf, OrderPath, Waited;
    CancelOrderClass("", query, orders);
  }

  /** A response changes at most one bucket, and never one its label does not name; what the
      server says about cancels changes none. */
  lemma ResponseTouchesNamedBucketOnly(b: Budgets, c: Class, h: Headers, e: Option<Refusal>, now: int, s: Slot)
    requires At(Observed(b, c, h, e, now), s) != At(b, s)
    ensures if LabelOf(h, e) != "" then SlotNamed(LabelOf(h, e)) == Some(s) else c == RequestClass && s == RequestSlot
    ensures forall t: Slot :: t != s ==> At(Observed(b, c, h, e, now), t) == At(b, t)
    ensures LabelOf(h, e) != "cancel"
  {
  }

  /** No submission backlog delays a read or a login: pacing one class leaves every other
      bucket, and so every other wait, as it was. */
  lemma ClassesAreIsolated(b: Budgets, c: Class, weight: nat, now: int, during: seq<Op>, cancelled: bool,
                           d: Class, weight': nat, then': int)
    requires SlotOf(c) != SlotOf(d)
    ensures WaitFor(Paced(b, c, weight, now, during, cancelled).0, d, weight', then') == WaitFor(b, d, weight', then')
  {
    hide Waited, WaitOf, Reserved;
  }

  // The sleep before a 429 is retried; `draw` is the random source.
  method RetryAfterDelay(retryAfter: int, draw: nat -> nat) returns (sleep: int)
    requires forall n: nat :: n > 0 ==> draw(n) < n
    ensures Max(retryAfter, SECOND) <= sleep <= Max(retryAfter, SECOND) + Max(retryAfter, SECOND) / 2
  {
    var floor := Max(retryAfter, SECOND);
    sleep := floor + draw(floor / 2 + 1);
  }
}
