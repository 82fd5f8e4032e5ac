/** The reconnect loop both streams share (socket.go). A method is one critical
    section of the source, or one blocking step between two of them; what the
    network, the clock and the caller's context do is an argument. */
module Sockets {
  import opened Wrappers
  import opened Frames
  import opened Numbers

  const MAX_CONNECTIONS: nat := 5
  const HEALTHY_AFTER: nat := 5_000_000_000
  const MIN_DELAY: nat := 500_000_000
  const MAX_DELAY: nat := 30_000_000_000

  /** Why a keepalive context ended; the first cause given to it stays. */
  datatype Cause = Running | Stopped | Stale

  /** The keepalive context made for connection `id`. */
  datatype Watch = Watch(id: nat, cause: Cause)

  /** A socket's fields as values. Connections are named by numbers. */
  datatype Sock = Sock(conn: Option<nat>, alive: Option<Watch>, closed: bool,
                       delay: nat, openedAt: int, delivered: bool)

  datatype Connected = Up | Refused | AlreadyClosed

  datatype ReadEnd = StreamClosed | ContextDone | Dropped(stale: bool)

  /** What ends the sleep before a reconnect: its timer, the caller's context, or Close. */
  datatype Wake = Rested | ContextEnded | DoneClosed

  function EndAlive(s: Sock): Sock { s.(alive := None) }

  predicate IsStale(s: Sock) { s.alive.Some? && s.alive.value.cause == Stale }

  // The locked part of connect: a socket closed while dialling stays closed,
  // and a connection whose greeting failed is dropped.
  function Adopt(s: Sock, id: nat, pinging: bool, greeted: bool, now: int): (Sock, Connected) {
    if s.closed then (s, AlreadyClosed)
    else if !greeted then (s, Refused)
    else
      (s.(conn := Some(id), openedAt := now, delivered := false,
          alive := if pinging then Some(Watch(id, Running)) else s.alive), Up)
  }

  function FailRead(s: Sock, ctxDone: bool, now: int): (Sock, ReadEnd) {
    var healthy := s.delivered || now - s.openedAt >= HEALTHY_AFTER;
    (EndAlive(s).(conn := None, delay := if healthy then 0 else s.delay),
     if s.closed then StreamClosed
     else if ctxDone then ContextDone
     else Dropped(IsStale(s)))
  }

  function Close(s: Sock): Sock {
    if s.closed then s else EndAlive(s).(closed := true, conn := None)
  }

  function NextDelay(delay: nat, minDelay: nat, maxDelay: nat): nat {
    Min(Max(2 * delay, minDelay), maxDelay)
  }

  // Ending a context that already ended changes nothing.
  function Cancel(c: Cause, why: Cause): Cause { if c == Running then why else c }

  /** One *websocket.Conn as its writers see it. */
  class Conn {
    const id: nat
    var written: seq<ClientFrame>
    var failed: bool

    constructor (id: nat)
      ensures this.id == id && written == [] && !failed
    {
      this.id := id;
      written, failed := [], false;
    }

    method Write(frame: ClientFrame, ok: bool)
      modifies this
      ensures written == if ok then old(written) + [frame] else old(written)
      ensures failed == (old(failed) || !ok)
    {
      if ok {
        written := written + [frame];
      } else {
        failed := true;
      }
    }
  }

  class Alive {
    const id: nat
    var cause: Cause

    constructor (id: nat)
      ensures this.id == id && cause == Running
    {
      this.id := id;
      cause := Running;
    }

    method Stop(why: Cause)
      modifies this
      ensures cause == Cancel(old(cause), why)
    {
      if cause == Running {
        cause := why;
      }
    }
  }

  /** What one round of the keepalive runs into. */
  datatype Ping = Ended | Pong | TimedOut | Broken

  // Only a ping that timed out, after nothing but pongs, ends the context as stale; a context
  // that already ended keeps its cause.
  method Keepalive(alive: Alive, rounds: seq<Ping>) returns (closeConn: bool)
    modifies alive
    ensures closeConn <==> exists i :: 0 <= i < |rounds| && rounds[i] == TimedOut && forall j :: 0 <= j < i ==> rounds[j] == Pong
    ensures alive.cause == if closeConn then Cancel(old(alive.cause), Stale) else old(alive.cause)
  {
    var i := 0;
    while i < |rounds|
      invariant 0 <= i <= |rounds|
      invariant forall j :: 0 <= j < i ==> rounds[j] == Pong
      invariant alive.cause == old(alive.cause)
    {
      if rounds[i] == TimedOut {
        alive.Stop(Stale);
        return true;
      } else if rounds[i] != Pong {
        return false;
      }
      i := i + 1;
    }
    closeConn := false;
  }

  /** The process-wide pool of connection slots (connSlots). */
  class SlotPool {
    var tokens: nat

    constructor ()
      ensures tokens == 0
    {
      tokens := 0;
    }

    method TryAcquire() returns (ok: bool)
      modifies this
      ensures ok == (old(tokens) < MAX_CONNECTIONS)
      ensures tokens == if ok then old(tokens) + 1 else old(tokens)
    {
      ok := tokens < MAX_CONNECTIONS;
      if ok {
        tokens := tokens + 1;
      }
    }

    // Receiving from an empty channel would block.
    method Take() returns (blocked: bool)
      modifies this
      ensures blocked == (old(tokens) == 0)
      ensures tokens == if blocked then 0 else old(tokens) - 1
    {
      blocked := tokens == 0;
      if !blocked {
        tokens := tokens - 1;
      }
    }
  }

  class Socket {
    const pinging: bool
    var minDelay: nat
    var maxDelay: nat
    var conn: Conn?
    var alive: Alive?
    var closed: bool
    var freed: bool
    var delay: nat
    var openedAt: int
    var delivered: bool

    ghost function State(): Sock
      reads this, alive
    {
      Sock(if conn == null then None else Some(conn.id),
           if alive == null then None else Some(Watch(alive.id, alive.cause)),
           closed, delay, openedAt, delivered)
    }

    constructor (pinging: bool)
      ensures this.pinging == pinging
      ensures State() == Sock(None, None, false, 0, 0, false) && !freed
      ensures conn == null && alive == null
    {
      this.pinging := pinging;
      minDelay, maxDelay := 0, 0;
      conn, alive, closed, freed := null, null, false, false;
      delay, openedAt, delivered := 0, 0, false;
    }

    method Release(pool: SlotPool) returns (blocked: bool)
      modifies this`freed, pool
      ensures freed
      ensures blocked == (!old(freed) && old(pool.tokens) == 0)
      ensures pool.tokens == if old(freed) || blocked then old(pool.tokens) else old(pool.tokens) - 1
    {
      blocked := false;
      if !freed {
        freed := true;
        blocked := pool.Take();
      }
    }

    method AdoptConn(c: Conn, greeted: bool, now: int) returns (r: Connected)
      modifies this`conn, this`openedAt, this`delivered, this`alive
      ensures (State(), r) == Adopt(old(State()), c.id, pinging, greeted, now)
      ensures conn == if r == Up then c else old(conn)
      ensures alive == old(alive) || (alive != null && fresh(alive))
    {
      if closed {
        return AlreadyClosed;
      }
      if !greeted {
        return Refused;
      }
      conn, openedAt, delivered := c, now, false;
      if pinging {
        alive := new Alive(c.id);
      }
      r := Up;
    }

    // endAlive: stops the keepalive and says whether it had declared the connection dead.
    method StopAlive() returns (stale: bool)
      modifies this`alive, alive
      ensures stale == IsStale(old(State()))
      ensures State() == EndAlive(old(State())) && alive == null
      ensures old(alive) != null ==> old(alive).cause == Cancel(old(alive.cause), Stopped)
    {
      if alive == null {
        return false;
      }
      alive.Stop(Stopped);
      stale := alive.cause == Stale;
      alive := null;
    }

    // What read does once conn.Read has returned an error.
    method ReadFailed(ctxDone: bool, now: int) returns (r: ReadEnd)
      modifies this`conn, this`alive, alive, this`delay
      ensures (State(), r) == FailRead(old(State()), ctxDone, now)
      ensures conn == null
    {
      conn := null;
      var wasClosed := closed;
      var stale := StopAlive();
      if delivered || now - openedAt >= HEALTHY_AFTER {
        delay := 0;
      }
      if wasClosed {
        return StreamClosed;
      }
      if ctxDone {
        return ContextDone;
      }
      r := Dropped(stale);
    }

    // wait: `draw` is the random source, and `woken` says what ends the sleep.
    method Wait(draw: nat -> nat, woken: Wake) returns (sleep: nat, err: Option<ReadEnd>)
      requires forall n: nat :: n > 0 ==> draw(n) < n
      modifies this`delay
      ensures delay == NextDelay(old(delay), minDelay, maxDelay)
      ensures State() == old(State()).(delay := delay)
      ensures sleep <= delay
      ensures err == match woken
                     case Rested => None
                     case ContextEnded => Some(ContextDone)
                     case DoneClosed => Some(StreamClosed)
    {
      delay := Min(Max(2 * delay, minDelay), maxDelay);
      sleep := draw(delay + 1);
      match woken {
        case Rested => err := None;
        case ContextEnded => err := Some(ContextDone);
        case DoneClosed => err := Some(StreamClosed);
      }
    }

    method CloseSocket(pool: SlotPool) returns (blocked: bool)
      modifies this`closed, this`conn, this`alive, alive, this`freed, pool
      ensures State() == Close(old(State()))
      ensures old(closed) ==> unchanged(this) && unchanged(pool) && !blocked
      ensures !old(closed) ==> freed && conn == null
      ensures !old(closed) ==> blocked == (!old(freed) && old(pool.tokens) == 0)
      ensures !old(closed) && !old(freed) && !blocked ==> pool.tokens == old(pool.tokens) - 1
      ensures old(freed) ==> pool.tokens == old(pool.tokens)
    {
      if closed {
        return false;
      }
      closed := true;
      conn := null;
      var _ := StopAlive();
      blocked := Release(pool);
    }

    // openSocket after the slot is taken: connect once, or give the slot back.
    method Open(pool: SlotPool, dialled: Conn?, greeted: bool, now: int) returns (open: bool, full: bool, blocked: bool)
      modifies this, pool
      requires !freed && !closed
      ensures full == (old(pool.tokens) >= MAX_CONNECTIONS)
      ensures open <==> !full && dialled != null && greeted
      ensures pool.tokens == if open then old(pool.tokens) + 1 else old(pool.tokens)
      ensures freed == (!full && !open)
      ensures !blocked
      ensures open ==> conn == dialled
      ensures State() == if open then Adopt(old(State()), dialled.id, pinging, true, now).0 else old(State())
      ensures !full ==> minDelay == MIN_DELAY && maxDelay == MAX_DELAY
    {
      open, blocked := false, false;
      var acquired := pool.TryAcquire();
      full := !acquired;
      if full {
        return;
      }
      minDelay, maxDelay := MIN_DELAY, MAX_DELAY;
      if dialled != null {
        var r := AdoptConn(dialled, greeted, now);
        open := r == Up;
      }
      if !open {
        blocked := Release(pool);
      }
    }
  }
}
