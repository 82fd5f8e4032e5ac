/** Whole runs of one socket: the reading goroutine, its keepalives and callers of
    Close, interleaved in any order at the boundaries of the critical sections. */
module Lifecycle {
  import opened Wrappers
  import opened Numbers
  import opened Sockets

  /** Where the reading goroutine stands between two critical sections. */
  datatype Reader = Top | Waiting | Dialling | Dialled(id: nat) | Reading(id: nat)

  /** What read has returned so far. `Gone` carries the connection whose read failed. */
  datatype Entry = Frame | Reconnected | Gone(id: Option<nat>, stale: bool) | ContextError | ClosedError

  datatype World = World(sock: Sock, reader: Reader, log: seq<Entry>, next: nat, kept: set<nat>, waits: nat)

  datatype Config = Config(pinging: bool, minDelay: nat, maxDelay: nat)

  datatype Step =
    | Look                                       // read takes its snapshot
    | WaitEnds(ctxDone: bool)                    // the backoff timer, or the context, fires
    | WaitSeesClose
    | DialFails(ctxDone: bool)
    | DialWorks
    | Connect(greeted: bool, ctxDone: bool, now: int)
    | ReadWorks
    | ReadBreaks(ctxDone: bool, now: int)
    | KeepaliveDeclaresDead(id: nat)
    | UserCloses

  // The state openSocket leaves: the first connection, numbered 0, is up.
  function Start(c: Config, now: int): World {
    World(Adopt(Sock(None, None, false, 0, 0, false), 0, c.pinging, true, now).0, Top, [], 1,
          if c.pinging then {0} else {}, 0)
  }

  predicate Enabled(w: World, step: Step) {
    match step
    case Look => w.reader == Top
    case WaitEnds(_) => w.reader == Waiting
    case WaitSeesClose => w.reader == Waiting && w.sock.closed
    case DialFails(_) => w.reader == Dialling
    case DialWorks => w.reader == Dialling
    case Connect(_, _, _) => w.reader.Dialled?
    case ReadWorks => w.reader.Reading?
    case ReadBreaks(_, _) => w.reader.Reading?
    case KeepaliveDeclaresDead(id) => id in w.kept
    case UserCloses => true
  }

  function Returns(w: World, e: Entry): World { w.(reader := Top, log := w.log + [e]) }

  function Fails(w: World, ctxDone: bool): World {
    Returns(w, if ctxDone then ContextError else Gone(None, false))
  }

  function Apply(c: Config, w: World, step: Step): World
    requires Enabled(w, step)
  {
    match step
    case Look =>
      if w.sock.closed then Returns(w, ClosedError)
      else if w.sock.conn.None? then
        w.(reader := Waiting, waits := w.waits + 1,
           sock := w.sock.(delay := NextDelay(w.sock.delay, c.minDelay, c.maxDelay)))
      else w.(reader := Reading(w.sock.conn.value))
    case WaitEnds(ctxDone) => if ctxDone then Returns(w, ContextError) else w.(reader := Dialling)
    case WaitSeesClose => Returns(w, ClosedError)
    case DialFails(ctxDone) => Fails(w, ctxDone)
    case DialWorks => w.(reader := Dialled(w.next), next := w.next + 1)
    case Connect(greeted, ctxDone, now) =>
      var (sock, r) := Adopt(w.sock, w.reader.id, c.pinging, greeted, now);
      if r == Up then
        Returns(w.(sock := sock, kept := if c.pinging then w.kept + {w.reader.id} else w.kept), Reconnected)
      else if r == AlreadyClosed then Returns(w, ClosedError)
      else Fails(w, ctxDone)
    case ReadWorks => Returns(w.(sock := w.sock.(delivered := true)), Frame)
    case ReadBreaks(ctxDone, now) =>
      var (sock, r) := FailRead(w.sock, ctxDone, now);
      Returns(w.(sock := sock, waits := if Healthy(w.sock, now) then 0 else w.waits),
              match r
              case StreamClosed => ClosedError
              case ContextDone => ContextError
              case Dropped(stale) => Gone(Some(w.reader.id), stale))
    case KeepaliveDeclaresDead(id) =>
      if w.sock.alive.Some? && w.sock.alive.value.id == id
      then w.(sock := w.sock.(alive := Some(Watch(id, Cancel(w.sock.alive.value.cause, Stale)))))
      else w
    case UserCloses => w.(sock := Close(w.sock))
  }

  predicate Healthy(s: Sock, now: int) { s.delivered || now - s.openedAt >= HEALTHY_AFTER }

  predicate Legal(c: Config, t0: int, steps: seq<Step>)
    decreases |steps|, 0
  {
    steps == [] ||
    (Legal(c, t0, Front(steps)) && Enabled(Run(c, t0, Front(steps)), Last(steps)))
  }

  function Run(c: Config, t0: int, steps: seq<Step>): World
    requires Legal(c, t0, steps)
    decreases |steps|, 1
  {
    if steps == [] then Start(c, t0) else Apply(c, Run(c, t0, Front(steps)), Last(steps))
  }

  function Front(steps: seq<Step>): seq<Step>
    requires steps != []
  {
    steps[..|steps| - 1]
  }

  function Last(steps: seq<Step>): Step
    requires steps != []
  {
    steps[|steps| - 1]
  }

  predicate Declared(steps: seq<Step>, id: nat) { KeepaliveDeclaresDead(id) in steps }

  /** The lifecycle invariant. */
  ghost predicate Inv(c: Config, w: World, dead: iset<nat>) {
    // alive is set exactly when conn is set and pinging is on
    && w.sock.alive.Some? == (w.sock.conn.Some? && c.pinging)
    && (w.sock.alive.Some? ==> w.sock.alive.value.id == w.sock.conn.value)
    // a closed socket holds no connection
    && (w.sock.closed ==> w.sock.conn.None?)
    // only the reading goroutine makes connections
    && (w.reader in {Waiting, Dialling} || w.reader.Dialled? ==> w.sock.conn.None?)
    && (w.reader.Reading? ==> w.sock.closed || w.sock.conn == Some(w.reader.id))
    // a connection's context is stale exactly when its keepalive declared it dead
    && (w.sock.alive.Some? ==> w.sock.alive.value.cause == if w.sock.alive.value.id in dead then Stale else Running)
    && (forall id :: id in dead ==> id in w.kept)
    && (forall id :: id in w.kept ==> c.pinging && id < w.next)
    && (w.reader.Dialled? ==> w.reader.id !in w.kept && w.reader.id < w.next)
  }

  ghost function Dead(steps: seq<Step>): iset<nat> { iset id: nat | Declared(steps, id) }

  lemma StepKeepsInv(c: Config, w: World, step: Step, dead: iset<nat>)
    requires Enabled(w, step) && Inv(c, w, dead)
    ensures Inv(c, Apply(c, w, step), if step.KeepaliveDeclaresDead? then dead + iset{step.id} else dead)
  {
    hide NextDelay;
  }

  lemma DeadGrows(steps: seq<Step>)
    requires steps != []
    ensures Dead(steps) == if Last(steps).KeepaliveDeclaresDead? then Dead(Front(steps)) + iset{Last(steps).id} else Dead(Front(steps))
  {
    assert steps == Front(steps) + [Last(steps)];
  }

  /** The lifecycle invariant holds after every run. */
  lemma {:induction false} RunKeepsInv(c: Config, t0: int, steps: seq<Step>)
    requires Legal(c, t0, steps)
    ensures Inv(c, Run(c, t0, steps), Dead(steps))
  {
    if steps == [] {
      assert Dead(steps) == iset{};
    } else {
      RunKeepsInv(c, t0, Front(steps));
      DeadGrows(steps);
      hide Inv, Apply, Dead, Enabled;
      StepKeepsInv(c, Run(c, t0, Front(steps)), Last(steps), Dead(Front(steps)));
    }
  }

  predicate Breaks(e: Entry) { e.Gone? || e == ContextError }

  ghost predicate UpSince(log: seq<Entry>, i: int) {
    0 <= i < |log| && log[i] == Reconnected && forall k :: i < k < |log| ==> !Breaks(log[k])
  }

  // A step writes at most one entry.
  lemma StepLogs(c: Config, w: World, step: Step)
    requires Enabled(w, step)
    ensures var log, log' := w.log, Apply(c, w, step).log;
            log <= log' && |log'| <= |log| + 1
  {
    hide NextDelay;
  }

  predicate UpOrClosed(w: World) { w.sock.closed || w.sock.conn.Some? }

  lemma StepStaysUp(c: Config, w: World, step: Step, dead: iset<nat>)
    requires Enabled(w, step) && Inv(c, w, dead)
    ensures var w' := Apply(c, w, step); var n := |w.log|;
            && (|w'.log| > n && w'.log[n] == Reconnected ==> UpOrClosed(w') && !UpOrClosed(w))
            && (UpOrClosed(w) && !UpOrClosed(w') ==> |w'.log| > n && Breaks(w'.log[n]))
  {
    hide NextDelay;
  }

  lemma {:induction false} UpMeansConnected(c: Config, t0: int, steps: seq<Step>, i: int)
    requires Legal(c, t0, steps)
    requires UpSince(Run(c, t0, steps).log, i)
    ensures UpOrClosed(Run(c, t0, steps))
    decreases |steps|
  {
    if steps != [] {
      var w := Run(c, t0, Front(steps));
      RunKeepsInv(c, t0, Front(steps));
      StepLogs(c, w, Last(steps));
      StepStaysUp(c, w, Last(steps), Dead(Front(steps)));
      hide Apply, Inv, Enabled, Dead, UpOrClosed, Breaks;
      var w' := Run(c, t0, steps);
      if i < |w.log| {
        assert forall k :: 0 <= k < |w.log| ==> w.log[k] == w'.log[k];
        UpMeansConnected(c, t0, Front(steps), i);
      }
    }
  }

  /** Between two Reconnected events lies a Disconnected or a context error. */
  lemma {:induction false} ReconnectsAreSeparated(c: Config, t0: int, steps: seq<Step>, i: nat, j: nat)
    requires Legal(c, t0, steps)
    requires i < j < |Run(c, t0, steps).log|
    requires Run(c, t0, steps).log[i] == Run(c, t0, steps).log[j] == Reconnected
    ensures exists k :: i < k < j && Breaks(Run(c, t0, steps).log[k])
    decreases |steps|
  {
    var w, w' := Run(c, t0, Front(steps)), Run(c, t0, steps);
    StepLogs(c, w, Last(steps));
    RunKeepsInv(c, t0, Front(steps));
    StepStaysUp(c, w, Last(steps), Dead(Front(steps)));
    hide Apply, Inv, Enabled, Dead, UpOrClosed, Breaks;
    assert forall k :: 0 <= k < |w.log| ==> w.log[k] == w'.log[k];
    if j < |w.log| {
      ReconnectsAreSeparated(c, t0, Front(steps), i, j);
      var k :| i < k < j && Breaks(w.log[k]);
      assert Breaks(w'.log[k]);
    } else {
      assert !UpOrClosed(w);
      BreakBefore(c, t0, Front(steps), i);
      var k :| i < k < |w.log| && Breaks(w.log[k]);
      assert Breaks(w'.log[k]);
    }
  }

  lemma BreakBefore(c: Config, t0: int, steps: seq<Step>, i: nat)
    requires Legal(c, t0, steps) && !UpOrClosed(Run(c, t0, steps))
    requires i < |Run(c, t0, steps).log| && Run(c, t0, steps).log[i] == Reconnected
    ensures exists k :: i < k < |Run(c, t0, steps).log| && Breaks(Run(c, t0, steps).log[k])
  {
    hide Run, UpOrClosed, Breaks;
    if UpSince(Run(c, t0, steps).log, i) {
      UpMeansConnected(c, t0, steps, i);
    }
  }

  /** Once closed, the socket stays closed with no connection, and no later step reconnects. */
  lemma {:induction false} ClosedForGood(c: Config, t0: int, steps: seq<Step>, more: seq<Step>)
    requires Legal(c, t0, steps) && Run(c, t0, steps).sock.closed
    requires Legal(c, t0, steps + more)
    ensures var w, w' := Run(c, t0, steps), Run(c, t0, steps + more);
            && w'.sock.closed && w'.sock.conn.None? && w'.sock.alive.None?
            && w.log <= w'.log
            && forall k :: |w.log| <= k < |w'.log| ==> w'.log[k] != Reconnected
    decreases |more|
  {
    if more == [] {
      assert steps + more == steps;
      RunKeepsInv(c, t0, steps);
      hide Apply, Dead;
    } else {
      assert Front(steps + more) == steps + Front(more) && Last(steps + more) == Last(more);
      ClosedForGood(c, t0, steps, Front(more));
      var w := Run(c, t0, steps + Front(more));
      RunKeepsInv(c, t0, steps + Front(more));
      ClosedStays(c, w, Last(more), Dead(steps + Front(more)));
      hide Apply, Inv, Enabled, Dead;
    }
  }

  lemma ClosedStays(c: Config, w: World, step: Step, dead: iset<nat>)
    requires Enabled(w, step) && Inv(c, w, dead) && w.sock.closed
    ensures var w' := Apply(c, w, step);
            && w'.sock.closed && w'.sock.conn.None? && w'.sock.alive.None?
            && w.log <= w'.log
            && forall k :: |w.log| <= k < |w'.log| ==> w'.log[k] != Reconnected
  {
    hide NextDelay;
  }

  /** A lost connection is reported stale exactly when its own keepalive had declared it dead. */
  lemma {:induction false} StaleIffDeclaredDead(c: Config, t0: int, steps: seq<Step>, k: nat)
    requires Legal(c, t0, steps)
    requires k < |Run(c, t0, steps).log| && Run(c, t0, steps).log[k].Gone?
    requires Run(c, t0, steps).log[k].id.Some?
    ensures exists n: nat ::
              && n < |steps| && Legal(c, t0, steps[..n]) && steps[n].ReadBreaks?
              && |Run(c, t0, steps[..n]).log| == k
              && (Run(c, t0, steps).log[k].stale <==> Declared(steps[..n], Run(c, t0, steps).log[k].id.value))
    decreases |steps|
  {
    var w, w' := Run(c, t0, Front(steps)), Run(c, t0, steps);
    StepLogs(c, w, Last(steps));
    RunKeepsInv(c, t0, Front(steps));
    GoneIsReported(c, w, Last(steps), Dead(Front(steps)));
    hide Apply, Inv, Enabled;
    if k < |w.log| {
      StaleIffDeclaredDead(c, t0, Front(steps), k);
      var n: nat :| n < |Front(steps)| && Legal(c, t0, Front(steps)[..n]) && Front(steps)[n].ReadBreaks?
                    && |Run(c, t0, Front(steps)[..n]).log| == k
                    && (w.log[k].stale <==> Declared(Front(steps)[..n], w.log[k].id.value));
      assert Front(steps)[..n] == steps[..n];
    } else {
      var n: nat, id := |steps| - 1, w'.log[k].id.value;
      assert steps[..n] == Front(steps) && steps[n] == Last(steps);
      assert id in Dead(steps[..n]) <==> Declared(steps[..n], id);
    }
  }

  // A step that reports a connection gone failed a read of it, and says stale by the cause.
  lemma GoneIsReported(c: Config, w: World, step: Step, dead: iset<nat>)
    requires Enabled(w, step) && Inv(c, w, dead)
    ensures var log, log' := w.log, Apply(c, w, step).log;
            |log'| > |log| && log'[|log|].Gone? && log'[|log|].id.Some? ==>
              step.ReadBreaks? && (log'[|log|].stale <==> log'[|log|].id.value in dead)
  {
    hide NextDelay;
  }

  // --- what resets the backoff ---------------------------------------------------------

  // Step i made a connection: it was greeted, and the socket had not been closed.
  predicate Makes(steps: seq<Step>, i: nat)
    requires i < |steps|
  {
    steps[i].Connect? && steps[i].greeted && UserCloses !in steps[..i]
  }

  // When the newest connection was made; the one openSocket leaves was made at t0.
  function MadeAt(t0: int, steps: seq<Step>): int {
    if steps == [] then t0
    else if Makes(steps, |steps| - 1) then Last(steps).now
    else MadeAt(t0, Front(steps))
  }

  // A frame was read since the newest connection was made.
  predicate ReadSince(steps: seq<Step>) {
    steps != [] && !Makes(steps, |steps| - 1) && (Last(steps).ReadWorks? || ReadSince(Front(steps)))
  }

  lemma {:induction false} ClosedByCaller(c: Config, t0: int, steps: seq<Step>)
    requires Legal(c, t0, steps)
    ensures Run(c, t0, steps).sock.closed <==> UserCloses in steps
  {
    if steps != [] {
      ClosedByCaller(c, t0, Front(steps));
      assert steps == Front(steps) + [Last(steps)];
      StepCloses(c, Run(c, t0, Front(steps)), Last(steps));
      hide Apply, Enabled;
    }
  }

  lemma StepCloses(c: Config, w: World, step: Step)
    requires Enabled(w, step)
    ensures Apply(c, w, step).sock.closed <==> w.sock.closed || step.UserCloses?
  {
    hide NextDelay;
  }

  lemma StepDates(c: Config, w: World, step: Step)
    requires Enabled(w, step)
    ensures var s := Apply(c, w, step).sock;
            if step.Connect? && step.greeted && !w.sock.closed then s.openedAt == step.now && !s.delivered
            else s.openedAt == w.sock.openedAt && (s.delivered <==> w.sock.delivered || step.ReadWorks?)
  {
    hide NextDelay;
  }

  lemma {:induction false} RunDates(c: Config, t0: int, steps: seq<Step>)
    requires Legal(c, t0, steps)
    ensures Run(c, t0, steps).sock.openedAt == MadeAt(t0, steps)
    ensures Run(c, t0, steps).sock.delivered <==> ReadSince(steps)
  {
    if steps != [] {
      RunDates(c, t0, Front(steps));
      ClosedByCaller(c, t0, Front(steps));
      StepDates(c, Run(c, t0, Front(steps)), Last(steps));
      assert steps[..|steps| - 1] == Front(steps) && steps[|steps| - 1] == Last(steps);
      hide Apply, Enabled;
    }
  }

  /** A failed read resets the backoff if and only if a frame was read since the connection was
      made, or the connection was made five seconds or longer ago; otherwise the count of
      waits goes on from where it was before that connection. */
  lemma OnlyHealthResets(c: Config, t0: int, steps: seq<Step>, ctxDone: bool, now: int)
    requires Legal(c, t0, steps) && Run(c, t0, steps).reader.Reading?
    ensures var more := steps + [ReadBreaks(ctxDone, now)];
            && Legal(c, t0, more)
            && Run(c, t0, more).waits
               == (if ReadSince(steps) || now - MadeAt(t0, steps) >= 5_000_000_000 then 0 else Run(c, t0, steps).waits)
  {
    var more := steps + [ReadBreaks(ctxDone, now)];
    RunDates(c, t0, steps);
    assert Front(more) == steps && Last(more) == ReadBreaks(ctxDone, now);
  }

  lemma StepCounts(c: Config, w: World, step: Step)
    requires Enabled(w, step) && !step.ReadBreaks?
    ensures Apply(c, w, step).waits
         == w.waits + if step.Look? && !w.sock.closed && w.sock.conn.None? then 1 else 0
  {
    hide NextDelay;
  }

  // The delay of the k-th wait since the last reset.
  function NthDelay(c: Config, k: nat): nat {
    if k == 0 then 0 else Min(c.minDelay * Pow2(k - 1), c.maxDelay)
  }

  lemma NextDelayDoubles(c: Config, k: nat)
    requires 0 < c.minDelay <= c.maxDelay
    ensures NextDelay(NthDelay(c, k), c.minDelay, c.maxDelay) == NthDelay(c, k + 1)
  {
    if k > 0 {
      var p := Pow2(k - 1);
      assert Pow2(k) == 2 * p;
      PowPositive(k - 1);
      hide Pow2;
      TwiceAsLong(c.minDelay, p);
    }
  }

  lemma TwiceAsLong(d: nat, p: nat)
    requires p >= 1
    ensures d * (2 * p) == 2 * (d * p) && d * p >= d
  {
  }

  lemma {:induction false} PowPositive(k: nat)
    ensures Pow2(k) >= 1
  {
    if k > 0 {
      PowPositive(k - 1);
    }
  }

  lemma NthDelayFirst(c: Config)
    ensures NthDelay(c, 0) == 0
  {
  }

  lemma StepKeepsDelay(c: Config, w: World, step: Step)
    requires 0 < c.minDelay <= c.maxDelay
    requires Enabled(w, step) && w.sock.delay == NthDelay(c, w.waits)
    ensures Apply(c, w, step).sock.delay == NthDelay(c, Apply(c, w, step).waits)
  {
    hide NthDelay, NextDelay;
    NthDelayFirst(c);
    NextDelayDoubles(c, w.waits);
  }

  /** The delay doubles with every wait since a healthy connection, up to the cap. */
  lemma {:induction false} BackoffDoubles(c: Config, t0: int, steps: seq<Step>)
    requires 0 < c.minDelay <= c.maxDelay
    requires Legal(c, t0, steps)
    ensures Run(c, t0, steps).sock.delay == NthDelay(c, Run(c, t0, steps).waits)
  {
    if steps == [] {
      NthDelayFirst(c);
    } else {
      hide NthDelay, Apply, Enabled, Start;
      BackoffDoubles(c, t0, Front(steps));
      StepKeepsDelay(c, Run(c, t0, Front(steps)), Last(steps));
    }
  }

  /** With the delays openSocket sets, the waits are capped at half a second, 1, 2, 4, 8 and 16
      seconds, and at 30 seconds from then on. */
  lemma DefaultDelays(c: Config, k: nat)
    requires c.minDelay == MIN_DELAY && c.maxDelay == MAX_DELAY && k > 0
    ensures k <= 6 ==> 2 * NthDelay(c, k) == [1, 2, 4, 8, 16, 32][k - 1] * 1_000_000_000
    ensures k > 6 ==> NthDelay(c, k) == 30_000_000_000
  {
    if k > 6 {
      PowGrows(k - 1);
    } else {
      assert Pow2(0) == 1 && Pow2(1) == 2 && Pow2(2) == 4 && Pow2(3) == 8 && Pow2(4) == 16 && Pow2(5) == 32;
    }
  }

  lemma {:induction false} PowGrows(k: nat)
    requires k >= 6
    ensures Pow2(k) >= 64
  {
    if k > 6 {
      PowGrows(k - 1);
    }
  }

  // --- what read returns ---------------------------------------------------------------

  // What a step makes read return, if anything, in terms of the step, of whether Close was
  // called before it, and of the state the reader was in.
  function Reported(w: World, step: Step, closed: bool): Option<Entry> {
    match step
    case Look => if closed then Some(ClosedError) else None
    case WaitEnds(ctxDone) => if ctxDone then Some(ContextError) else None
    case WaitSeesClose => Some(ClosedError)
    case DialFails(ctxDone) => Some(if ctxDone then ContextError else Gone(None, false))
    case DialWorks => None
    case Connect(greeted, ctxDone, _) =>
      Some(if closed then ClosedError else if greeted then Reconnected else if ctxDone then ContextError else Gone(None, false))
    case ReadWorks => Some(Frame)
    case ReadBreaks(ctxDone, _) =>
      Some(if closed then ClosedError
           else if ctxDone then ContextError
           else Gone(if w.reader.Reading? then Some(w.reader.id) else None, IsStale(w.sock)))
    case KeepaliveDeclaresDead(_) => None
    case UserCloses => None
  }

  lemma StepReports(c: Config, w: World, step: Step)
    requires Enabled(w, step)
    ensures var e := Reported(w, step, w.sock.closed);
            Apply(c, w, step).log == w.log + if e.Some? then [e.value] else []
  {
    hide NextDelay, IsStale;
    assert w.log + [] == w.log;
  }

  /** What read returns after a run: once Close was called a failed read, a look and a connection
      made too late all say so, before the caller's context is asked; a drop is reported only
      where neither has ended. */
  lemma CloseComesFirst(c: Config, t0: int, steps: seq<Step>)
    requires steps != [] && Legal(c, t0, steps)
    ensures var w, e := Run(c, t0, Front(steps)), Reported(Run(c, t0, Front(steps)), Last(steps), UserCloses in Front(steps));
            Run(c, t0, steps).log == w.log + if e.Some? then [e.value] else []
  {
    ClosedByCaller(c, t0, Front(steps));
    hide Apply, Enabled, Reported;
    StepReports(c, Run(c, t0, Front(steps)), Last(steps));
  }
}
