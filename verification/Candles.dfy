/** FetchOHLCVHistory (market.go): walking a market's bars backwards, newest first, one
    request per page. A server is any function of the request's number and its endTime;
    an endTime of 0 is not sent, and the server reads it as now. The caller breaks out of
    the loop after take bars. */
module Candles {
  import opened Numbers
  import opened Wrappers

  datatype Bar = Bar(ts: int, ohlcv: string)

  datatype Reply = Failed | Page(bars: seq<Bar>)

  type Server = (nat, int) -> Reply

  datatype Ending =
    | RequestFailed
    | NoOlderBars
    | IgnoredEndTime
    | PassedStart
    | ReachedEpoch
    | CallerBroke

  // What the caller got, why the walk ended, and the endTime of every request made.
  datatype Walked = Walked(got: seq<Bar>, end: Ending, asked: seq<int>)

  function Continue(got: seq<Bar>, asked: seq<int>, rest: Walked): Walked {
    Walked(got + rest.got, rest.end, asked + rest.asked)
  }

  // The bars one page yields: newest first, down to stop, at most take of them.
  function Yielded(bars: seq<Bar>, stop: int, take: nat): (out: seq<Bar>)
    ensures |out| <= |bars| && |out| <= take
  {
    if bars == [] || take == 0 || bars[|bars| - 1].ts < stop then []
    else [bars[|bars| - 1]] + Yielded(bars[..|bars| - 1], stop, take - 1)
  }

  // Why a page that yielded out ended the walk, if it did.
  function Cut(bars: seq<Bar>, out: seq<Bar>, take: nat): Option<Ending> {
    if |out| == take then Some(CallerBroke) else if |out| < |bars| then Some(PassedStart) else None
  }

  function Walk(server: Server, round: nat, stop: int, endTime: int, take: nat): Walked
    requires take > 0
    decreases take
  {
    match server(round, endTime)
    case Failed => Walked([], RequestFailed, [endTime])
    case Page(bars) =>
      if bars == [] then Walked([], NoOlderBars, [endTime])
      else if endTime != 0 && bars[|bars| - 1].ts > endTime then Walked([], IgnoredEndTime, [endTime])
      else
        var out := Yielded(bars, stop, take);
        if Cut(bars, out, take).Some? then Walked(out, Cut(bars, out, take).value, [endTime])
        else if bars[0].ts <= 0 then Walked(out, ReachedEpoch, [endTime])
        else Continue(out, [endTime], Walk(server, round + 1, stop, bars[0].ts - 1, take - |out|))
  }

  method YieldPage(bars: seq<Bar>, stop: int, take: nat) returns (out: seq<Bar>, cut: Option<Ending>)
    requires take > 0
    ensures out == Yielded(bars, stop, take) && cut == Cut(bars, out, take)
  {
    hide Yielded;
    out := [];
    var i := |bars|;
    assert bars[..i] == bars;
    while i > 0
      invariant 0 <= i <= |bars| && |out| == |bars| - i < take
      invariant Yielded(bars, stop, take) == out + Yielded(bars[..i], stop, take - |out|)
    {
      i := i - 1;
      YieldedAt(bars, i, stop, take - |out|);
      if bars[i].ts < stop { return out, Some(PassedStart); }
      out := out + [bars[i]];
      if |out| == take { return out, Some(CallerBroke); }
    }
    YieldedAtEnd(bars, stop, take - |out|);
    cut := None;
  }

  lemma YieldedAt(bars: seq<Bar>, i: nat, stop: int, take: nat)
    requires i < |bars| && take > 0
    ensures Yielded(bars[..i + 1], stop, take)
         == if bars[i].ts < stop then [] else [bars[i]] + Yielded(bars[..i], stop, take - 1)
    ensures Yielded(bars[..i], stop, 0) == []
  {
    assert bars[..i + 1][..i] == bars[..i];
  }

  lemma YieldedAtEnd(bars: seq<Bar>, stop: int, take: nat)
    ensures Yielded(bars[..0], stop, take) == []
  {
  }

  lemma ContinueTwice(got: seq<Bar>, asked: seq<int>, out: seq<Bar>, e: int, rest: Walked)
    ensures Continue(got, asked, Continue(out, [e], rest)) == Continue(got + out, asked + [e], rest)
  {
    assert got + (out + rest.got) == (got + out) + rest.got;
    assert asked + ([e] + rest.asked) == (asked + [e]) + rest.asked;
  }

  lemma ContinueLast(got: seq<Bar>, asked: seq<int>, out: seq<Bar>, end: Ending, e: int)
    ensures Continue(got, asked, Walked(out, end, [e])) == Walked(got + out, end, asked + [e])
    ensures got + [] == got
  {
  }

  /** The loop computes Walk. */
  method FetchHistory(server: Server, startTime: int, endTime: int, take: nat) returns (walked: Walked)
    requires take > 0
    ensures walked == Walk(server, 0, startTime, endTime, take)
  {
    hide Yielded, Continue, Cut;
    var stop, until := startTime, endTime;
    var got: seq<Bar>, asked: seq<int>, round: nat := [], [], 0;
    ContinueNone(Walk(server, 0, startTime, endTime, take));
    while true
      invariant |got| < take
      invariant Walk(server, 0, startTime, endTime, take)
             == Continue(got, asked, Walk(server, round, stop, until, take - |got|))
      decreases take - |got|
    {
      var reply := server(round, until);
      if reply.Failed? {
        ContinueLast(got, asked, [], RequestFailed, until);
        return Walked(got, RequestFailed, asked + [until]);
      }
      var bars := reply.bars;
      if |bars| == 0 {
        ContinueLast(got, asked, [], NoOlderBars, until);
        return Walked(got, NoOlderBars, asked + [until]);
      }
      if until != 0 && bars[|bars| - 1].ts > until {
        ContinueLast(got, asked, [], IgnoredEndTime, until);
        return Walked(got, IgnoredEndTime, asked + [until]);
      }
      var out, cut := YieldPage(bars, stop, take - |got|);
      if cut.Some? {
        ContinueLast(got, asked, out, cut.value, until);
        return Walked(got + out, cut.value, asked + [until]);
      }
      if bars[0].ts <= 0 {
        ContinueLast(got, asked, out, ReachedEpoch, until);
        return Walked(got + out, ReachedEpoch, asked + [until]);
      }
      CutNone(bars, out, take - |got|);
      ContinueTwice(got, asked, out, until, Walk(server, round + 1, stop, bars[0].ts - 1, take - |got| - |out|));
      got, asked := got + out, asked + [until];
      round, until := round + 1, bars[0].ts - 1;
    }
  }

  lemma ContinueNone(w: Walked)
    ensures Continue([], [], w) == w
  {
  }

  lemma CutNone(bars: seq<Bar>, out: seq<Bar>, take: nat)
    requires |out| <= |bars| && |out| <= take && Cut(bars, out, take).None?
    ensures |out| == |bars| < take
  {
  }

  // --- every server with ascending pages -----------------------------------------------

  predicate Ascending(bars: seq<Bar>) { forall i, j :: 0 <= i < j < |bars| ==> bars[i].ts <= bars[j].ts }

  function Served(server: Server, round: nat, asked: seq<int>, i: nat): Reply
    requires i < |asked|
  {
    server(round + i, asked[i])
  }

  // Every page the walk was served ascends.
  predicate ServedAscend(server: Server, round: nat, asked: seq<int>) {
    forall i: nat :: i < |asked| && Served(server, round, asked, i).Page? ==>
      Ascending(Served(server, round, asked, i).bars)
  }

  // The oldest bar of a page; 0 where there is none.
  function Oldest(reply: Reply): int {
    match reply
    case Failed => 0
    case Page(bars) => if bars == [] then 0 else bars[0].ts
  }

  // Each request ends just before the oldest bar served last, and so asks for strictly
  // earlier bars than the request before it, unless that one was for now.
  predicate StepsBack(server: Server, round: nat, asked: seq<int>) {
    forall i: nat :: i < |asked| - 1 ==> StepsBackAt(server, round, asked, i)
  }

  predicate StepsBackAt(server: Server, round: nat, asked: seq<int>, i: nat)
    requires i < |asked| - 1
  {
    && 0 <= asked[i + 1] == Oldest(Served(server, round, asked, i)) - 1
    && (asked[i] != 0 ==> asked[i + 1] < asked[i])
  }

  lemma {:induction false} YieldedFirst(bars: seq<Bar>, stop: int, take: nat)
    requires bars != [] && |Yielded(bars, stop, take)| == |bars|
    ensures bars[0].ts >= stop
  {
    if |bars| > 1 {
      YieldedFirst(bars[..|bars| - 1], stop, take - 1);
    }
  }

  lemma {:induction false} RequestsStepBack(server: Server, round: nat, stop: int, endTime: int, take: nat)
    requires take > 0
    requires ServedAscend(server, round, Walk(server, round, stop, endTime, take).asked)
    ensures var asked := Walk(server, round, stop, endTime, take).asked;
            asked != [] && asked[0] == endTime && StepsBack(server, round, asked)
    decreases take
  {
    hide Yielded, StepsBack, ServedAscend;
    var reply, asked := server(round, endTime), Walk(server, round, stop, endTime, take).asked;
    if reply.Page? && reply.bars != [] && !(endTime != 0 && reply.bars[|reply.bars| - 1].ts > endTime) {
      var bars := reply.bars;
      var out := Yielded(bars, stop, take);
      if Cut(bars, out, take).None? && bars[0].ts > 0 {
        var later := Walk(server, round + 1, stop, bars[0].ts - 1, take - |out|).asked;
        assert asked == [endTime] + later;
        ServedJoin(server, round, endTime, later);
        RequestsStepBack(server, round + 1, stop, bars[0].ts - 1, take - |out|);
        hide Walk, Cut;
        StepsBackJoin(server, round, endTime, later);
      } else {
        StepsBackOne(server, round, endTime);
      }
    } else {
      StepsBackOne(server, round, endTime);
    }
  }

  lemma StepsBackOne(server: Server, round: nat, endTime: int)
    ensures StepsBack(server, round, [endTime])
  {
  }

  lemma ServedShift(server: Server, round: nat, endTime: int, later: seq<int>, i: nat)
    requires i < |later|
    ensures Served(server, round, [endTime] + later, i + 1) == Served(server, round + 1, later, i)
  {
    assert round + (i + 1) == round + 1 + i;
  }

  lemma ServedJoin(server: Server, round: nat, endTime: int, later: seq<int>)
    requires ServedAscend(server, round, [endTime] + later)
    ensures ServedAscend(server, round + 1, later)
    ensures server(round, endTime).Page? ==> Ascending(server(round, endTime).bars)
  {
    hide Ascending;
    forall i: nat {:trigger later[i]} | i < |later|
      ensures Served(server, round + 1, later, i) == Served(server, round, [endTime] + later, i + 1)
    {
      ServedShift(server, round, endTime, later, i);
    }
    assert Served(server, round, [endTime] + later, 0) == server(round, endTime);
  }

  lemma StepsBackJoin(server: Server, round: nat, endTime: int, later: seq<int>)
    requires later != [] && StepsBack(server, round + 1, later)
    requires 0 <= later[0] == Oldest(server(round, endTime)) - 1
    requires endTime != 0 ==> later[0] < endTime
    ensures StepsBack(server, round, [endTime] + later)
  {
    hide Oldest;
    var asked := [endTime] + later;
    forall i: nat | i < |asked| - 1 ensures StepsBackAt(server, round, asked, i) {
      if i > 0 {
        ServedShift(server, round, endTime, later, i - 1);
        assert StepsBackAt(server, round + 1, later, i - 1);
        assert asked[i + 1] == later[(i - 1) + 1] && asked[i] == later[i - 1];
      } else {
        assert Served(server, round, asked, 0) == server(round, endTime);
      }
    }
  }

  predicate StartsAtOne(server: Server, round: nat, asked: seq<int>, i: nat)
    requires i < |asked|
  {
    Oldest(Served(server, round, asked, i)) == 1
  }

  // The endTimes from the second request on strictly fall, and never reach 0.
  predicate Falling(asked: seq<int>) {
    forall i: nat :: i < |asked| - 1 ==> FallsAt(asked, i)
  }

  predicate FallsAt(asked: seq<int>, i: nat)
    requires i < |asked| - 1
  {
    asked[i + 1] > 0 && (i > 0 ==> asked[i + 1] < asked[i])
  }

  /** Against every server the walk is served ascending pages by, its requests fall strictly
      if and only if no page but the last starts at timestamp 1; then their number is bounded
      by the first ones, however many bars the caller is willing to take. */
  lemma WalkFalls(server: Server, round: nat, stop: int, endTime: int, take: nat)
    requires take > 0
    requires ServedAscend(server, round, Walk(server, round, stop, endTime, take).asked)
    ensures var asked := Walk(server, round, stop, endTime, take).asked;
            && (Falling(asked) <==> forall i: nat :: i < |asked| - 1 ==> !StartsAtOne(server, round, asked, i))
            && (Falling(asked) ==>
                  |asked| <= if endTime != 0 then Max(endTime, 1) else Max(Oldest(server(round, 0)), 1))
  {
    RequestsStepBack(server, round, stop, endTime, take);
    hide Walk, Oldest, Ascending, ServedAscend;
    var asked := Walk(server, round, stop, endTime, take).asked;
    FallingIff(server, round, asked);
    if |asked| > 1 {
      assert Served(server, round, asked, 0) == server(round, endTime);
      if Falling(asked) {
        FallingTail(asked);
        FallingIsShort(asked[1..]);
      }
    }
  }

  lemma FallingIff(server: Server, round: nat, asked: seq<int>)
    requires StepsBack(server, round, asked)
    ensures Falling(asked) <==> forall i: nat :: i < |asked| - 1 ==> !StartsAtOne(server, round, asked, i)
  {
    hide Oldest, Served;
    forall i: nat | i < |asked| - 1 ensures asked[i + 1] > 0 <==> !StartsAtOne(server, round, asked, i) {
      assert StepsBackAt(server, round, asked, i);
    }
    if forall i: nat :: i < |asked| - 1 ==> !StartsAtOne(server, round, asked, i) {
      forall i: nat | i < |asked| - 1 ensures FallsAt(asked, i) {
        assert !StartsAtOne(server, round, asked, i) && StepsBackAt(server, round, asked, i);
        assert i > 0 ==> !StartsAtOne(server, round, asked, i - 1) && asked[(i - 1) + 1] > 0;
      }
    }
    if Falling(asked) {
      forall i: nat | i < |asked| - 1 ensures !StartsAtOne(server, round, asked, i) {
        assert FallsAt(asked, i);
      }
    }
  }

  lemma FallingTail(asked: seq<int>)
    requires |asked| > 1 && Falling(asked)
    ensures forall i :: 0 <= i < |asked[1..]| ==> asked[1..][i] > 0
    ensures forall i :: 1 <= i < |asked[1..]| ==> asked[1..][i] < asked[1..][i - 1]
  {
    forall i | 0 <= i < |asked[1..]| ensures asked[1..][i] > 0 && (i > 0 ==> asked[1..][i] < asked[1..][i - 1]) {
      assert asked[1..][i] == asked[i + 1] && FallsAt(asked, i);
      assert i > 0 ==> asked[1..][i - 1] == asked[i];
    }
  }

  lemma {:induction false} FallingIsShort(asked: seq<int>)
    requires asked != [] && forall i :: 0 <= i < |asked| ==> asked[i] > 0
    requires forall i :: 1 <= i < |asked| ==> asked[i] < asked[i - 1]
    ensures |asked| <= asked[0]
  {
    if |asked| > 1 {
      FallingIsShort(asked[1..]);
    }
  }

  // --- why a walk ends -----------------------------------------------------------------

  // The page can be used: it has bars, and none newer than was asked for.
  predicate Usable(reply: Reply, endTime: int) {
    reply.Page? && reply.bars != [] && (endTime == 0 || reply.bars[|reply.bars| - 1].ts <= endTime)
  }

  // Some bar of the page is older than the start of the window.
  predicate Reaches(reply: Reply, stop: int)
    requires reply.Page?
  {
    exists bar :: bar in reply.bars && bar.ts < stop
  }

  // The cause of each ending, in terms of the last reply and of how much the caller has.
  predicate Ends(end: Ending, reply: Reply, endTime: int, stop: int, full: bool) {
    match end
    case RequestFailed => reply.Failed?
    case NoOlderBars => reply == Page([])
    case IgnoredEndTime =>
      reply.Page? && reply.bars != [] && endTime != 0 && reply.bars[|reply.bars| - 1].ts > endTime
    case CallerBroke => Usable(reply, endTime) && full
    case PassedStart => Usable(reply, endTime) && !full && Reaches(reply, stop)
    case ReachedEpoch => Usable(reply, endTime) && !full && !Reaches(reply, stop) && reply.bars[0].ts <= 0
  }

  lemma {:induction false} YieldedAll(bars: seq<Bar>, stop: int, take: nat)
    requires |Yielded(bars, stop, take)| < take
    ensures |Yielded(bars, stop, take)| == |bars| <==> forall bar :: bar in bars ==> bar.ts >= stop
  {
    if bars != [] {
      var n := |bars| - 1;
      assert bars == bars[..n] + [bars[n]];
      if bars[n].ts >= stop {
        YieldedAll(bars[..n], stop, take - 1);
      }
    }
  }

  lemma LastEnds(server: Server, round: nat, stop: int, endTime: int, take: nat)
    requires take > 0
    ensures var w := Walk(server, round, stop, endTime, take);
            |w.asked| == 1 ==> Ends(w.end, server(round, endTime), endTime, stop, |w.got| == take)
    ensures var w, reply := Walk(server, round, stop, endTime, take), server(round, endTime);
            |w.asked| != 1 ==>
              && Usable(reply, endTime) && reply.bars[0].ts > 0
              && |Yielded(reply.bars, stop, take)| < take
              && w == Continue(Yielded(reply.bars, stop, take), [endTime],
                               Walk(server, round + 1, stop, reply.bars[0].ts - 1, take - |Yielded(reply.bars, stop, take)|))
  {
    var reply := server(round, endTime);
    if Usable(reply, endTime) {
      var out := Yielded(reply.bars, stop, take);
      if |out| < take {
        YieldedAll(reply.bars, stop, take);
        hide Yielded;
        if Cut(reply.bars, out, take).None? && reply.bars[0].ts > 0 {
          AskedAgain(server, round + 1, stop, reply.bars[0].ts - 1, take - |out|);
        }
      }
    }
  }

  lemma AskedAgain(server: Server, round: nat, stop: int, endTime: int, take: nat)
    requires take > 0
    ensures Walk(server, round, stop, endTime, take).asked != []
    ensures Walk(server, round, stop, endTime, take).asked[0] == endTime
  {
    hide Yielded, Cut;
  }

  // An ending whose cause is there when the walk has made its last request.
  predicate Explains(end: Ending, server: Server, round: nat, w: Walked, stop: int, take: nat)
    requires w.asked != []
  {
    var n := |w.asked| - 1;
    Ends(end, Served(server, round, w.asked, n), w.asked[n], stop, |w.got| == take)
  }

  lemma OneCause(end: Ending, end': Ending, reply: Reply, endTime: int, stop: int, full: bool)
    requires Ends(end, reply, endTime, stop, full) && Ends(end', reply, endTime, stop, full)
    ensures end == end'
  {
    hide Reaches;
  }

  /** Every walk, of every server: the ending it reports is the cause it ended for, and the only
      one; a failed request is never taken for the end of the history. */
  lemma EndTellsWhy(server: Server, round: nat, stop: int, endTime: int, take: nat)
    requires take > 0
    ensures var w := Walk(server, round, stop, endTime, take);
            && w.asked != []
            && forall end :: Explains(end, server, round, w, stop, take) <==> end == w.end
    decreases take
  {
    ItsEndExplains(server, round, stop, endTime, take);
    hide Walk, Ends;
    var w := Walk(server, round, stop, endTime, take);
    var n := |w.asked| - 1;
    forall end | Explains(end, server, round, w, stop, take) ensures end == w.end {
      OneCause(end, w.end, Served(server, round, w.asked, n), w.asked[n], stop, |w.got| == take);
    }
  }

  lemma {:induction false} ItsEndExplains(server: Server, round: nat, stop: int, endTime: int, take: nat)
    requires take > 0
    ensures var w := Walk(server, round, stop, endTime, take);
            w.asked != [] && Explains(w.end, server, round, w, stop, take)
    decreases take
  {
    LastEnds(server, round, stop, endTime, take);
    AskedAgain(server, round, stop, endTime, take);
    hide Walk, Yielded, Ends, Explains, Continue, Cut;
    var w, reply := Walk(server, round, stop, endTime, take), server(round, endTime);
    if |w.asked| == 1 {
      ExplainsAtOnce(server, round, w, stop, take);
    } else {
      var out := Yielded(reply.bars, stop, take);
      var later := Walk(server, round + 1, stop, reply.bars[0].ts - 1, take - |out|);
      ItsEndExplains(server, round + 1, stop, reply.bars[0].ts - 1, take - |out|);
      ExplainsLater(server, round, out, endTime, later, stop, take);
    }
  }

  lemma ExplainsAtOnce(server: Server, round: nat, w: Walked, stop: int, take: nat)
    requires |w.asked| == 1 && Ends(w.end, server(round, w.asked[0]), w.asked[0], stop, |w.got| == take)
    ensures Explains(w.end, server, round, w, stop, take)
  {
    hide Ends;
  }

  lemma ExplainsLater(server: Server, round: nat, out: seq<Bar>, endTime: int, later: Walked, stop: int, take: nat)
    requires |out| < take && later.asked != [] && Explains(later.end, server, round + 1, later, stop, take - |out|)
    ensures Explains(later.end, server, round, Continue(out, [endTime], later), stop, take)
    ensures Continue(out, [endTime], later).end == later.end
  {
    hide Ends, Served;
    var n := |later.asked| - 1;
    ServedShift(server, round, endTime, later.asked, n);
    assert ([endTime] + later.asked)[n + 1] == later.asked[n];
  }
}
