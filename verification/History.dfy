/** FetchOHLCVHistory against a server that serves, as documented, the latest limit bars at
    or before endTime of a history with strictly ascending timestamps (market.go). */
module History {
  import opened Candles
  import opened Numbers
  import opened Wrappers

  predicate Strict(h: seq<Bar>) { forall i, j :: 0 <= i < j < |h| ==> h[i].ts < h[j].ts }

  // How many bars of h are older than t.
  function Before(h: seq<Bar>, t: int): (n: nat)
    ensures n <= |h|
  {
    if h == [] then 0 else if h[|h| - 1].ts < t then |h| else Before(h[..|h| - 1], t)
  }

  // How many bars a request with this endTime may see; 0 is not sent, and means now.
  function UpTo(h: seq<Bar>, endTime: int): (n: nat)
    ensures n <= |h|
  {
    if endTime == 0 then |h| else Before(h, endTime + 1)
  }

  function PageStart(k: nat, limit: nat): nat { if k < limit then 0 else k - limit }

  function Ideal(h: seq<Bar>, limit: nat): Server {
    (r, e) => Page(h[PageStart(UpTo(h, e), limit)..UpTo(h, e)])
  }

  // The bars h[lo..k], newest first, at most take of them.
  function Newest(h: seq<Bar>, lo: nat, k: nat, take: nat): (out: seq<Bar>)
    requires k <= |h|
    ensures |out| == (if k <= lo then 0 else if k - lo < take then k - lo else take)
    ensures forall i :: 0 <= i < |out| ==> out[i] == h[k - 1 - i]
  {
    seq(if k <= lo then 0 else if k - lo < take then k - lo else take, i requires 0 <= i < k => h[k - 1 - i])
  }

  lemma {:induction false} BeforeSplits(h: seq<Bar>, t: int)
    requires Strict(h)
    ensures forall i :: 0 <= i < |h| ==> (h[i].ts < t <==> i < Before(h, t))
  {
    if h != [] && h[|h| - 1].ts >= t {
      BeforeSplits(h[..|h| - 1], t);
    }
  }

  lemma NewestStep(h: seq<Bar>, lo: nat, k: nat, take: nat)
    requires lo < k <= |h| && take > 0
    ensures Newest(h, lo, k, take) == [h[k - 1]] + Newest(h, lo, k - 1, take - 1)
  {
  }

  lemma {:induction false} YieldedIsNewest(h: seq<Bar>, a: nat, k: nat, stop: int, take: nat)
    requires Strict(h) && a <= k <= |h|
    ensures Yielded(h[a..k], stop, take) == Newest(h, Max(a, Before(h, stop)), k, take)
    decreases k
  {
    hide Before, Newest;
    BeforeSplits(h, stop);
    hide Strict;
    var bars := h[a..k];
    if a < k && take > 0 && h[k - 1].ts >= stop {
      assert bars[..|bars| - 1] == h[a..k - 1];
      YieldedIsNewest(h, a, k - 1, stop, take - 1);
      NewestStep(h, Max(a, Before(h, stop)), k, take);
    }
  }

  // Where the page just read ended the walk, and where the next request then starts.
  lemma NextPage(h: seq<Bar>, a: nat)
    requires Strict(h) && a < |h| && h[a].ts != 1
    ensures UpTo(h, h[a].ts - 1) == a
  {
    BeforeSplits(h, h[a].ts);
    var b := Before(h, h[a].ts);
    assert b < |h| ==> h[b].ts >= h[a].ts;
  }

  lemma NewestJoin(h: seq<Bar>, lo: nat, a: nat, k: nat, take: nat)
    requires lo <= a <= k <= |h| && k - a < take
    ensures Newest(h, a, k, take) + Newest(h, lo, a, take - (k - a)) == Newest(h, lo, k, take)
  {
  }

  /** The walk would follow a page starting at timestamp 1 with endTime 0, which is not sent:
      some page of the walk starts at the bar at 1, and the walk gets there. */
  predicate PageStartsAtOne(h: seq<Bar>, limit: nat, stop: int, k: nat)
    requires limit > 0 && k <= |h|
  {
    var j := Before(h, 1);
    j < k && h[j].ts == 1 && stop <= 1 && (j == 0 || WholePages(k - j, limit))
  }

  // Where the page starts on which the walk meets its first bar at or before timestamp 0, or
  // where its last page starts.
  function EpochPage(h: seq<Bar>, limit: nat, k: nat): (a: nat)
    requires limit > 0 && 0 < k <= |h|
    ensures a < k
  {
    var a := PageStart(k, limit);
    if a == 0 || h[a].ts <= 0 then a else EpochPage(h, limit, a)
  }

  /** The walk ends on the page that reaches timestamp 0, bars of the window before it or not. */
  predicate StopsAtEpoch(h: seq<Bar>, limit: nat, stop: int, k: nat)
    requires limit > 0 && k <= |h|
  {
    k > 0 && h[EpochPage(h, limit, k)].ts <= 0 && Before(h, stop) < EpochPage(h, limit, k)
  }

  // Only a negative StartTime reaches that far.
  lemma EpochNeedsNegativeStart(h: seq<Bar>, limit: nat, stop: int, k: nat)
    requires Strict(h) && limit > 0 && k <= |h| && stop >= 0
    ensures !StopsAtEpoch(h, limit, stop, k)
  {
    BeforeSplits(h, stop);
    if k > 0 {
      var a := EpochPage(h, limit, k);
      assert a > 0 ==> h[a - 1].ts < h[a].ts;
    }
  }

  // How many pages of limit bars n bars fill, the last perhaps in part.
  function Pages(n: nat, limit: nat): (p: nat)
    requires limit > 0
    ensures n > 0 ==> p > 0
  {
    if n == 0 then 0 else if n < limit then 1 else 1 + Pages(n - limit, limit)
  }

  // n is a whole number of pages.
  predicate WholePages(n: int, limit: nat)
    requires limit > 0
  {
    n == 0 || (n >= limit && WholePages(n - limit, limit))
  }

  /** Pages rounds n / limit up, and a whole number of pages is a multiple of limit. */
  lemma {:induction false} PagesIsCeiling(n: nat, limit: nat)
    requires limit > 0
    ensures Pages(n, limit) * limit >= n && (n > 0 ==> (Pages(n, limit) - 1) * limit < n)
    ensures WholePages(n, limit) <==> Pages(n, limit) * limit == n
  {
    if n >= limit {
      PagesIsCeiling(n - limit, limit);
      assert Pages(n, limit) * limit == limit + Pages(n - limit, limit) * limit;
      assert (Pages(n, limit) - 1) * limit == Pages(n - limit, limit) * limit;
    }
  }

  // A page that ends the walk, by the caller's count or at stop, reaches as far as the window does.
  lemma NewestIsCut(h: seq<Bar>, lo: nat, a: nat, k: nat, take: nat)
    requires a <= k <= |h|
    requires Cut(h[a..k], Newest(h, Max(a, lo), k, take), take).Some?
    ensures Newest(h, Max(a, lo), k, take) == Newest(h, lo, k, take)
    ensures Cut(h[a..k], Newest(h, Max(a, lo), k, take), take) == Some(CallerBroke) <==> take <= (if lo <= k then k - lo else 0)
  {
  }

  // The page after a full one starts at 1 only if some page of the whole walk does.
  lemma HitStep(h: seq<Bar>, limit: nat, stop: int, k: nat)
    requires Strict(h) && limit > 0 && 0 < k <= |h|
    requires var a := PageStart(k, limit); h[a].ts >= stop && h[a].ts > 0 && h[a].ts != 1
    ensures PageStartsAtOne(h, limit, stop, k) <==> PageStartsAtOne(h, limit, stop, PageStart(k, limit))
  {
    BeforeSplits(h, 1);
    var j := Before(h, 1);
  }

  lemma HitNow(h: seq<Bar>, limit: nat, stop: int, k: nat)
    requires Strict(h) && limit > 0 && 0 < k <= |h|
    ensures var a := PageStart(k, limit);
            h[a].ts == 1 && stop <= 1 ==> PageStartsAtOne(h, limit, stop, k) && Before(h, 1) == a
    ensures var a := PageStart(k, limit); h[a].ts <= 0 ==> !PageStartsAtOne(h, limit, stop, k)
    ensures var a := PageStart(k, limit); h[a].ts < stop ==> !PageStartsAtOne(h, limit, stop, k)
  {
    BeforeSplits(h, 1);
    var a, j := PageStart(k, limit), Before(h, 1);
  }

  // The page after a full one reaches timestamp 0 exactly when the walk from this one does.
  lemma EpochStep(h: seq<Bar>, limit: nat, stop: int, k: nat)
    requires Strict(h) && limit > 0 && 0 < k <= |h|
    ensures var a := PageStart(k, limit);
            if h[a].ts > 0 then StopsAtEpoch(h, limit, stop, k) <==> StopsAtEpoch(h, limit, stop, a)
            else StopsAtEpoch(h, limit, stop, k) <==> Before(h, stop) < a
  {
  }

  // Walk's first turn against an ideal server, with the page read off the history.
  lemma IdealTurn(h: seq<Bar>, limit: nat, r: nat, stop: int, e: int, take: nat)
    requires Strict(h) && limit > 0 && take > 0
    ensures var k := UpTo(h, e); var a := PageStart(k, limit);
            var out := Newest(h, Max(a, Before(h, stop)), k, take);
            var w := Walk(Ideal(h, limit), r, stop, e, take);
            if k == 0 then w == Walked([], NoOlderBars, [e])
            else if Cut(h[a..k], out, take).Some? then w == Walked(out, Cut(h[a..k], out, take).value, [e])
            else if h[a].ts <= 0 then w == Walked(out, ReachedEpoch, [e])
            else |out| < take && w == Continue(out, [e], Walk(Ideal(h, limit), r + 1, stop, h[a].ts - 1, take - |out|))
  {
    hide *;
    var k := UpTo(h, e);
    IdealPage(h, limit, r, e);
    var a := PageStart(k, limit);
    var page := h[a..k];
    YieldedIsNewest(h, a, k, stop, take);
    if k > 0 {
      PageIsInTime(h, e);
      WalkTurn(Ideal(h, limit), r, stop, e, take, page);
      CutMeans(page, Newest(h, Max(a, Before(h, stop)), k, take), take);
    } else {
      WalkEmpty(Ideal(h, limit), r, stop, e, take);
    }
  }

  lemma IdealPage(h: seq<Bar>, limit: nat, r: nat, e: int)
    requires limit > 0
    ensures var k := UpTo(h, e); var a := PageStart(k, limit);
            a <= k && Ideal(h, limit)(r, e) == Page(h[a..k]) && (k > 0 ==> a < k && h[a..k][0] == h[a] && h[a..k][k - a - 1] == h[k - 1])
  {
  }

  lemma WalkEmpty(server: Server, r: nat, stop: int, e: int, take: nat)
    requires take > 0 && server(r, e) == Page([])
    ensures Walk(server, r, stop, e, take) == Walked([], NoOlderBars, [e])
  {
  }

  lemma WalkTurn(server: Server, r: nat, stop: int, e: int, take: nat, page: seq<Bar>)
    requires take > 0 && server(r, e) == Page(page) && page != [] && (e == 0 || page[|page| - 1].ts <= e)
    ensures var out := Yielded(page, stop, take); var w := Walk(server, r, stop, e, take);
            if Cut(page, out, take).Some? then w == Walked(out, Cut(page, out, take).value, [e])
            else if page[0].ts <= 0 then w == Walked(out, ReachedEpoch, [e])
            else |out| < take && w == Continue(out, [e], Walk(server, r + 1, stop, page[0].ts - 1, take - |out|))
  {
    hide Continue, Yielded;
  }

  lemma PageIsInTime(h: seq<Bar>, e: int)
    requires Strict(h)
    ensures UpTo(h, e) > 0 && e != 0 ==> h[UpTo(h, e) - 1].ts <= e
  {
    BeforeSplits(h, e + 1);
  }

  lemma CutMeans(bars: seq<Bar>, out: seq<Bar>, take: nat)
    requires |out| <= take
    ensures Cut(bars, out, take).None? ==> |out| < take
  {
  }

  /** Unless a page starts at timestamp 1, or reaches timestamp 0 above a negative StartTime, the
      walk yields exactly the bars in the window, each once, newest first, in at most one
      request more than they fill. */
  lemma {:induction false} WalkIsExact(h: seq<Bar>, limit: nat, r: nat, stop: int, e: int, take: nat)
    requires Strict(h) && limit > 0 && take > 0
    requires !PageStartsAtOne(h, limit, stop, UpTo(h, e)) && !StopsAtEpoch(h, limit, stop, UpTo(h, e))
    ensures var w := Walk(Ideal(h, limit), r, stop, e, take);
            var lo, k := Before(h, stop), UpTo(h, e); var n := if lo <= k then k - lo else 0;
            && w.got == Newest(h, lo, k, take)
            && |w.asked| <= Pages(n, limit) + 1
            && (w.end == CallerBroke <==> take <= n)
            && w.end != IgnoredEndTime && w.end != RequestFailed
    decreases take
  {
    hide Walk, Before, Newest, PageStartsAtOne, StopsAtEpoch, EpochPage;
    var lo, k := Before(h, stop), UpTo(h, e);
    var a := PageStart(k, limit);
    IdealTurn(h, limit, r, stop, e, take);
    BeforeSplits(h, stop);
    if k > 0 {
      HitNow(h, limit, stop, k);
      EpochStep(h, limit, stop, k);
      var out := Newest(h, Max(a, lo), k, take);
      if Cut(h[a..k], out, take).Some? {
        NewestIsCut(h, lo, a, k, take);
      } else if h[a].ts > 0 {
        HitStep(h, limit, stop, k);
        NextPage(h, a);
        WalkIsExact(h, limit, r + 1, stop, h[a].ts - 1, take - |out|);
        NewestJoin(h, lo, a, k, take);
      }
    }
  }

  /** If it does reach timestamp 0 above StartTime, the older bars of the window are missing. */
  lemma {:induction false} WalkStopsShort(h: seq<Bar>, limit: nat, r: nat, stop: int, e: int, take: nat)
    requires Strict(h) && limit > 0 && take > 0
    requires !PageStartsAtOne(h, limit, stop, UpTo(h, e)) && StopsAtEpoch(h, limit, stop, UpTo(h, e))
    ensures var k := UpTo(h, e);
            Walk(Ideal(h, limit), r, stop, e, take).got == Newest(h, EpochPage(h, limit, k), k, take)
    decreases take
  {
    hide Walk, Before, Newest, PageStartsAtOne;
    var lo, k := Before(h, stop), UpTo(h, e);
    var a := PageStart(k, limit);
    IdealTurn(h, limit, r, stop, e, take);
    BeforeSplits(h, stop);
    HitNow(h, limit, stop, k);
    EpochStep(h, limit, stop, k);
    EpochBelow(h, limit, stop, k);
    hide StopsAtEpoch;
    var out := Newest(h, Max(a, lo), k, take);
    assert Max(a, lo) == a;
    if Cut(h[a..k], out, take).Some? {
      NewestIsCut(h, EpochPage(h, limit, k), a, k, take);
    } else if h[a].ts > 0 {
      HitStep(h, limit, stop, k);
      NextPage(h, a);
      WalkStopsShort(h, limit, r + 1, stop, h[a].ts - 1, take - |out|);
      NewestJoin(h, EpochPage(h, limit, k), a, k, take);
    }
  }

  lemma EpochBelow(h: seq<Bar>, limit: nat, stop: int, k: nat)
    requires Strict(h) && limit > 0 && 0 < k <= |h| && StopsAtEpoch(h, limit, stop, k)
    ensures Before(h, stop) < EpochPage(h, limit, k) <= PageStart(k, limit)
    ensures h[PageStart(k, limit)].ts > 0 ==> EpochPage(h, limit, k) == EpochPage(h, limit, PageStart(k, limit))
    ensures h[PageStart(k, limit)].ts <= 0 ==> EpochPage(h, limit, k) == PageStart(k, limit)
  {
  }

  // A walk that will meet the bar at 1 has it at or below the start of its next page.
  lemma HitFacts(h: seq<Bar>, limit: nat, stop: int, k: nat)
    requires Strict(h) && limit > 0 && k <= |h| && PageStartsAtOne(h, limit, stop, k)
    ensures var j, a, lo := Before(h, 1), PageStart(k, limit), Before(h, stop);
            && lo <= j <= a < k && h[j].ts == 1 && h[a].ts >= 1 && h[|h| - 1].ts >= stop
            && (j < a ==> h[a].ts > 1) && stop <= 1
            && (forall take: nat :: k - j < take ==> Cut(h[a..k], Newest(h, Max(a, lo), k, take), take) == None)
  {
    var j, a := Before(h, 1), PageStart(k, limit);
    BeforeSplits(h, 1);
    BeforeSplits(h, stop);
    assert h[j].ts >= stop;
    assert j < |h| - 1 ==> h[j].ts < h[|h| - 1].ts;
  }

  lemma LastBar(h: seq<Bar>, limit: nat, r: nat, stop: int)
    requires Strict(h) && limit > 0 && h != [] && h[|h| - 1].ts >= stop
    ensures Walk(Ideal(h, limit), r, stop, 0, 1).got == [h[|h| - 1]]
  {
    hide Walk, Before;
    IdealTurn(h, limit, r, stop, 0, 1);
    BeforeSplits(h, stop);
  }

  // On the way to the bar at 1, every page is yielded whole.
  lemma WholeTurn(h: seq<Bar>, limit: nat, r: nat, stop: int, e: int, take: nat)
    requires Strict(h) && limit > 0
    requires PageStartsAtOne(h, limit, stop, UpTo(h, e)) && take > UpTo(h, e) - Before(h, 1)
    ensures var k := UpTo(h, e); var a := PageStart(k, limit);
            && a < k && |Newest(h, a, k, take)| == k - a < take
            && Walk(Ideal(h, limit), r, stop, e, take).got
               == Newest(h, a, k, take) + Walk(Ideal(h, limit), r + 1, stop, h[a].ts - 1, take - (k - a)).got
  {
    hide Walk, Newest, Before, PageStart, Strict, UpTo, PageStartsAtOne;
    var k := UpTo(h, e);
    HitFacts(h, limit, stop, k);
    IdealTurn(h, limit, r, stop, e, take);
    assert Max(PageStart(k, limit), Before(h, stop)) == PageStart(k, limit);
  }

  /** If a page does start at timestamp 1, the walk starts over from the newest bar. */
  lemma {:induction false} WalkStartsOver(h: seq<Bar>, limit: nat, r: nat, stop: int, e: int)
    requires Strict(h) && limit > 0
    requires PageStartsAtOne(h, limit, stop, UpTo(h, e))
    ensures Before(h, 1) < UpTo(h, e)
    ensures var k, j := UpTo(h, e), Before(h, 1);
            Walk(Ideal(h, limit), r, stop, e, k - j + 1).got == Newest(h, j, k, k - j + 1) + [h[|h| - 1]]
    decreases UpTo(h, e)
  {
    hide *;
    var k, j := UpTo(h, e), Before(h, 1);
    HitFacts(h, limit, stop, k);
    var a, take := PageStart(k, limit), k - j + 1;
    WholeTurn(h, limit, r, stop, e, take);
    if a == j {
      LastBar(h, limit, r + 1, stop);
      NewestJoin(h, j, j, k, take);
    } else {
      HitStep(h, limit, stop, k);
      NextPage(h, a);
      WalkStartsOver(h, limit, r + 1, stop, h[a].ts - 1);
      NewestJoin(h, j, a, k, take);
      var rest := Newest(h, j, a, a - j + 1);
      assert Newest(h, a, k, take) + (rest + [h[|h| - 1]]) == (Newest(h, a, k, take) + rest) + [h[|h| - 1]];
    }
  }

  /** The walk gives every caller exactly the newest bars of its window if and only if no page
      of it starts at timestamp 1 and none reaches timestamp 0 above a negative StartTime. */
  lemma ExactIffNoPageStartsAtOne(h: seq<Bar>, limit: nat, stop: int, e: int)
    requires Strict(h) && limit > 0
    ensures (forall take: nat :: take > 0 ==>
               Walk(Ideal(h, limit), 0, stop, e, take).got == Newest(h, Before(h, stop), UpTo(h, e), take))
            <==> !PageStartsAtOne(h, limit, stop, UpTo(h, e)) && !StopsAtEpoch(h, limit, stop, UpTo(h, e))
    ensures stop >= 0 ==> !StopsAtEpoch(h, limit, stop, UpTo(h, e))
  {
    hide Walk, Newest, PageStartsAtOne, Before;
    if stop >= 0 {
      EpochNeedsNegativeStart(h, limit, stop, UpTo(h, e));
    }
    if PageStartsAtOne(h, limit, stop, UpTo(h, e)) {
      RepeatsTheNewest(h, limit, stop, e);
    } else if StopsAtEpoch(h, limit, stop, UpTo(h, e)) {
      var k, lo := UpTo(h, e), Before(h, stop);
      WalkStopsShort(h, limit, 0, stop, e, k - lo);
      assert |Newest(h, EpochPage(h, limit, k), k, k - lo)| < |Newest(h, lo, k, k - lo)|;
    } else {
      hide StopsAtEpoch;
      forall take: nat | take > 0
        ensures Walk(Ideal(h, limit), 0, stop, e, take).got == Newest(h, Before(h, stop), UpTo(h, e), take)
      {
        WalkIsExact(h, limit, 0, stop, e, take);
      }
    }
  }

  lemma RepeatsTheNewest(h: seq<Bar>, limit: nat, stop: int, e: int)
    requires Strict(h) && limit > 0
    requires PageStartsAtOne(h, limit, stop, UpTo(h, e))
    ensures exists take: nat :: take > 0 &&
              Walk(Ideal(h, limit), 0, stop, e, take).got != Newest(h, Before(h, stop), UpTo(h, e), take)
  {
    hide Walk, PageStart;
    var k, j, lo := UpTo(h, e), Before(h, 1), Before(h, stop);
    HitFacts(h, limit, stop, k);
    WalkStartsOver(h, limit, 0, stop, e);
    hide Before;
    var got := Walk(Ideal(h, limit), 0, stop, e, k - j + 1).got;
    assert |got| == k - j + 1 && got[k - j] == h[|h| - 1];
    if lo < j {
      assert Newest(h, lo, k, k - j + 1)[k - j] == h[j - 1];
      assert h[j - 1].ts < h[|h| - 1].ts;
    } else {
      assert |Newest(h, lo, k, k - j + 1)| == k - j;
    }
  }

  // --- when the walk ends --------------------------------------------------------------

  // Starting over from now leads back to timestamp 1.
  predicate Circles(h: seq<Bar>, limit: nat, stop: int, e: int)
    requires limit > 0
  {
    PageStartsAtOne(h, limit, stop, UpTo(h, e)) && PageStartsAtOne(h, limit, stop, |h|)
  }

  // How many requests a walk needs at most from here on: one pass, and one more if it starts over.
  function Requests(h: seq<Bar>, limit: nat, stop: int, k: nat): nat
    requires limit > 0 && k <= |h|
  {
    Pages(k, limit) + 1 + if PageStartsAtOne(h, limit, stop, k) then Pages(|h|, limit) + 1 else 0
  }

  lemma {:induction false} RequestsAreBounded(h: seq<Bar>, limit: nat, r: nat, stop: int, e: int, take: nat)
    requires Strict(h) && limit > 0 && take > 0 && !Circles(h, limit, stop, e)
    ensures |Walk(Ideal(h, limit), r, stop, e, take).asked| <= Requests(h, limit, stop, UpTo(h, e))
    decreases take
  {
    hide Walk, Before, Newest, PageStartsAtOne, Strict;
    var lo, k := Before(h, stop), UpTo(h, e);
    var a := PageStart(k, limit);
    IdealTurn(h, limit, r, stop, e, take);
    if k > 0 {
      var out := Newest(h, Max(a, lo), k, take);
      if Cut(h[a..k], out, take).None? && h[a].ts > 0 {
        FullPageIsAbove(h, a, k, stop, take);
        if h[a].ts == 1 {
          HitNow(h, limit, stop, k);
        } else {
          HitStep(h, limit, stop, k);
          NextPage(h, a);
        }
        RequestsAreBounded(h, limit, r + 1, stop, h[a].ts - 1, take - |out|);
      }
    }
  }

  lemma FullPageIsAbove(h: seq<Bar>, a: nat, k: nat, stop: int, take: nat)
    requires Strict(h) && a < k <= |h|
    requires Cut(h[a..k], Newest(h, Max(a, Before(h, stop)), k, take), take).None?
    ensures Before(h, stop) <= a && h[a].ts >= stop
  {
    BeforeSplits(h, stop);
  }

  /** A walk that circles serves every caller as many bars as it takes. */
  lemma {:induction false} CirclingNeverEnds(h: seq<Bar>, limit: nat, r: nat, stop: int, e: int, take: nat)
    requires Strict(h) && limit > 0 && take > 0 && Circles(h, limit, stop, e)
    ensures var w := Walk(Ideal(h, limit), r, stop, e, take);
            w.end == CallerBroke && |w.got| == take <= limit * |w.asked|
    decreases take
  {
    hide Walk, Before, Newest, Strict, PageStartsAtOne;
    var lo, k := Before(h, stop), UpTo(h, e);
    var a := PageStart(k, limit);
    HitFacts(h, limit, stop, k);
    IdealTurn(h, limit, r, stop, e, take);
    assert Max(a, lo) == a;
    var out := Newest(h, a, k, take);
    if take > k - a {
      var j := Before(h, 1);
      if a == j {
        RestartsAtNow(h, a);
      } else {
        HitStep(h, limit, stop, k);
        NextPage(h, a);
      }
      CirclingNeverEnds(h, limit, r + 1, stop, h[a].ts - 1, take - |out|);
      OneMorePage(limit, |out|, take - |out|, |Walk(Ideal(h, limit), r + 1, stop, h[a].ts - 1, take - |out|).asked|);
    } else {
      OneMorePage(limit, |out|, 0, 0);
    }
  }

  lemma RestartsAtNow(h: seq<Bar>, a: nat)
    requires a < |h| && h[a].ts == 1
    ensures UpTo(h, h[a].ts - 1) == |h|
  {
  }

  lemma OneMorePage(limit: nat, page: nat, rest: nat, asked: nat)
    requires page <= limit && rest <= limit * asked
    ensures page + rest <= limit * (1 + asked)
  {
  }

  // However many bars the caller takes, so many requests are enough.
  ghost predicate Bounded(h: seq<Bar>, limit: nat, stop: int, e: int, requests: nat) {
    forall take: nat :: take > 0 ==> |Walk(Ideal(h, limit), 0, stop, e, take).asked| <= requests
  }

  /** The walk ends, whatever the caller takes, if and only if starting over from now does not
      lead back to timestamp 1. */
  lemma EndsIffItDoesNotCircle(h: seq<Bar>, limit: nat, stop: int, e: int)
    requires Strict(h) && limit > 0
    ensures (exists n: nat :: Bounded(h, limit, stop, e, n)) <==> !Circles(h, limit, stop, e)
  {
    hide Walk, Circles, Requests, Strict;
    if Circles(h, limit, stop, e) {
      forall n: nat ensures !Bounded(h, limit, stop, e, n) {
        CirclingNeverEnds(h, limit, 0, stop, e, limit * n + 1);
        MoreThan(limit, n, |Walk(Ideal(h, limit), 0, stop, e, limit * n + 1).asked|);
      }
    } else {
      forall take: nat | take > 0
        ensures |Walk(Ideal(h, limit), 0, stop, e, take).asked| <= Requests(h, limit, stop, UpTo(h, e))
      {
        RequestsAreBounded(h, limit, 0, stop, e, take);
      }
      assert Bounded(h, limit, stop, e, Requests(h, limit, stop, UpTo(h, e)));
    }
  }

  lemma MoreThan(limit: nat, n: nat, asked: nat)
    ensures limit * n < limit * asked ==> n < asked
  {
    if asked <= n {
      assert limit * asked <= limit * n;
    }
  }

  /** The smallest such history never ends: one bar at timestamp 1, served over and over. */
  lemma {:induction false} OneBarForever(bar: Bar, limit: nat, r: nat, stop: int, e: int, take: nat)
    requires bar.ts == 1 && limit > 0 && stop <= 1 && e >= 0 && take > 0
    ensures Walk(Ideal([bar], limit), r, stop, e, take).got == seq(take, i => bar)
    ensures Walk(Ideal([bar], limit), r, stop, e, take).end == CallerBroke
    decreases take
  {
    assert UpTo([bar], e) == 1;
    assert Ideal([bar], limit)(r, e) == Page([bar]);
    assert Yielded([bar], stop, take) == [bar];
    if take > 1 {
      OneBarForever(bar, limit, r + 1, stop, 0, take - 1);
      assert [bar] + seq(take - 1, i => bar) == seq(take, i => bar);
    }
  }
}
