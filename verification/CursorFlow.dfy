/** The frames on their way to a client, seen from one channel: where they will move its
    cursor, and how every kind of traffic keeps them in step with the published log.
    Lemmas hide the definitions they do not unfold, to keep each proof small. */
module CursorFlow {
  import opened Wrappers
  import opened Frames
  import opened Subscriptions
  import opened Resume
  import opened PublishedLog

  // Where the cursor of ch stands after one frame.
  function Moved(pos: Option<nat>, f: Inbound, ch: Channel): Option<nat> {
    match f
    case Ack(c, n) => if c == ch then Some(n) else pos
    case Update(c, n, _) => if c == ch then Some(n) else pos
    case Lost(c, _) => if Names(c, ch) then None else pos
    case _ => pos
  }

  // An event is the one published right after the cursor; an ack skips nothing.
  predicate Fits(pos: Option<nat>, f: Inbound, log: seq<nat>, ch: Channel) {
    match f
    case Ack(c, n) => c == ch ==> n <= Head(log) && (pos.Some? ==> n == pos.value)
    case Update(c, n, _) => c == ch ==> n <= Head(log) && (pos.Some? ==> Between(log, pos.value, n) == [n])
    case _ => true
  }

  function Final(pos: Option<nat>, frames: seq<Wire>, ch: Channel): Option<nat> {
    if frames == [] then pos
    else
      var n := |frames| - 1;
      Moved(Final(pos, frames[..n], ch), Classify(frames[n]), ch)
  }

  predicate InOrder(pos: Option<nat>, frames: seq<Wire>, log: seq<nat>, ch: Channel) {
    frames == [] ||
    var n := |frames| - 1;
    InOrder(pos, frames[..n], log, ch) && Fits(Final(pos, frames[..n], ch), Classify(frames[n]), log, ch)
  }

  predicate Touches(f: Inbound, ch: Channel) { (f.Ack? || f.Update?) && f.channel == ch }

  predicate Announces(frames: seq<Wire>, ch: Channel) {
    exists i :: 0 <= i < |frames| && Classify(frames[i]).Lost? && Names(Classify(frames[i]).channel, ch)
  }

  predicate NoneOr(pos: Option<nat>, n: nat) { pos.None? || pos == Some(n) }

  // What is on its way to the server about ch, against what is coming back.
  ghost predicate UpOk(up: seq<ClientFrame>, live: bool, fp: Option<nat>, head: nat, ch: Channel) {
    && Unsubscribe(ch) !in up
    && (Subscribe(ch, None) in up ==> live || fp.None?)
    && (forall i, s: nat :: 0 <= i < |up| && up[i] == Subscribe(ch, Some(s)) ==>
          && !live && NoneOr(fp, s) && s <= head
          && forall j :: 0 <= j < i ==> up[j].channel != ch)
  }

  ghost predicate Flow(pos: Option<nat>, coming: seq<Wire>, log: seq<nat>, live: bool, up: seq<ClientFrame>, ch: Channel) {
    var fp := Final(pos, coming, ch);
    && InOrder(pos, coming, log, ch)
    && (live ==> NoneOr(fp, Head(log)))
    && (!live && Announces(coming, ch) ==> fp.None?)
    && UpOk(up, live, fp, Head(log), ch)
  }

  predicate Silent(frames: seq<Wire>, ch: Channel) {
    forall f :: f in frames ==> !Touches(Classify(f), ch)
  }

  lemma AppendFrame(pos: Option<nat>, frames: seq<Wire>, f: Wire, log: seq<nat>, ch: Channel)
    ensures InOrder(pos, frames + [f], log, ch) <==>
            InOrder(pos, frames, log, ch) && Fits(Final(pos, frames, ch), Classify(f), log, ch)
    ensures Final(pos, frames + [f], ch) == Moved(Final(pos, frames, ch), Classify(f), ch)
  {
    assert (frames + [f])[..|frames|] == frames;
  }

  lemma {:induction false} AppendFrames(pos: Option<nat>, frames: seq<Wire>, more: seq<Wire>, log: seq<nat>, ch: Channel)
    ensures InOrder(pos, frames + more, log, ch) <==>
            InOrder(pos, frames, log, ch) && InOrder(Final(pos, frames, ch), more, log, ch)
    ensures Final(pos, frames + more, ch) == Final(Final(pos, frames, ch), more, ch)
  {
    if more == [] {
      assert frames + more == frames;
    } else {
      var n := |more| - 1;
      AppendFrames(pos, frames, more[..n], log, ch);
      AppendFrame(pos, frames + more[..n], more[n], log, ch);
      assert frames + more == (frames + more[..n]) + [more[n]];
    }
  }

  lemma TakeFrame(pos: Option<nat>, frames: seq<Wire>, log: seq<nat>, ch: Channel)
    requires frames != [] && InOrder(pos, frames, log, ch)
    ensures var f := Classify(frames[0]);
            && Fits(pos, f, log, ch)
            && InOrder(Moved(pos, f, ch), frames[1..], log, ch)
            && Final(Moved(pos, f, ch), frames[1..], ch) == Final(pos, frames, ch)
  {
    assert frames == [frames[0]] + frames[1..];
    AppendFrames(pos, [frames[0]], frames[1..], log, ch);
    assert [frames[0]][..0] == [];
    assert Final(pos, [], ch) == pos;
  }

  lemma {:induction false} PublishKeepsOrder(pos: Option<nat>, frames: seq<Wire>, log: seq<nat>, n: nat, ch: Channel)
    requires InOrder(pos, frames, log, ch) && Increasing(log) && n > Head(log)
    ensures InOrder(pos, frames, log + [n], ch)
  {
    if frames != [] {
      var k := |frames| - 1;
      PublishKeepsOrder(pos, frames[..k], log, n, ch);
      var p, f := Final(pos, frames[..k], ch), Classify(frames[k]);
      if f.Update? && p.Some? {
        PublishKeepsBetween(log, n, p.value, f.seqNo);
      }
    }
  }

  // The replay grows by what is published.
  lemma ReplayGrows(log: seq<nat>, x: nat, lo: nat)
    requires Increasing(log) && x > Head(log)
    ensures Increasing(log + [x])
    ensures Between(log + [x], lo, x) == Between(log, lo, Head(log)) + if lo < x then [x] else []
  {
    PublishKeepsBetween(log, x, lo, x);
    BetweenUpToHead(log, lo, x);
  }

  lemma NextFits(log: seq<nat>, x: nat, lo: nat, p: nat)
    requires Increasing(log) && x > Head(log) && lo < x
    requires p == if Between(log, lo, Head(log)) == [] then lo else Head(log)
    ensures Between(log + [x], p, x) == [x]
  {
    if p == lo {
      ReplayGrows(log, x, lo);
      if lo == Head(log) {
        NothingBetween(log, lo, lo);
      }
    } else {
      NextAfterHead(log, x);
    }
  }

  ghost predicate Replays(log: seq<nat>, said: map<nat, string>, lo: nat, pos: Option<nat>, ch: Channel) {
    var replay := Between(log, lo, Head(log));
    && InOrder(pos, Updates(ch, replay, said), log, ch)
    && Final(pos, Updates(ch, replay, said), ch) == if replay == [] then pos else Some(Head(log))
  }

  lemma UpdatesAppend(ch: Channel, seqNos: seq<nat>, x: nat, said: map<nat, string>)
    ensures Updates(ch, seqNos + [x], said) == Updates(ch, seqNos, said) + [UpdateFrame(ch, x, Text(said, x))]
  {
  }

  lemma ReplayGoesOn(log: seq<nat>, said: map<nat, string>, x: nat, lo: nat, pos: Option<nat>, ch: Channel)
    requires Increasing(log) && x > Head(log) && lo < x
    requires KnownName(ch.name) && (pos.None? || pos == Some(lo)) && Replays(log, said, lo, pos, ch)
    ensures Replays(log + [x], said, lo, pos, ch)
  {
    hide InOrder, Final, Between;
    var replay, f := Between(log, lo, Head(log)), UpdateFrame(ch, x, Text(said, x));
    var before, log' := Updates(ch, replay, said), log + [x];
    assert Classify(f) == Update(ch, x, Text(said, x)) && Head(log') == x;
    assert InOrder(pos, before, log', ch) by { PublishKeepsOrder(pos, before, log, x, ch); }
    assert Fits(Final(pos, before, ch), Classify(f), log', ch) by {
      NextFits(log, x, lo, if replay == [] then lo else Head(log));
    }
    assert Updates(ch, Between(log', lo, x), said) == before + [f] by {
      ReplayGrows(log, x, lo);
      UpdatesAppend(ch, replay, x, said);
    }
    assert Between(log', lo, x) != [] by { ReplayGrows(log, x, lo); }
    AppendFrame(pos, before, f, log', ch);
  }

  lemma EmptyReplay(log: seq<nat>, said: map<nat, string>, lo: nat, pos: Option<nat>, ch: Channel)
    requires Between(log, lo, Head(log)) == []
    ensures Replays(log, said, lo, pos, ch)
  {
    assert Updates(ch, [], said) == [];
  }

  lemma ReplayStaysEmpty(log: seq<nat>, said: map<nat, string>, x: nat, lo: nat, pos: Option<nat>, ch: Channel)
    requires Increasing(log) && x > Head(log) && lo >= x
    ensures Replays(log + [x], said, lo, pos, ch)
  {
    hide InOrder, Final;
    ReplayGrows(log, x, lo);
    NothingBetween(log, lo, Head(log));
    EmptyReplay(log + [x], said, lo, pos, ch);
  }

  // A replay of everything after lo is in order, and leads up to the head.
  lemma {:induction false} ReplayInOrder(log: seq<nat>, said: map<nat, string>, lo: nat, pos: Option<nat>, ch: Channel)
    requires Increasing(log) && KnownName(ch.name) && (pos.None? || pos == Some(lo))
    ensures Replays(log, said, lo, pos, ch)
  {
    hide Replays;
    if log == [] {
      EmptyReplay(log, said, lo, pos, ch);
    } else {
      var log0, x := log[..|log| - 1], log[|log| - 1];
      ReplayInOrder(log0, said, lo, pos, ch);
      if lo < x {
        ReplayGoesOn(log0, said, x, lo, pos, ch);
      } else {
        ReplayStaysEmpty(log0, said, x, lo, pos, ch);
      }
      assert log == log0 + [x];
    }
  }

  lemma ReplayReachesHead(log: seq<nat>, lo: nat)
    requires Increasing(log) && lo <= Head(log) && Between(log, lo, Head(log)) == []
    ensures lo == Head(log)
  {
    if log != [] {
      assert log == log[..|log| - 1] + [log[|log| - 1]];
    }
  }

  lemma ReplayFits(log: seq<nat>, said: map<nat, string>, ch: Channel, since: Option<nat>, fp: Option<nat>)
    requires Increasing(log) && KnownName(ch.name)
    requires since.Some? ==> since.value <= Head(log) && NoneOr(fp, since.value)
    requires since.None? ==> NoneOr(fp, Head(log))
    ensures InOrder(fp, Replayed(log, said, ch, since), log, ch)
    ensures NoneOr(Final(fp, Replayed(log, said, ch, since), ch), Head(log))
  {
    if since.Some? {
      ReplayInOrder(log, said, since.value, fp, ch);
      if Between(log, since.value, Head(log)) == [] {
        ReplayReachesHead(log, since.value);
      }
    }
  }

  // What the server answers to a subscribe fits onto what is already on its way.
  lemma ReplyInOrder(log: seq<nat>, said: map<nat, string>, ch: Channel, since: Option<nat>, ack: bool, fp: Option<nat>)
    requires Increasing(log) && KnownName(ch.name)
    requires since.Some? ==> since.value <= Head(log) && NoneOr(fp, since.value)
    requires since.None? ==> NoneOr(fp, Head(log))
    ensures InOrder(fp, Reply(log, said, ch, since, ack), log, ch)
    ensures NoneOr(Final(fp, Reply(log, said, ch, since, ack), ch), Head(log))
  {
    hide InOrder, Final, Replayed, Between;
    ReplayFits(log, said, ch, since, fp);
    var replay := Replayed(log, said, ch, since);
    if ack {
      AppendFrame(fp, replay, AckFrame(ch, Head(log)), log, ch);
      assert Classify(AckFrame(ch, Head(log))) == Ack(ch, Head(log));
    } else {
      assert Reply(log, said, ch, since, ack) == replay;
    }
  }

  lemma AnnouncesAppend(frames: seq<Wire>, f: Wire, ch: Channel)
    ensures Announces(frames + [f], ch) <==>
            Announces(frames, ch) || (Classify(f).Lost? && Names(Classify(f).channel, ch))
  {
    assert (frames + [f])[|frames|] == f;
    if i :| 0 <= i < |frames| && Classify(frames[i]).Lost? && Names(Classify(frames[i]).channel, ch) {
      assert (frames + [f])[i] == frames[i];
    }
  }

  predicate Concerns(f: Inbound, ch: Channel) { Touches(f, ch) || (f.Lost? && Names(f.channel, ch)) }

  lemma FlowPastOthers(pos: Option<nat>, coming: seq<Wire>, f: Wire, log: seq<nat>, live: bool, up: seq<ClientFrame>, ch: Channel)
    requires Flow(pos, coming, log, live, up, ch) && !Concerns(Classify(f), ch)
    ensures Flow(pos, coming + [f], log, live, up, ch)
  {
    AppendFrame(pos, coming, f, log, ch);
    AnnouncesAppend(coming, f, ch);
  }

  lemma FlowPastLoss(pos: Option<nat>, coming: seq<Wire>, f: Wire, log: seq<nat>, live: bool, up: seq<ClientFrame>, ch: Channel)
    requires Flow(pos, coming, log, live, up, ch) && Classify(f).Lost? && Names(Classify(f).channel, ch)
    ensures Flow(pos, coming + [f], log, false, up, ch)
  {
    AppendFrame(pos, coming, f, log, ch);
    AnnouncesAppend(coming, f, ch);
  }

  // Something is published that the server does not stream on this connection.
  lemma FlowPastMissed(pos: Option<nat>, coming: seq<Wire>, n: nat, log: seq<nat>, up: seq<ClientFrame>, ch: Channel)
    requires Flow(pos, coming, log, false, up, ch)
    requires Increasing(log) && n > Head(log)
    ensures Flow(pos, coming, log + [n], false, up, ch)
  {
    hide InOrder, Final, Announces, Between;
    PublishKeepsOrder(pos, coming, log, n, ch);
    assert UpOk(up, false, Final(pos, coming, ch), Head(log + [n]), ch);
  }

  lemma FlowPastStreamed(pos: Option<nat>, coming: seq<Wire>, n: nat, payload: string, log: seq<nat>, up: seq<ClientFrame>, ch: Channel)
    requires Flow(pos, coming, log, true, up, ch)
    requires KnownName(ch.name) && Increasing(log) && n > Head(log)
    ensures Flow(pos, coming + [UpdateFrame(ch, n, payload)], log + [n], true, up, ch)
  {
    hide InOrder, Final, Announces, Reply, Between;
    var f, log', fp := UpdateFrame(ch, n, payload), log + [n], Final(pos, coming, ch);
    assert Head(log') == n && Classify(f) == Update(ch, n, payload);
    assert InOrder(pos, coming, log', ch) by { PublishKeepsOrder(pos, coming, log, n, ch); }
    assert Fits(fp, Classify(f), log', ch) by { NextAfterHead(log, n); }
    AppendFrame(pos, coming, f, log', ch);
    assert UpOk(up, true, Some(n), n, ch);
  }

  lemma {:induction false} FlowPastAllOthers(pos: Option<nat>, coming: seq<Wire>, more: seq<Wire>, log: seq<nat>,
                                             live: bool, up: seq<ClientFrame>, ch: Channel)
    requires Flow(pos, coming, log, live, up, ch)
    requires forall i :: 0 <= i < |more| ==> !Concerns(Classify(more[i]), ch)
    ensures Flow(pos, coming + more, log, live, up, ch)
  {
    hide Flow;
    if more == [] {
      assert coming + more == coming;
    } else {
      var n := |more| - 1;
      FlowPastAllOthers(pos, coming, more[..n], log, live, up, ch);
      FlowPastOthers(pos, coming + more[..n], more[n], log, live, up, ch);
      assert coming + more == (coming + more[..n]) + [more[n]];
    }
  }

  // The server reads a subscribe for ch and goes live.
  lemma FlowPastReply(pos: Option<nat>, coming: seq<Wire>, log: seq<nat>, live: bool, up: seq<ClientFrame>,
                      ch: Channel, since: Option<nat>, ack: bool, said: map<nat, string>)
    requires KnownName(ch.name) && Increasing(log) && up != [] && up[0] == Subscribe(ch, since)
    requires Flow(pos, coming, log, live, up, ch)
    ensures Flow(pos, coming + Reply(log, said, ch, since, ack), log, true, up[1..], ch)
  {
    hide InOrder, Final, Announces, Reply, Between;
    var fp, reply := Final(pos, coming, ch), Reply(log, said, ch, since, ack);
    assert up[0] in up;
    assert InOrder(fp, reply, log, ch) && NoneOr(Final(fp, reply, ch), Head(log)) by {
      ReplyInOrder(log, said, ch, since, ack, fp);
    }
    AppendFrames(pos, coming, reply, log, ch);
    assert UpOk(up[1..], true, Final(fp, reply, ch), Head(log), ch) by {
      forall i, s: nat | 0 <= i < |up[1..]| ensures up[1..][i] != Subscribe(ch, Some(s)) {
        assert up[1..][i] == up[i + 1] && up[0].channel == ch;
      }
    }
  }

  // The server reads a frame and leaves ch as it is.
  lemma FlowPastServed(pos: Option<nat>, coming: seq<Wire>, log: seq<nat>, live: bool, up: seq<ClientFrame>, ch: Channel)
    requires Flow(pos, coming, log, live, up, ch) && up != []
    ensures Flow(pos, coming, log, live, up[1..], ch)
  {
    hide InOrder, Final, Announces, Between;
    assert up == [up[0]] + up[1..];
    assert UpOk(up[1..], live, Final(pos, coming, ch), Head(log), ch) by {
      forall i, s: nat | 0 <= i < |up[1..]| && up[1..][i] == Subscribe(ch, Some(s))
        ensures !live && NoneOr(Final(pos, coming, ch), s) && s <= Head(log)
                && forall j :: 0 <= j < i ==> up[1..][j].channel != ch
      {
        assert up[i + 1] == Subscribe(ch, Some(s));
        forall j | 0 <= j < i ensures up[1..][j].channel != ch { assert up[1..][j] == up[j + 1]; }
      }
    }
  }

  // The client asks for ch afresh, or for another channel.
  lemma FlowPastAsking(pos: Option<nat>, coming: seq<Wire>, log: seq<nat>, live: bool, up: seq<ClientFrame>, ch: Channel, f: ClientFrame)
    requires Flow(pos, coming, log, live, up, ch)
    requires f.channel != ch || (f == Subscribe(ch, None) && (live || Final(pos, coming, ch).None?))
    ensures Flow(pos, coming, log, live, up + [f], ch)
  {
    hide InOrder, Final, Announces, Between;
    var up' := up + [f];
    assert UpOk(up', live, Final(pos, coming, ch), Head(log), ch) by {
      forall i, s: nat | 0 <= i < |up'| && up'[i] == Subscribe(ch, Some(s))
        ensures !live && NoneOr(Final(pos, coming, ch), s) && s <= Head(log)
                && forall j :: 0 <= j < i ==> up'[j].channel != ch
      {
        assert up[i] == up'[i];
      }
    }
  }

  lemma FlowPastDecode(pos: Option<nat>, coming: seq<Wire>, log: seq<nat>, live: bool, up: seq<ClientFrame>, ch: Channel)
    requires coming != [] && Flow(pos, coming, log, live, up, ch)
    ensures Fits(pos, Classify(coming[0]), log, ch)
    ensures Flow(Moved(pos, Classify(coming[0]), ch), coming[1..], log, live, up, ch)
  {
    TakeFrame(pos, coming, log, ch);
    if i :| 0 <= i < |coming[1..]| && Classify(coming[1..][i]).Lost? && Names(Classify(coming[1..][i]).channel, ch) {
      assert coming[i + 1] == coming[1..][i];
    }
  }

  lemma {:induction false} FlowPastResends(pos: Option<nat>, coming: seq<Wire>, log: seq<nat>, live: bool, up: seq<ClientFrame>,
                                           ch: Channel, order: seq<Channel>, writes: Channel -> bool)
    requires Flow(pos, coming, log, live, up, ch)
    requires ch in order ==> live || Final(pos, coming, ch).None?
    ensures Flow(pos, coming, log, live, up + Resends(order, writes), ch)
  {
    hide Flow;
    if order == [] {
      assert up + Resends(order, writes) == up;
    } else {
      var n := |order| - 1;
      FlowPastResends(pos, coming, log, live, up, ch, order[..n], writes);
      var up' := up + Resends(order[..n], writes);
      if writes(order[n]) {
        FlowPastAsking(pos, coming, log, live, up', ch, Subscribe(order[n], None));
        assert up + Resends(order, writes) == up' + [Subscribe(order[n], None)];
      } else {
        assert up + Resends(order, writes) == up';
      }
    }
  }

  lemma {:induction false} UntouchedCursorStaysAbsent(coming: seq<Wire>, ch: Channel)
    requires Silent(coming, ch)
    ensures Final(None, coming, ch).None?
  {
    if coming != [] {
      UntouchedCursorStaysAbsent(coming[..|coming| - 1], ch);
    }
  }

  lemma {:induction false} SilentIsInOrder(coming: seq<Wire>, log: seq<nat>, ch: Channel)
    requires Silent(coming, ch)
    ensures InOrder(None, coming, log, ch)
  {
    if coming != [] {
      SilentIsInOrder(coming[..|coming| - 1], log, ch);
    }
  }

  // With nothing of ch on its way, a subscribe without a cursor may follow.
  lemma FlowFromSilence(coming: seq<Wire>, log: seq<nat>, up: seq<ClientFrame>, ch: Channel)
    requires Silent(coming, ch) && forall f :: f in up ==> f.channel != ch
    ensures Flow(None, coming, log, false, up, ch) && Final(None, coming, ch).None?
  {
    SilentIsInOrder(coming, log, ch);
    UntouchedCursorStaysAbsent(coming, ch);
    hide InOrder, Final, Silent, Announces;
  }

  lemma FlowKnowsLoss(pos: Option<nat>, coming: seq<Wire>, log: seq<nat>, live: bool, up: seq<ClientFrame>, ch: Channel)
    requires coming != [] && Flow(pos, coming, log, live, up, ch)
    requires Classify(coming[0]).Lost? && Names(Classify(coming[0]).channel, ch)
    ensures live || Final(None, coming[1..], ch).None?
  {
    assert Announces(coming, ch);
    TakeFrame(pos, coming, log, ch);
  }

  lemma FlowKeepsAsking(pos: Option<nat>, coming: seq<Wire>, log: seq<nat>, live: bool, up: seq<ClientFrame>, ch: Channel)
    requires up != [] && Flow(pos, coming, log, live, up, ch)
    ensures up[0] != Unsubscribe(ch)
  {
    assert up[0] in up;
  }

  lemma GreetingIsOk(c: Client, order: seq<Channel>, ch: Channel, head: nat)
    requires ch in c.cursors ==> c.cursors[ch] <= head
    requires forall i, j :: 0 <= i < j < |order| ==> order[i] != order[j]
    ensures UpOk(Greeting(c, order), false, SinceOf(c, ch), head, ch)
  {
    var up := Greeting(c, order);
    forall i, s: nat | 0 <= i < |up| && up[i] == Subscribe(ch, Some(s))
      ensures NoneOr(SinceOf(c, ch), s) && s <= head && forall j :: 0 <= j < i ==> up[j].channel != ch
    {
      assert order[i] == ch;
    }
  }

  lemma FlowStarts(pos: Option<nat>, log: seq<nat>, up: seq<ClientFrame>, ch: Channel)
    requires UpOk(up, false, pos, Head(log), ch)
    ensures Flow(pos, [], log, false, up, ch)
  {
  }

  // Decoding a frame that fits moves the cursor of a subscribed channel as Moved says.
  lemma DigestMoves(c: Client, f: Inbound, log: seq<nat>, ch: Channel)
    requires Increasing(log) && Fits(SinceOf(c, ch), f, log, ch)
    requires Touches(f, ch) ==> ch in c.subs
    requires ch in c.cursors ==> ch in c.subs
    ensures SinceOf(Digest(c, f), ch) == Moved(SinceOf(c, ch), f, ch)
  {
    hide Between;
    if f.Update? && f.channel == ch && ch in c.cursors {
      BetweenSingle(log, c.cursors[ch], f.seqNo);
    }
  }

  lemma OtherReply(log: seq<nat>, said: map<nat, string>, c: Channel, since: Option<nat>, ack: bool, ch: Channel)
    requires c != ch
    ensures forall i :: 0 <= i < |Reply(log, said, c, since, ack)| ==> !Concerns(Classify(Reply(log, said, c, since, ack)[i]), ch)
  {
  }

  lemma DigestKeepsSubs(c: Client, f: Inbound)
    ensures Digest(c, f).subs == c.subs
    ensures forall ch :: ch in Digest(c, f).cursors ==> ch in c.cursors || ch in c.subs
  {
  }

  lemma SilentAppend(frames: seq<Wire>, more: seq<Wire>, ch: Channel)
    requires Silent(frames, ch) && Silent(more, ch)
    ensures Silent(frames + more, ch)
  {
  }

  lemma OneIsSilent(frames: seq<Wire>, ch: Channel)
    requires forall i :: 0 <= i < |frames| ==> !Touches(Classify(frames[i]), ch)
    ensures Silent(frames, ch)
  {
  }

  lemma {:induction false} ResendsNameOrder(order: seq<Channel>, writes: Channel -> bool)
    ensures forall f :: f in Resends(order, writes) ==> f.channel in order
  {
    if order != [] {
      var n := |order| - 1;
      ResendsNameOrder(order[..n], writes);
      assert order == order[..n] + [order[n]];
    }
  }

  // The seqs of the events of ch, in the order they were decoded.
  function Delivered(events: seq<Event>, ch: Channel): seq<nat> {
    if events == [] then []
    else
      var n := |events| - 1;
      Delivered(events[..n], ch)
      + if events[n].ChannelEvent? && events[n].channel == ch then [events[n].seqNo] else []
  }

  predicate GapAnnounced(events: seq<Event>, ch: Channel) {
    exists i :: 0 <= i < |events| && events[i].OutOfSync? && events[i].channel == ch
  }

  lemma {:induction false} DeliveredAppend(a: seq<Event>, b: seq<Event>, ch: Channel)
    ensures Delivered(a + b, ch) == Delivered(a, ch) + Delivered(b, ch)
  {
    if b == [] {
      assert a + b == a;
    } else {
      var n := |b| - 1;
      DeliveredAppend(a, b[..n], ch);
      assert (a + b)[..|a| + n] == a + b[..n];
    }
  }

  lemma DeliveredOne(e: Event, ch: Channel)
    ensures Delivered([e], ch) == if e.ChannelEvent? && e.channel == ch then [e.seqNo] else []
  {
    assert [e][..0] == [];
  }

  lemma {:induction false} LossesDeliverNothing(order: seq<Channel>, oldest: nat, ch: Channel)
    ensures Delivered(Losses(order, oldest), ch) == []
  {
    if order != [] {
      var n := |order| - 1;
      LossesDeliverNothing(order[..n], oldest, ch);
      assert Losses(order, oldest)[..n] == Losses(order[..n], oldest);
    }
  }
}
