/** No silent loss: over every run, with the connection lost at any point, the events of
    a channel that holds a cursor are handed out exactly as published, none skipped and
    none repeated, until an OutOfSync announces a gap. */
module NoSilentLoss {
  import opened Wrappers
  import opened Frames
  import opened Subscriptions
  import opened Resume
  import opened PublishedLog
  import opened CursorFlow
  import opened Traffic
  import opened Payloads

  ghost predicate FlowOf(w: World, ch: Channel) {
    w.link.Some? ==>
      Flow(SinceOf(w.client, ch), Coming(w), LogOf(w, ch), ch in w.link.value.live, w.link.value.up, ch)
  }

  ghost predicate Basic(w: World, ch: Channel) {
    && Valid(ch) && Increasing(LogOf(w, ch))
    && (ch in w.client.cursors ==> ch in w.client.subs && w.client.cursors[ch] <= Head(LogOf(w, ch)))
    && (w.connected ==> w.link.Some?)
    && (w.hand.Some? ==> w.link.Some?)
  }

  // Nothing about ch is on its way, and the server does not stream it.
  ghost predicate Absent(w: World, ch: Channel) {
    w.link.Some? ==>
      && ch !in w.link.value.live
      && Silent(Coming(w), ch)
      && forall f :: f in w.link.value.up ==> f.channel != ch
  }

  ghost predicate Inv(w: World, ch: Channel) { Basic(w, ch) && (ch in w.client.subs ==> FlowOf(w, ch)) }

  /** ch is subscribed only while it is not, and only once nothing about it is on its way. */
  ghost predicate Loyal(w: World, step: Step, ch: Channel) {
    step.CallSubscribe? && step.channel == ch ==> ch !in w.client.subs && Absent(w, ch)
  }

  lemma JoiningIsFresh(w: World, ch: Channel)
    requires Inv(w, ch) && w.link.Some? && ch !in w.client.subs && Absent(w, ch)
    ensures SinceOf(w.client, ch).None? && Final(None, Coming(w), ch).None?
    ensures Flow(None, Coming(w), LogOf(w, ch), ch in w.link.value.live, w.link.value.up, ch)
  {
    FlowFromSilence(Coming(w), LogOf(w, ch), w.link.value.up, ch);
    hide Flow, Silent, Final;
  }

  lemma CallMoves(w: World, step: Step, ch: Channel)
    requires Inv(w, ch) && Enabled(w, step)
    requires step.CallSubscribe? || (step.CallUnsubscribe? && step.channel != ch)
    ensures var w' := Apply(w, step);
            var f := if step.CallSubscribe? then SubscribeFrame(w'.client, step.channel) else Unsubscribe(step.channel);
            && SinceOf(w'.client, ch) == SinceOf(w.client, ch) && LogOf(w', ch) == LogOf(w, ch)
            && Coming(w') == Coming(w) && (w'.link.Some? <==> w.link.Some?)
            && (w.link.Some? ==>
                  && w'.link.value.live == w.link.value.live
                  && (w'.link.value.up == w.link.value.up || w'.link.value.up == w.link.value.up + [f])
                  && f.channel == step.channel && (f.channel == ch ==> f == Subscribe(ch, SinceOf(w.client, ch))))
  {
    hide Flow, Silent;
  }

  lemma CallKeepsFlow(w: World, step: Step, ch: Channel)
    requires Inv(w, ch) && Enabled(w, step) && Loyal(w, step, ch)
    requires step.CallSubscribe? || (step.CallUnsubscribe? && step.channel != ch)
    requires ch in w.client.subs || step.channel == ch
    ensures FlowOf(Apply(w, step), ch)
  {
    assert step.channel == ch ==> ch !in w.client.subs && Absent(w, ch);
    hide *;
    CallMoves(w, step, ch);
    var w' := Apply(w, step);
    if w.link.Some? {
      if ch in w.client.subs {
        FlowHere(w, ch);
      } else {
        JoiningIsFresh(w, ch);
      }
      var l, pos := w.link.value, SinceOf(w.client, ch);
      if w'.link.value.up != l.up {
        FlowPastAsking(pos, Coming(w), LogOf(w, ch), ch in l.live, l.up, ch, w'.link.value.up[|l.up|]);
      }
      FlowThere(w', ch);
    } else {
      NotLinkedFlows(w', ch);
    }
  }

  lemma ConnectKeepsFlow(w: World, order: seq<Channel>, ch: Channel)
    requires Inv(w, ch) && Possible(w, Connect(order))
    ensures FlowOf(Apply(w, Connect(order)), ch)
  {
    hide Flow, UpOk, Greeting;
    assert Coming(Apply(w, Connect(order))) == [];
    GreetingIsOk(w.client, order, ch, Head(LogOf(w, ch)));
    FlowStarts(SinceOf(w.client, ch), LogOf(w, ch), Greeting(w.client, order), ch);
  }

  // What decoding does to the cursor of ch, and to what is still coming.
  lemma DecodeMoves(w: World, step: Step, ch: Channel)
    requires Inv(w, ch) && ch in w.client.subs && Possible(w, step) && step.Decode?
    ensures var f := Classify(w.hand.value);
            && Fits(SinceOf(w.client, ch), f, LogOf(w, ch), ch)
            && SinceOf(Apply(w, step).client, ch) == Moved(SinceOf(w.client, ch), f, ch)
            && Coming(w) == [w.hand.value] + Coming(Apply(w, step))
  {
    hide Flow, Digest, Moved, Produced, Resends, Fits;
    var l, f := w.link.value, Classify(w.hand.value);
    assert Coming(w)[0] == w.hand.value;
    FlowPastDecode(SinceOf(w.client, ch), Coming(w), LogOf(w, ch), ch in l.live, l.up, ch);
    DigestMoves(w.client, f, LogOf(w, ch), ch);
  }

  lemma DecodeKeepsFlow(w: World, step: Step, ch: Channel)
    requires Inv(w, ch) && ch in w.client.subs && Possible(w, step) && step.Decode?
    ensures FlowOf(Apply(w, step), ch)
  {
    hide Flow;
    DecodeMoves(w, step, ch);
    var w', l, f := Apply(w, step), w.link.value, Classify(w.hand.value);
    var pos, pos', log, coming := SinceOf(w.client, ch), SinceOf(w'.client, ch), LogOf(w, ch), Coming(w');
    assert Coming(w)[0] == w.hand.value && Coming(w)[1..] == coming;
    FlowPastDecode(pos, Coming(w), log, ch in l.live, l.up, ch);
    if f.Lost? && w.connected {
      if ch in step.order {
        FlowKnowsLoss(pos, Coming(w), log, ch in l.live, l.up, ch);
      }
      FlowPastResends(pos', coming, log, ch in l.live, l.up, ch, step.order, step.writes);
    }
  }

  lemma FlowHere(w: World, ch: Channel)
    requires Inv(w, ch) && ch in w.client.subs && w.link.Some?
    ensures Flow(SinceOf(w.client, ch), Coming(w), LogOf(w, ch), ch in w.link.value.live, w.link.value.up, ch)
    ensures Valid(ch) && Increasing(LogOf(w, ch))
  {
    hide Flow;
  }

  lemma FlowThere(w: World, ch: Channel)
    requires w.link.Some?
    requires Flow(SinceOf(w.client, ch), Coming(w), LogOf(w, ch), ch in w.link.value.live, w.link.value.up, ch)
    ensures FlowOf(w, ch)
  {
    hide Flow;
  }

  lemma NotLinkedFlows(w: World, ch: Channel)
    requires w.link.None?
    ensures FlowOf(w, ch)
  {
  }

  lemma OthersUpdate(c: Channel, n: nat, payload: string, ch: Channel)
    requires KnownName(c.name) && c != ch
    ensures !Concerns(Classify(UpdateFrame(c, n, payload)), ch)
  {
  }

  lemma PublishKeepsFlow(w: World, step: Step, ch: Channel)
    requires Inv(w, ch) && ch in w.client.subs && Enabled(w, step) && step.Publish?
    ensures FlowOf(Apply(w, step), ch)
  {
    hide *;
    if w.link.Some? {
      var l, pos, log := w.link.value, SinceOf(w.client, ch), LogOf(w, ch);
      var c, n := step.channel, step.seqNo;
      FlowHere(w, ch);
      PublishMoves(w, step, ch);
      if c != ch {
        OthersUpdate(c, n, step.payload, ch);
        FlowPastOthers(pos, Coming(w), UpdateFrame(c, n, step.payload), log, ch in l.live, l.up, ch);
      } else if c in l.live {
        FlowPastStreamed(pos, Coming(w), n, step.payload, log, l.up, ch);
      } else {
        FlowPastMissed(pos, Coming(w), n, log, l.up, ch);
      }
      FlowThere(Apply(w, step), ch);
    } else {
      PublishStaysUnlinked(w, step);
      NotLinkedFlows(Apply(w, step), ch);
    }
  }

  lemma LossIsNamed(live: set<Channel>, notice: Channel, oldest: nat, ch: Channel)
    requires KnownName(ch.name)
    ensures var f := Classify(LostFrame(notice, oldest));
            if Names(notice, ch) then f.Lost? && Names(f.channel, ch) && ch !in Unnamed(live, notice)
            else !Concerns(f, ch) && (ch in Unnamed(live, notice) <==> ch in live)
  {
    if KnownName(notice.name) {
      ServedFramesReadBack(notice, oldest, "");
      hide Classify;
    }
  }

  lemma ChatterConcernsNone(frame: Wire, ch: Channel)
    requires Quiet(frame)
    ensures !Concerns(Classify(frame), ch)
  {
    hide Classify;
  }

  lemma FallBehindKeepsFlow(w: World, step: Step, ch: Channel)
    requires Inv(w, ch) && ch in w.client.subs && Enabled(w, step) && step.FallBehind?
    ensures FlowOf(Apply(w, step), ch)
  {
    assert w.link.Some? && KnownName(ch.name);
    hide *;
    var l, pos, log := w.link.value, SinceOf(w.client, ch), LogOf(w, ch);
    var f := LostFrame(step.notice, step.oldest);
    FlowHere(w, ch);
    NoticeMoves(w, step, ch);
    LossIsNamed(l.live, step.notice, step.oldest, ch);
    if Names(step.notice, ch) {
      FlowPastLoss(pos, Coming(w), f, log, ch in l.live, l.up, ch);
    } else {
      FlowPastOthers(pos, Coming(w), f, log, ch in l.live, l.up, ch);
    }
    FlowThere(Apply(w, step), ch);
  }

  lemma ChatterKeepsFlow(w: World, step: Step, ch: Channel)
    requires Inv(w, ch) && ch in w.client.subs && Enabled(w, step) && step.Chatter?
    ensures FlowOf(Apply(w, step), ch)
  {
    assert w.link.Some? && Quiet(step.frame);
    hide *;
    FlowHere(w, ch);
    NoticeMoves(w, step, ch);
    ChatterConcernsNone(step.frame, ch);
    FlowPastOthers(SinceOf(w.client, ch), Coming(w), step.frame, LogOf(w, ch), ch in w.link.value.live, w.link.value.up, ch);
    FlowThere(Apply(w, step), ch);
  }

  lemma LeftConcernsNone(c: Channel, ch: Channel)
    ensures !Concerns(Classify(LeftFrame(c)), ch) && !Concerns(Classify(ErrorFrame("")), ch)
  {
  }

  lemma ServeUnsubscribeKeepsFlow(w: World, answer: Answer, ch: Channel)
    requires Inv(w, ch) && ch in w.client.subs && Enabled(w, Serve(answer)) && w.link.value.up[0].Unsubscribe?
    ensures FlowOf(Apply(w, Serve(answer)), ch)
  {
    var l, pos, log, c := w.link.value, SinceOf(w.client, ch), LogOf(w, ch), w.link.value.up[0].channel;
    assert ch in l.live && c != ch ==> ch in LiveAfter(l.live, l.up[0], answer);
    assert c == ch || ch !in l.live ==> ch !in LiveAfter(l.live, l.up[0], answer);
    assert Answered(w, l.up[0], answer) == [LeftFrame(c)];
    hide *;
    FlowHere(w, ch);
    ServeMoves(w, answer, ch);
    FlowKeepsAsking(pos, Coming(w), log, ch in l.live, l.up, ch);
    FlowPastServed(pos, Coming(w), log, ch in l.live, l.up, ch);
    LeftConcernsNone(c, ch);
    FlowPastOthers(pos, Coming(w), LeftFrame(c), log, ch in l.live, l.up[1..], ch);
    FlowThere(Apply(w, Serve(answer)), ch);
  }

  lemma ServeAcceptKeepsFlow(w: World, ack: bool, ch: Channel)
    requires Inv(w, ch) && ch in w.client.subs && Enabled(w, Serve(Accept(ack))) && w.link.value.up[0].Subscribe?
    ensures FlowOf(Apply(w, Serve(Accept(ack))), ch)
  {
    var l, pos, log := w.link.value, SinceOf(w.client, ch), LogOf(w, ch);
    var c, since := l.up[0].channel, l.up[0].since;
    var reply := Reply(LogOf(w, c), TextsOf(w, c), c, since, ack);
    assert l.up[0] == Subscribe(c, since) && Answered(w, l.up[0], Accept(ack)) == reply;
    assert ch in LiveAfter(l.live, l.up[0], Accept(ack)) <==> c == ch || ch in l.live;
    hide *;
    FlowHere(w, ch);
    ServeMoves(w, Accept(ack), ch);
    if c == ch {
      FlowPastReply(pos, Coming(w), log, ch in l.live, l.up, ch, since, ack, TextsOf(w, ch));
    } else {
      OtherReply(LogOf(w, c), TextsOf(w, c), c, since, ack, ch);
      FlowPastServed(pos, Coming(w), log, ch in l.live, l.up, ch);
      FlowPastAllOthers(pos, Coming(w), reply, log, ch in l.live, l.up[1..], ch);
    }
    FlowThere(Apply(w, Serve(Accept(ack))), ch);
  }

  lemma ServeDeclineKeepsFlow(w: World, ch: Channel)
    requires Inv(w, ch) && ch in w.client.subs && Enabled(w, Serve(Decline)) && w.link.value.up[0].Subscribe?
    ensures FlowOf(Apply(w, Serve(Decline)), ch)
  {
    var l, pos, log := w.link.value, SinceOf(w.client, ch), LogOf(w, ch);
    assert Answered(w, l.up[0], Decline) == [ErrorFrame("")] && LiveAfter(l.live, l.up[0], Decline) == l.live;
    hide *;
    FlowHere(w, ch);
    ServeMoves(w, Decline, ch);
    LeftConcernsNone(ch, ch);
    FlowPastServed(pos, Coming(w), log, ch in l.live, l.up, ch);
    FlowPastOthers(pos, Coming(w), ErrorFrame(""), log, ch in l.live, l.up[1..], ch);
    FlowThere(Apply(w, Serve(Decline)), ch);
  }

  lemma ServeOutOfReachKeepsFlow(w: World, oldest: nat, ch: Channel)
    requires Inv(w, ch) && ch in w.client.subs && Enabled(w, Serve(OutOfReach(oldest))) && w.link.value.up[0].Subscribe?
    ensures FlowOf(Apply(w, Serve(OutOfReach(oldest))), ch)
  {
    var l, pos, log, c := w.link.value, SinceOf(w.client, ch), LogOf(w, ch), w.link.value.up[0].channel;
    var f := LostFrame(c, oldest);
    assert KnownName(ch.name);
    assert Answered(w, l.up[0], OutOfReach(oldest)) == [f] && LiveAfter(l.live, l.up[0], OutOfReach(oldest)) == Unnamed(l.live, c);
    hide *;
    FlowHere(w, ch);
    ServeMoves(w, OutOfReach(oldest), ch);
    LossIsNamed(l.live, c, oldest, ch);
    FlowPastServed(pos, Coming(w), log, ch in l.live, l.up, ch);
    if Names(c, ch) {
      FlowPastLoss(pos, Coming(w), f, log, ch in l.live, l.up[1..], ch);
    } else {
      FlowPastOthers(pos, Coming(w), f, log, ch in l.live, l.up[1..], ch);
    }
    FlowThere(Apply(w, Serve(OutOfReach(oldest))), ch);
  }

  lemma NoCursorWithoutSubs(c: Client, f: Inbound, ch: Channel)
    requires ch !in c.subs && ch !in c.cursors
    ensures ch !in Digest(c, f).subs && ch !in Digest(c, f).cursors
  {
  }

  lemma DecodeKeepsBasic(w: World, step: Step, ch: Channel)
    requires Inv(w, ch) && Possible(w, step) && step.Decode?
    ensures Basic(Apply(w, step), ch)
  {
    hide Flow, Produced, Resends, Digest, Increasing, InOrder, Final, Classify;
    if ch in w.client.subs {
      DecodeMoves(w, step, ch);
    } else {
      NoCursorWithoutSubs(w.client, Classify(w.hand.value), ch);
    }
    DigestKeepsSubs(w.client, Classify(w.hand.value));
  }

  lemma PublishKeepsBasic(w: World, step: Step, ch: Channel)
    requires Basic(w, ch) && Enabled(w, step) && step.Publish?
    ensures Basic(Apply(w, step), ch)
  {
    hide Between;
    if step.channel == ch {
      PublishKeepsBetween(LogOf(w, ch), step.seqNo, 0, 0);
    }
  }

  lemma StepKeepsBasic(w: World, step: Step, ch: Channel)
    requires Inv(w, ch) && Possible(w, step) && Loyal(w, step, ch)
    ensures Basic(Apply(w, step), ch)
  {
    hide FlowOf, Absent, Served, Resends, Greeting, Digest, Increasing, Head, Produced, RangesOver;
    match step
    case Publish(_, _, _) => PublishKeepsBasic(w, step, ch);
    case Decode(_, _) => DecodeKeepsBasic(w, step, ch);
    case _ =>
  }

  lemma AnswersAreSilent(w: World, f: ClientFrame, answer: Answer, ch: Channel)
    requires f.channel != ch
    ensures Silent(Answered(w, f, answer), ch)
  {
    hide Reply;
    if f.Subscribe? && answer.Accept? {
      OtherReply(LogOf(w, f.channel), TextsOf(w, f.channel), f.channel, f.since, answer.ack, ch);
    }
  }

  lemma ServerKeepsAbsent(w: World, step: Step, ch: Channel)
    requires Absent(w, ch) && Enabled(w, step)
    requires step.Publish? || step.Serve? || step.FallBehind? || step.Chatter?
    ensures Absent(Apply(w, step), ch)
  {
    hide Reply, Silent, Answered;
    if w.link.Some? {
      ArrivesLast(w, step, ch);
      if step.Serve? {
        AnswersAreSilent(w, w.link.value.up[0], step.answer, ch);
      } else {
        OneIsSilent(Arriving(w, step), ch);
      }
      SilentAppend(Coming(w), Arriving(w, step), ch);
    }
  }

  lemma DecodeKeepsAbsent(w: World, step: Step, ch: Channel)
    requires Absent(w, ch) && ch !in w.client.subs && Possible(w, step) && step.Decode?
    ensures Absent(Apply(w, step), ch)
  {
    hide Resends, Digest, Produced, Classify;
    if w.link.Some? {
      ComingHead(w, step);
      SilentTail(Coming(w), ch);
      ResendsNameOrder(step.order, step.writes);
      hide Silent;
    }
  }

  lemma SilentTail(frames: seq<Wire>, ch: Channel)
    requires Silent(frames, ch) && frames != []
    ensures Silent(frames[1..], ch)
  {
    hide Classify, Touches;
  }

  lemma ConnectKeepsAbsent(w: World, order: seq<Channel>, ch: Channel)
    requires Possible(w, Connect(order)) && w.hand.None? && ch !in w.client.subs
    ensures Absent(Apply(w, Connect(order)), ch)
  {
    OneIsSilent([], ch);
    forall f | f in Greeting(w.client, order) ensures f.channel in order {
      var i :| 0 <= i < |order| && Greeting(w.client, order)[i] == f;
    }
  }

  lemma CallKeepsAbsent(w: World, step: Step, ch: Channel)
    requires Absent(w, ch) && Enabled(w, step) && (step.CallSubscribe? || step.CallUnsubscribe?) && step.channel != ch
    ensures Absent(Apply(w, step), ch)
  {
    hide Silent;
    assert Coming(Apply(w, step)) == Coming(w);
  }

  // A call about ch.
  predicate Calls(step: Step, ch: Channel) { (step.CallSubscribe? || step.CallUnsubscribe?) && step.channel == ch }

  /** Nothing about a channel that is not subscribed comes onto its way but by a call about it. */
  lemma StepKeepsAbsent(w: World, step: Step, ch: Channel)
    requires Absent(w, ch) && ch !in w.client.subs && Held(w)
    requires Possible(w, step) && !Calls(step, ch)
    ensures Absent(Apply(w, step), ch)
  {
    hide Flow, Served, Silent;
    match step
    case ReadFrame => ReadKeepsComing(w);
    case Decode(order, writes) => DecodeKeepsAbsent(w, step, ch);
    case Connect(order) => ConnectKeepsAbsent(w, order, ch);
    case CallSubscribe(_, _) => CallKeepsAbsent(w, step, ch);
    case CallUnsubscribe(_, _) => CallKeepsAbsent(w, step, ch);
    case CallClose => assert Coming(Apply(w, step)) == Coming(w);
    case LoseConnection =>
    case _ => ServerKeepsAbsent(w, step, ch);
  }

  lemma SubsAfter(w: World, step: Step)
    requires Enabled(w, step)
    ensures Apply(w, step).client.subs == match step
                                          case CallSubscribe(c, _) => w.client.subs + {c}
                                          case CallUnsubscribe(c, _) => w.client.subs - {c}
                                          case _ => w.client.subs
    ensures Held(w) ==> Held(Apply(w, step))
  {
    hide Digest, Produced, Served, Resends, Greeting, Classify;
    if step.Decode? {
      DigestKeepsSubs(w.client, Classify(w.hand.value));
    }
  }

  lemma StepKeepsFlow(w: World, step: Step, ch: Channel)
    requires Inv(w, ch) && Possible(w, step) && Loyal(w, step, ch)
    requires ch in Apply(w, step).client.subs
    ensures FlowOf(Apply(w, step), ch)
  {
    SubsAfter(w, step);
    hide Flow, Served, Absent;
    match step
    case CallSubscribe(_, _) => CallKeepsFlow(w, step, ch);
    case CallUnsubscribe(_, _) => CallKeepsFlow(w, step, ch);
    case CallClose =>
      assert Coming(Apply(w, step)) == Coming(w);
    case Connect(order) => ConnectKeepsFlow(w, order, ch);
    case ReadFrame => ReadKeepsComing(w);
    case Decode(_, _) => DecodeKeepsFlow(w, step, ch);
    case LoseConnection =>
    case Publish(_, _, _) => PublishKeepsFlow(w, step, ch);
    case Serve(answer) =>
      if w.link.value.up[0].Unsubscribe? {
        ServeUnsubscribeKeepsFlow(w, answer, ch);
      } else if answer.Accept? {
        ServeAcceptKeepsFlow(w, answer.ack, ch);
      } else if answer.Decline? {
        ServeDeclineKeepsFlow(w, ch);
      } else {
        ServeOutOfReachKeepsFlow(w, answer.oldest, ch);
      }
    case FallBehind(_, _) => FallBehindKeepsFlow(w, step, ch);
    case Chatter(_) => ChatterKeepsFlow(w, step, ch);
  }

  lemma StepKeepsInv(w: World, step: Step, ch: Channel)
    requires Inv(w, ch) && Possible(w, step) && Loyal(w, step, ch)
    ensures Inv(Apply(w, step), ch)
  {
    hide Flow, Apply, Absent;
    StepKeepsBasic(w, step, ch);
    if ch in Apply(w, step).client.subs {
      StepKeepsFlow(w, step, ch);
    }
  }

  ghost predicate LoyalRun(w: World, steps: seq<Step>, ch: Channel)
    requires Legal(w, steps)
    decreases |steps|
  {
    steps == [] || (Loyal(w, steps[0], ch) && LoyalRun(Apply(w, steps[0]), steps[1..], ch))
  }

  // One step: either a gap is announced, or the events handed out are those published
  // between the old cursor and the new one.
  ghost predicate Covers(w: World, w': World, events: seq<Event>, ch: Channel) {
    var pos, pos' := SinceOf(w.client, ch), SinceOf(w'.client, ch);
    pos.Some? ==>
      || GapAnnounced(events, ch)
      || (pos'.Some? && pos.value <= pos'.value <= Head(LogOf(w', ch))
          && Delivered(events, ch) == Between(LogOf(w', ch), pos.value, pos'.value))
  }

  // What decoding one frame hands out, in terms of the cursor before and after it.
  lemma FrameCovers(pos: nat, f: Inbound, log: seq<nat>, ch: Channel)
    requires Fits(Some(pos), f, log, ch) && Increasing(log) && pos <= Head(log)
    requires !(f.Lost? && Names(f.channel, ch))
    ensures var pos' := Moved(Some(pos), f, ch);
            && pos'.Some? && pos <= pos'.value <= Head(log)
            && Between(log, pos, pos'.value) == if f.Update? && f.channel == ch then [f.seqNo] else []
  {
    hide Between;
    NothingBetween(log, pos, pos);
    if f.Update? && f.channel == ch {
      BetweenSingle(log, pos, f.seqNo);
    }
  }

  lemma ProducedDelivers(frame: Wire, order: seq<Channel>, ch: Channel)
    requires var f := Classify(frame); f.Lost? ==> ch !in order
    ensures var f := Classify(frame);
            Delivered(Produced(frame, order), ch) == if f.Update? && f.channel == ch then [f.seqNo] else []
  {
    hide Delivered, Classify;
    var f := Classify(frame);
    if f.Lost? {
      LossesDeliverNothing(order, f.oldest, ch);
    } else {
      DeliveredOne(Produced(frame, order)[0], ch);
    }
  }

  lemma LossIsAnnounced(frame: Wire, order: seq<Channel>, ch: Channel)
    requires Classify(frame).Lost? && ch in order
    ensures GapAnnounced(Produced(frame, order), ch)
  {
    hide Classify;
    var i :| 0 <= i < |order| && order[i] == ch;
    assert Produced(frame, order)[i].OutOfSync?;
  }

  lemma DecodeCovers(w: World, step: Step, ch: Channel)
    requires Inv(w, ch) && Possible(w, step) && step.Decode?
    ensures Covers(w, Apply(w, step), Produced(w.hand.value, step.order), ch)
  {
    var frame, log := w.hand.value, LogOf(w, ch);
    var f := Classify(frame);
    assert ch in w.client.cursors ==> ch in w.client.subs;
    if ch in w.client.subs {
      DecodeMoves(w, step, ch);
    }
    assert LogOf(Apply(w, step), ch) == log by { LogAfter(w, step, ch); }
    hide Flow, Digest, Moved, Fits, Produced, Delivered, Between, GapAnnounced, Resends, Apply;
    if ch in w.client.cursors {
      if f.Lost? && ch in step.order {
        LossIsAnnounced(frame, step.order, ch);
      } else {
        ProducedDelivers(frame, step.order, ch);
        FrameCovers(w.client.cursors[ch], f, log, ch);
      }
    }
  }

  lemma StepCovers(w: World, step: Step, ch: Channel)
    requires Inv(w, ch) && Possible(w, step) && Loyal(w, step, ch)
    requires !(step.CallUnsubscribe? && step.channel == ch)
    ensures var w' := Apply(w, step);
            && w.decoded <= w'.decoded
            && Covers(w, w', w'.decoded[|w.decoded|..], ch)
  {
    hide Flow, Served, Resends, Greeting, Produced, Between, Absent;
    var w' := Apply(w, step);
    if step.Decode? {
      DecodeCovers(w, step, ch);
      assert w'.decoded[|w.decoded|..] == Produced(w.hand.value, step.order);
    } else {
      assert w'.decoded[|w.decoded|..] == [];
      if ch in w.client.cursors {
        StepKeepsBasic(w, step, ch);
        NothingBetween(LogOf(w', ch), w.client.cursors[ch], w.client.cursors[ch]);
      }
    }
  }

  lemma {:induction false} LaterLogKeepsBetween(w: World, steps: seq<Step>, ch: Channel, lo: nat, hi: nat)
    requires Inv(w, ch) && Legal(w, steps) && LoyalRun(w, steps, ch) && hi <= Head(LogOf(w, ch))
    ensures Inv(Run(w, steps), ch)
    ensures Between(LogOf(Run(w, steps), ch), lo, hi) == Between(LogOf(w, ch), lo, hi)
    decreases |steps|
  {
    hide Inv, Between, Head, Enabled, Apply, Loyal;
    if steps != [] {
      var step := steps[0];
      StepKeepsInv(w, step, ch);
      StepKeepsBetween(w, step, ch, lo, hi);
      LaterLogKeepsBetween(Apply(w, step), steps[1..], ch, lo, hi);
    }
  }

  lemma StepKeepsBetween(w: World, step: Step, ch: Channel, lo: nat, hi: nat)
    requires Inv(w, ch) && Possible(w, step) && hi <= Head(LogOf(w, ch))
    ensures hi <= Head(LogOf(Apply(w, step), ch))
    ensures Between(LogOf(Apply(w, step), ch), lo, hi) == Between(LogOf(w, ch), lo, hi)
  {
    hide Flow, Apply, Between;
    LogAfter(w, step, ch);
    if step.Publish? && step.channel == ch {
      PublishKeepsBetween(LogOf(w, ch), step.seqNo, lo, hi);
    } else {
      assert LogOf(w, ch) + [] == LogOf(w, ch);
    }
  }

  lemma {:induction false} RunKeepsInv(w: World, steps: seq<Step>, ch: Channel)
    requires Inv(w, ch) && Legal(w, steps) && LoyalRun(w, steps, ch)
    ensures Inv(Run(w, steps), ch)
    decreases |steps|
  {
    hide Inv, Enabled, Loyal, Apply;
    if steps != [] {
      StepKeepsInv(w, steps[0], ch);
      RunKeepsInv(Apply(w, steps[0]), steps[1..], ch);
    }
  }

  // ch is not unsubscribed.
  predicate StaysJoined(steps: seq<Step>, ch: Channel) {
    forall i :: 0 <= i < |steps| ==> !(steps[i].CallUnsubscribe? && steps[i].channel == ch)
  }

  lemma {:induction false} RunCovers(w: World, steps: seq<Step>, ch: Channel)
    requires Inv(w, ch) && Legal(w, steps) && LoyalRun(w, steps, ch) && StaysJoined(steps, ch)
    ensures var w' := Run(w, steps);
            && Inv(w', ch)
            && w.decoded <= w'.decoded
            && Covers(w, w', w'.decoded[|w.decoded|..], ch)
    decreases |steps|
  {
    hide Inv, Between, Enabled, Loyal, Apply;
    if steps == [] {
      assert w.decoded[|w.decoded|..] == [];
      StaysCovered(w, ch);
    } else {
      var w1, w' := Apply(w, steps[0]), Run(w, steps);
      StepKeepsInv(w, steps[0], ch);
      StepCovers(w, steps[0], ch);
      RunCovers(w1, steps[1..], ch);
      var first, rest := w1.decoded[|w.decoded|..], w'.decoded[|w1.decoded|..];
      assert w'.decoded[|w.decoded|..] == first + rest;
      CoversCompose(w, w1, steps[1..], first, rest, ch);
    }
  }

  lemma StaysCovered(w: World, ch: Channel)
    requires Inv(w, ch)
    ensures Covers(w, w, [], ch)
  {
    hide Flow;
    if ch in w.client.cursors {
      NothingBetween(LogOf(w, ch), w.client.cursors[ch], w.client.cursors[ch]);
    }
  }

  lemma CoversCompose(w: World, w1: World, steps: seq<Step>, first: seq<Event>, rest: seq<Event>, ch: Channel)
    requires Inv(w1, ch) && Legal(w1, steps) && LoyalRun(w1, steps, ch) && Inv(Run(w1, steps), ch)
    requires Covers(w, w1, first, ch) && Covers(w1, Run(w1, steps), rest, ch)
    ensures Covers(w, Run(w1, steps), first + rest, ch)
  {
    hide Flow, Between, Run, Legal, LoyalRun;
    var w' := Run(w1, steps);
    DeliveredAppend(first, rest, ch);
    if i :| 0 <= i < |first| && first[i].OutOfSync? && first[i].channel == ch {
      assert (first + rest)[i] == first[i];
    } else if i :| 0 <= i < |rest| && rest[i].OutOfSync? && rest[i].channel == ch {
      assert (first + rest)[|first| + i] == rest[i];
    } else if ch in w.client.cursors {
      var p, p1, p' := w.client.cursors[ch], w1.client.cursors[ch], w'.client.cursors[ch];
      LaterLogKeepsBetween(w1, steps, ch, p, p1);
      BetweenSplits(LogOf(w', ch), p, p1, p');
    }
  }

  /** No silent loss. Take any run from the start, and any continuation of it, in which ch
      is subscribed only while it is not and only once nothing about it is on its way. If ch
      holds a cursor where the continuation begins, and the continuation neither unsubscribes
      ch nor decodes an OutOfSync of it, then ch still holds a cursor, and the events of ch
      decoded in between are exactly the published ones after the first cursor and up to the
      second, in order, each with the payload it was published with. */
  lemma NoLossWithoutNotice(before: seq<Step>, after: seq<Step>, ch: Channel)
    requires Valid(ch)
    requires Legal(INITIAL, before) && LoyalRun(INITIAL, before, ch)
    requires Legal(Run(INITIAL, before), after) && LoyalRun(Run(INITIAL, before), after, ch)
    requires StaysJoined(after, ch)
    ensures var w, w' := Run(INITIAL, before), Run(Run(INITIAL, before), after);
            && w.decoded <= w'.decoded
            && var events := w'.decoded[|w.decoded|..];
            (ch in w.client.cursors && !GapAnnounced(events, ch) ==>
              && ch in w'.client.cursors
              && Received(events, ch) == Published(w', ch, w.client.cursors[ch], w'.client.cursors[ch]))
  {
    StartsInOrder(ch);
    RunKeepsInv(INITIAL, before, ch);
    RunCovers(Run(INITIAL, before), after, ch);
    RunKeepsTold(INITIAL, before, ch);
    RunKeepsTold(Run(INITIAL, before), after, ch);
    hide Run, Legal, LoyalRun, Inv, Received, Delivered, AllTellRight, Between;
    var w, w' := Run(INITIAL, before), Run(Run(INITIAL, before), after);
    LaterTellsRight(w, w', ch);
    ReceivedAsSaid(w'.decoded[|w.decoded|..], LogOf(w', ch), TextsOf(w', ch), ch);
  }

  lemma LaterTellsRight(w: World, w': World, ch: Channel)
    requires Told(w', ch) && w.decoded <= w'.decoded
    ensures AllTellRight(w'.decoded[|w.decoded|..], LogOf(w', ch), TextsOf(w', ch), ch)
  {
    hide TellsRight, AllSayRight;
  }

  lemma StartsInOrder(ch: Channel)
    requires Valid(ch)
    ensures Inv(INITIAL, ch) && Told(INITIAL, ch)
  {
  }

  /** And nothing is held back: once nothing is in flight on a connection that streams ch,
      a cursor of ch stands at the newest published seq. */
  lemma NothingHeldBack(steps: seq<Step>, ch: Channel)
    requires Valid(ch) && Legal(INITIAL, steps) && LoyalRun(INITIAL, steps, ch)
    ensures var w := Run(INITIAL, steps);
            w.link.Some? && ch in w.link.value.live && Coming(w) == [] && ch in w.client.cursors ==>
              w.client.cursors[ch] == Head(LogOf(w, ch))
  {
    StartsInOrder(ch);
    RunKeepsInv(INITIAL, steps, ch);
  }
}
