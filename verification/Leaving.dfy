/** When a channel may be subscribed (again): what a caller of Unsubscribe can see that means
    nothing about the channel is on its way any more, as NoSilentLoss asks. */
module Leaving {
  import opened Wrappers
  import opened Frames
  import opened Subscriptions
  import opened Resume
  import opened Agreement
  import opened CursorFlow
  import opened Traffic
  import opened NoSilentLoss

  // --- never joined --------------------------------------------------------------------

  ghost predicate OnceRun(w: World, steps: seq<Step>, ch: Channel)
    requires Legal(w, steps)
    decreases |steps|
  {
    steps == []
    || (&& !(steps[0].CallUnsubscribe? && steps[0].channel == ch)
        && (steps[0].CallSubscribe? && steps[0].channel == ch ==> ch !in w.client.subs)
        && OnceRun(Apply(w, steps[0]), steps[1..], ch))
  }

  lemma {:induction false} OnceIsLoyal(w: World, steps: seq<Step>, ch: Channel)
    requires Legal(w, steps) && OnceRun(w, steps, ch) && Held(w)
    requires ch !in w.client.subs ==> Absent(w, ch)
    ensures LoyalRun(w, steps, ch)
    decreases |steps|
  {
    if steps != [] {
      var step := steps[0];
      SubsAfter(w, step);
      if ch !in w.client.subs && !Calls(step, ch) {
        StepKeepsAbsent(w, step, ch);
      }
      hide Absent, Apply, Enabled, RangesOver, Held;
      OnceIsLoyal(Apply(w, step), steps[1..], ch);
    }
  }

  /** A channel subscribed once and never unsubscribed is subscribed when nothing about it is on
      its way: the loss theorem holds of it on every run. */
  lemma SubscribedOnceIsLoyal(steps: seq<Step>, ch: Channel)
    requires Legal(INITIAL, steps) && OnceRun(INITIAL, steps, ch)
    ensures LoyalRun(INITIAL, steps, ch)
  {
    OnceIsLoyal(INITIAL, steps, ch);
  }

  // --- left and answered ---------------------------------------------------------------

  // Whatever of ch is among the frames comes before an answer to an Unsubscribe of it.
  predicate DoneByLeft(frames: seq<Wire>, ch: Channel) {
    if frames == [] then true
    else
      var n := |frames| - 1;
      Classify(frames[n]) == Left(ch) || (!Touches(Classify(frames[n]), ch) && DoneByLeft(frames[..n], ch))
  }

  lemma {:induction false} DoneTail(frames: seq<Wire>, ch: Channel)
    requires frames != [] && DoneByLeft(frames, ch)
    ensures DoneByLeft(frames[1..], ch)
  {
    hide Classify, Touches;
    var n := |frames| - 1;
    if n > 0 && Classify(frames[n]) != Left(ch) {
      DoneTail(frames[..n], ch);
      assert frames[1..][..n - 1] == frames[..n][1..];
    }
  }

  lemma {:induction false} DoneAppend(frames: seq<Wire>, more: seq<Wire>, ch: Channel)
    requires DoneByLeft(frames, ch) && Silent(more, ch)
    ensures DoneByLeft(frames + more, ch)
  {
    hide Classify, Touches;
    if more == [] {
      assert frames + more == frames;
    } else {
      var n := |more| - 1;
      DoneAppend(frames, more[..n], ch);
      assert (frames + more)[..|frames| + n] == frames + more[..n];
      assert more[n] in more;
    }
  }

  lemma DoneAtLeft(frames: seq<Wire>, ch: Channel)
    requires KnownName(ch.name)
    ensures DoneByLeft(frames + [LeftFrame(ch)], ch)
  {
    ServedFramesReadBack(ch, 0, "");
    hide Classify;
  }

  lemma {:induction false} DoneIsSilent(frames: seq<Wire>, ch: Channel)
    requires DoneByLeft(frames, ch) && forall f :: f in frames ==> Classify(f) != Left(ch)
    ensures Silent(frames, ch)
  {
    hide Classify, Touches;
    if frames != [] {
      var n := |frames| - 1;
      DoneIsSilent(frames[..n], ch);
      assert frames == frames[..n] + [frames[n]];
    }
  }

  // If the server has not been asked for ch, or has been told to stop, then an answer says so.
  ghost predicate Tidy(w: World, ch: Channel) {
    && Held(w)
    && (w.link.Some? && ch !in Asked(w.link.value.served) ==> DoneByLeft(Coming(w), ch))
  }

  lemma ServeKeepsTidy(w: World, answer: Answer, ch: Channel)
    requires Tidy(w, ch) && Agree(w) && Enabled(w, Serve(answer)) && KnownName(ch.name)
    ensures Tidy(Apply(w, Serve(answer)), ch)
  {
    var l, w' := w.link.value, Apply(w, Serve(answer));
    ServeMoves(w, answer, ch);
    ServedIs(w, l, answer);
    assert w'.link.value.served == l.served + [l.up[0]] && Held(w');
    AskedAppend(l.served, l.up[0]);
    if ch !in Asked(w'.link.value.served) {
      if l.up[0] == Unsubscribe(ch) {
        assert Answered(w, l.up[0], answer) == [LeftFrame(ch)];
        hide *;
        DoneAtLeft(Coming(w), ch);
      } else {
        assert l.up[0].channel != ch;
        hide *;
        AnswersAreSilent(w, l.up[0], answer, ch);
        DoneAppend(Coming(w), Answered(w, l.up[0], answer), ch);
      }
    }
  }

  lemma StepKeepsTidy(w: World, step: Step, ch: Channel)
    requires Tidy(w, ch) && Agree(w) && Possible(w, step) && KnownName(ch.name)
    ensures Tidy(Apply(w, step), ch)
  {
    SubsAfter(w, step);
    hide Asked, DoneByLeft, Greeting, Digest, Produced, Resends, Served, Classify;
    match step
    case Serve(answer) => ServeKeepsTidy(w, answer, ch);
    case ReadFrame => ReadKeepsComing(w);
    case Decode(_, _) =>
      if w.link.Some? {
        ComingHead(w, step);
        assert Coming(w)[1..] == Coming(Apply(w, step));
        if ch !in Asked(w.link.value.served) {
          DoneTail(Coming(w), ch);
        }
      }
    case Publish(c, n, payload) =>
      if w.link.Some? && ch !in Asked(w.link.value.served) {
        PublishMoves(w, step, ch);
        UpdateIsSilent(c, n, payload, ch);
        if c in w.link.value.live {
          DoneAppend(Coming(w), [UpdateFrame(c, n, payload)], ch);
        }
      }
    case FallBehind(_, _) => NoticeKeepsTidy(w, step, ch);
    case Chatter(_) => NoticeKeepsTidy(w, step, ch);
    case Connect(_) => NothingIsDone(ch);
    case CallSubscribe(_, _) => CallKeepsComing(w, step);
    case CallUnsubscribe(_, _) => CallKeepsComing(w, step);
    case CallClose => CallKeepsComing(w, step);
    case LoseConnection =>
  }

  lemma CallKeepsComing(w: World, step: Step)
    requires Enabled(w, step) && (step.CallSubscribe? || step.CallUnsubscribe? || step.CallClose?)
    ensures var w' := Apply(w, step);
            && Coming(w') == Coming(w) && (w'.link.Some? <==> w.link.Some?)
            && (w.link.Some? ==> w'.link.value.served == w.link.value.served)
  {
  }

  lemma NothingIsDone(ch: Channel)
    ensures DoneByLeft([], ch)
  {
  }

  lemma UpdateIsSilent(c: Channel, n: nat, payload: string, ch: Channel)
    ensures c != ch ==> Silent([UpdateFrame(c, n, payload)], ch)
  {
  }

  lemma NoticeKeepsTidy(w: World, step: Step, ch: Channel)
    requires Tidy(w, ch) && Enabled(w, step) && (step.FallBehind? || step.Chatter?)
    ensures Tidy(Apply(w, step), ch)
  {
    var f := if step.Chatter? then step.frame else LostFrame(step.notice, step.oldest);
    NoticeMoves(w, step, ch);
    assert Silent([f], ch);
    assert Apply(w, step).link.value.served == w.link.value.served;
    hide Asked, DoneByLeft, Silent, Classify;
    if ch !in Asked(w.link.value.served) {
      DoneAppend(Coming(w), [f], ch);
    }
  }

  lemma {:induction false} RunKeepsTidy(w: World, steps: seq<Step>, ch: Channel)
    requires Tidy(w, ch) && Agree(w) && Legal(w, steps) && KnownName(ch.name)
    ensures Tidy(Run(w, steps), ch) && Agree(Run(w, steps))
    decreases |steps|
  {
    hide Tidy, Agree, Apply, Enabled, RangesOver;
    if steps != [] {
      StepKeepsTidy(w, steps[0], ch);
      StepKeepsAgreement(w, steps[0]);
      RunKeepsTidy(Apply(w, steps[0]), steps[1..], ch);
    }
  }

  lemma {:induction false} NeverAskedMore(served: seq<ClientFrame>, up: seq<ClientFrame>, ch: Channel)
    requires Unsubscribe(ch) !in up && ch !in Asked(served + up)
    ensures ch !in Asked(served) && forall f :: f in up ==> f.channel != ch
  {
    hide Asked;
    if up == [] {
      assert served + up == served;
    } else {
      var n := |up| - 1;
      AskedAppend(served + up[..n], up[n]);
      assert served + up == (served + up[..n]) + [up[n]];
      assert up == up[..n] + [up[n]];
      NeverAskedMore(served, up[..n], ch);
    }
  }

  /** Once every Unsubscribe of ch on this connection has been answered and its Unsubscribed
      decoded, nothing about ch is on its way, so subscribing it again is loyal. The same holds
      when the connection was lost. */
  lemma UnsubscribedMeansAbsent(steps: seq<Step>, ch: Channel)
    requires Legal(INITIAL, steps) && KnownName(ch.name)
    ensures var w := Run(INITIAL, steps);
            && (w.link.None? ==> Absent(w, ch))
            && (w.link.Some? && w.connected && !w.link.value.faulty && ch !in w.client.subs
                && Unsubscribe(ch) !in w.link.value.up && (forall f :: f in Coming(w) ==> Classify(f) != Left(ch))
                ==> Absent(w, ch))
  {
    RunKeepsTidy(INITIAL, steps, ch);
    hide Run, Legal, Classify, Silent, Asked, DoneByLeft, Coming;
    var w := Run(INITIAL, steps);
    if w.link.Some? && w.connected && !w.link.value.faulty && ch !in w.client.subs
       && Unsubscribe(ch) !in w.link.value.up && forall f :: f in Coming(w) ==> Classify(f) != Left(ch) {
      NeverAskedMore(w.link.value.served, w.link.value.up, ch);
      DoneIsSilent(Coming(w), ch);
    }
  }
}
