/** Client and server agree on every connection about what is subscribed. */
module Agreement {
  import opened Wrappers
  import opened Frames
  import opened Subscriptions
  import opened Resume

  // What the subscribe and unsubscribe frames of one connection add up to.
  function Asked(frames: seq<ClientFrame>): set<Channel> {
    if frames == [] then {}
    else
      var before, f := Asked(frames[..|frames| - 1]), frames[|frames| - 1];
      if f.Subscribe? then before + {f.channel} else before - {f.channel}
  }

  ghost predicate Agree(w: World) {
    && (w.connected ==> w.link.Some? && !w.closed)
    && (w.link.Some? ==>
          && w.link.value.live <= Asked(w.link.value.served)
          && (w.connected && !w.link.value.faulty ==>
                Asked(w.link.value.served + w.link.value.up) == w.client.subs))
  }

  lemma AskedAppend(frames: seq<ClientFrame>, f: ClientFrame)
    ensures Asked(frames + [f]) ==
            if f.Subscribe? then Asked(frames) + {f.channel} else Asked(frames) - {f.channel}
  {
    assert (frames + [f])[..|frames|] == frames;
  }

  lemma {:induction false} AskedGreeting(c: Client, order: seq<Channel>)
    ensures Asked(Greeting(c, order)) == set ch | ch in order
  {
    if order != [] {
      var n := |order| - 1;
      AskedGreeting(c, order[..n]);
      assert Greeting(c, order) == Greeting(c, order[..n]) + [SubscribeFrame(c, order[n])];
      AskedAppend(Greeting(c, order[..n]), SubscribeFrame(c, order[n]));
      assert order == order[..n] + [order[n]];
    }
  }

  lemma {:induction false} ResendsAskNothingNew(frames: seq<ClientFrame>, order: seq<Channel>, writes: Channel -> bool)
    requires forall ch :: ch in order ==> ch in Asked(frames)
    ensures Asked(frames + Resends(order, writes)) == Asked(frames)
  {
    if order == [] {
      assert frames + Resends(order, writes) == frames;
    } else {
      var n := |order| - 1;
      ResendsAskNothingNew(frames, order[..n], writes);
      if writes(order[n]) {
        AskedAppend(frames + Resends(order[..n], writes), Subscribe(order[n], None));
        assert frames + Resends(order, writes)
            == (frames + Resends(order[..n], writes)) + [Subscribe(order[n], None)];
      } else {
        assert frames + Resends(order, writes) == frames + Resends(order[..n], writes);
      }
    }
  }

  lemma SendAgrees(l: Link, f: ClientFrame)
    ensures Asked(l.served + (l.up + [f])) ==
            if f.Subscribe? then Asked(l.served + l.up) + {f.channel} else Asked(l.served + l.up) - {f.channel}
  {
    assert l.served + (l.up + [f]) == (l.served + l.up) + [f];
    AskedAppend(l.served + l.up, f);
  }

  lemma CallKeepsAgreement(w: World, step: Step)
    requires Agree(w) && Possible(w, step) && (step.CallSubscribe? || step.CallUnsubscribe?)
    ensures Agree(Apply(w, step))
  {
    var c := Apply(w, step).client;
    var f := if step.CallSubscribe? then SubscribeFrame(c, step.channel) else Unsubscribe(step.channel);
    if w.link.Some? {
      SendAgrees(w.link.value, f);
    }
    hide Asked, SinceOf;
  }

  lemma ConnectKeepsAgreement(w: World, step: Step)
    requires Possible(w, step) && step.Connect?
    ensures Agree(Apply(w, step))
  {
    hide Greeting;
    AskedGreeting(w.client, step.order);
    assert [] + Greeting(w.client, step.order) == Greeting(w.client, step.order);
    assert (set ch | ch in step.order) == w.client.subs;
    assert Asked([]) == {};
    hide Asked;
  }

  lemma DecodeKeepsAgreement(w: World, step: Step)
    requires Agree(w) && Possible(w, step) && step.Decode?
    ensures Agree(Apply(w, step))
  {
    hide Asked, Produced, Resends, Names, Classify;
    assert Apply(w, step).client.subs == w.client.subs;
    if w.link.Some? && w.connected && Classify(w.hand.value).Lost? && !w.link.value.faulty {
      var l := w.link.value;
      ResendsAskNothingNew(l.served + l.up, step.order, step.writes);
      assert l.served + (l.up + Resends(step.order, step.writes)) == (l.served + l.up) + Resends(step.order, step.writes);
    }
  }

  lemma ServeKeepsAgreement(w: World, step: Step)
    requires Agree(w) && Possible(w, step) && step.Serve?
    ensures Agree(Apply(w, step))
  {
    hide Asked, Reply;
    var l := w.link.value;
    AskedAppend(l.served, l.up[0]);
    assert (l.served + [l.up[0]]) + l.up[1..] == l.served + l.up;
  }

  lemma StepKeepsAgreement(w: World, step: Step)
    requires Agree(w) && Possible(w, step)
    ensures Agree(Apply(w, step))
  {
    match step
    case CallSubscribe(_, _) => CallKeepsAgreement(w, step);
    case CallUnsubscribe(_, _) => CallKeepsAgreement(w, step);
    case Connect(_) => ConnectKeepsAgreement(w, step);
    case Decode(_, _) => DecodeKeepsAgreement(w, step);
    case Serve(_) => ServeKeepsAgreement(w, step);
    case _ => hide Asked, Greeting, Resends, Produced, Digest, Served, RangesOver, Classify;
  }

  /** In every run: while the socket has a connection on which no write has failed,
      the frames written on it add up to exactly the client's subscriptions, and the
      server never streams a channel that was not asked for. */
  lemma {:induction false} ClientAndServerAgree(w: World, steps: seq<Step>)
    requires Agree(w) && Legal(w, steps)
    ensures Agree(Run(w, steps))
    decreases |steps|
  {
    if steps != [] {
      StepKeepsAgreement(w, steps[0]);
      ClientAndServerAgree(Apply(w, steps[0]), steps[1..]);
    }
  }

  /** Once the server has read everything, what it was asked for is what is subscribed. */
  lemma CaughtUpServerKnowsSubs(steps: seq<Step>)
    requires Legal(INITIAL, steps)
    ensures var w := Run(INITIAL, steps);
            w.connected ==>
              && w.link.Some?
              && (!w.link.value.faulty && w.link.value.up == [] ==>
                    Asked(w.link.value.served) == w.client.subs && w.link.value.live <= w.client.subs)
  {
    ClientAndServerAgree(INITIAL, steps);
    var w := Run(INITIAL, steps);
    if w.connected && w.link.value.up == [] {
      assert w.link.value.served + w.link.value.up == w.link.value.served;
    }
  }
}
