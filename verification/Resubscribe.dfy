/** Why NoSilentLoss asks that nothing about a channel be on its way when it is joined again: an
    event that still is gives the new subscription a cursor, and the ack then moves it past
    what was published in between. */
module Resubscribe {
  import opened Wrappers
  import opened Frames
  import opened Subscriptions
  import opened Resume
  import opened CursorFlow
  import opened DoubleSubscribe

  function Served(ch: Channel): seq<ClientFrame> { [Subscribe(ch, None), Unsubscribe(ch), Subscribe(ch, None)] }

  // Left and joined again, with both frames on their way.
  function Rejoining(ch: Channel): World {
    Linked(ch, map[], Link([Subscribe(ch, None)], [Unsubscribe(ch), Subscribe(ch, None)], [UpdateFrame(ch, 1, "")], {ch}, false),
           map[ch := [1]], map[ch := map[1 := ""]], [Subscribed(ch, 0)])
  }

  // Both served, and one event published between the two.
  function Rejoined(ch: Channel, cursors: map<Channel, nat>, down: seq<Wire>, decoded: seq<Event>): World {
    Linked(ch, cursors, Link(Served(ch), [], down, {ch}, false), map[ch := [1, 2]],
           map[ch := map[1 := "", 2 := ""]], [Subscribed(ch, 0)] + decoded)
  }

  lemma ReachRejoining(ch: Channel) returns (steps: seq<Step>)
    requires Valid(ch)
    ensures Legal(Live(ch), steps) && Run(Live(ch), steps) == Rejoining(ch)
  {
    var s1, s2 := CallUnsubscribe(ch, true), CallSubscribe(ch, true);
    var w1 := Apply(Live(ch), s1);
    assert w1.client == Client({}, map[]) && w1.link.value.up == [Unsubscribe(ch)];
    var w2 := Apply(w1, s2);
    assert w2.client == Client({ch}, map[]) && w2.link.value.up == [Unsubscribe(ch), Subscribe(ch, None)];
    assert w2 == Rejoining(ch);
    OneMore(w1, s2, []);
    OneMore(Live(ch), s1, [s2]);
    steps := [s1] + [s2];
  }

  // The unsubscribe served, with these seqs published.
  function LeftWith(ch: Channel, log: seq<nat>, said: map<nat, string>): World {
    Linked(ch, map[],
           Link([Subscribe(ch, None), Unsubscribe(ch)], [Subscribe(ch, None)], [UpdateFrame(ch, 1, ""), LeftFrame(ch)], {}, false),
           map[ch := log], map[ch := said], [Subscribed(ch, 0)])
  }

  lemma ReachLeft(ch: Channel) returns (steps: seq<Step>)
    requires Valid(ch)
    ensures Legal(Rejoining(ch), steps) && Run(Rejoining(ch), steps) == LeftWith(ch, [1], map[1 := ""])
  {
    var s1, u := Serve(Accept(true)), UpdateFrame(ch, 1, "");
    var w1 := Apply(Rejoining(ch), s1);
    assert w1.link.value == Link([Subscribe(ch, None), Unsubscribe(ch)], [Subscribe(ch, None)], [u, LeftFrame(ch)], {}, false);
    assert w1 == LeftWith(ch, [1], map[1 := ""]);
    OneMore(Rejoining(ch), s1, []);
    steps := [s1];
  }

  lemma ReachMissed(ch: Channel) returns (steps: seq<Step>)
    requires Valid(ch)
    ensures Legal(LeftWith(ch, [1], map[1 := ""]), steps)
    ensures Run(LeftWith(ch, [1], map[1 := ""]), steps) == LeftWith(ch, [1, 2], map[1 := "", 2 := ""])
  {
    var w, s1 := LeftWith(ch, [1], map[1 := ""]), Publish(ch, 2, "");
    assert LogOf(w, ch) + [2] == [1, 2] && TextsOf(w, ch)[2 := ""] == map[1 := "", 2 := ""];
    var w1 := Apply(w, s1);
    assert w1.log == map[ch := [1, 2]] && w1.said == map[ch := map[1 := "", 2 := ""]] && w1.link == w.link;
    assert w1 == LeftWith(ch, [1, 2], map[1 := "", 2 := ""]);
    OneMore(w, s1, []);
    steps := [s1];
  }

  lemma ReachServed(ch: Channel) returns (steps: seq<Step>)
    requires Valid(ch)
    ensures Legal(LeftWith(ch, [1, 2], map[1 := "", 2 := ""]), steps)
    ensures Run(LeftWith(ch, [1, 2], map[1 := "", 2 := ""]), steps)
         == Rejoined(ch, map[], [UpdateFrame(ch, 1, ""), LeftFrame(ch), AckFrame(ch, 2)], [])
  {
    var w, s1, u := LeftWith(ch, [1, 2], map[1 := "", 2 := ""]), Serve(Accept(true)), UpdateFrame(ch, 1, "");
    assert Reply([1, 2], map[1 := "", 2 := ""], ch, None, true) == [AckFrame(ch, 2)];
    var w1 := Apply(w, s1);
    assert w1.link.value == Link(Served(ch), [], [u, LeftFrame(ch), AckFrame(ch, 2)], {ch}, false);
    assert [Subscribed(ch, 0)] + [] == [Subscribed(ch, 0)];
    OneMore(w, s1, []);
    steps := [s1];
  }

  lemma ReachRejoined(ch: Channel) returns (steps: seq<Step>)
    requires Valid(ch)
    ensures Legal(Rejoining(ch), steps)
    ensures Run(Rejoining(ch), steps) == Rejoined(ch, map[], [UpdateFrame(ch, 1, ""), LeftFrame(ch), AckFrame(ch, 2)], [])
  {
    hide *;
    var a := ReachLeft(ch);
    var b := ReachMissed(ch);
    var c := ReachServed(ch);
    RunOn(Rejoining(ch), a, b);
    RunOn(Rejoining(ch), a + b, c);
    steps := a + b + c;
  }

  // Reading and decoding one frame that is no out_of_sync.
  lemma ReadNext(ch: Channel, cursors: map<Channel, nat>, f: Wire, rest: seq<Wire>, decoded: seq<Event>)
    returns (steps: seq<Step>)
    requires Valid(ch) && !Classify(f).Lost?
    ensures var w := Rejoined(ch, cursors, [f] + rest, decoded);
            && Legal(w, steps)
            && Run(w, steps) == Rejoined(ch, Digest(Client({ch}, cursors), Classify(f)).cursors, rest, decoded + Produced(f, []))
  {
    hide Produced;
    var s1, s2 := ReadFrame, Decode([], (c: Channel) => true);
    var w := Rejoined(ch, cursors, [f] + rest, decoded);
    var w1 := Apply(w, s1);
    assert w1.link.value.down == rest;
    assert Digest(w1.client, Classify(f)).subs == {ch};
    assert ([Subscribed(ch, 0)] + decoded) + Produced(f, []) == [Subscribed(ch, 0)] + (decoded + Produced(f, []));
    OneMore(w1, s2, []);
    OneMore(w, s1, [s2]);
    steps := [s1] + [s2];
  }

  lemma ReachLiveAgain(ch: Channel) returns (steps: seq<Step>)
    requires Valid(ch)
    ensures Legal(INITIAL, steps)
    ensures Run(INITIAL, steps) == Rejoined(ch, map[], [UpdateFrame(ch, 1, ""), LeftFrame(ch), AckFrame(ch, 2)], [])
  {
    hide *;
    var a := ReachGreeted(ch);
    var b := ReachAcked(ch);
    var c := ReachLive(ch);
    var d := ReachRejoining(ch);
    var e := ReachRejoined(ch);
    RunOn(INITIAL, a, b);
    RunOn(INITIAL, a + b, c);
    RunOn(INITIAL, a + b + c, d);
    RunOn(INITIAL, a + b + c + d, e);
    steps := a + b + c + d + e;
  }

  lemma ReachBefore(ch: Channel) returns (steps: seq<Step>)
    requires Valid(ch)
    ensures Legal(INITIAL, steps)
    ensures Run(INITIAL, steps)
         == Rejoined(ch, map[ch := 1], [LeftFrame(ch), AckFrame(ch, 2)], [ChannelEvent(ch, 1, "")])
  {
    var u, rest := UpdateFrame(ch, 1, ""), [LeftFrame(ch), AckFrame(ch, 2)];
    ServedFramesReadBack(ch, 1, "");
    assert [u] + rest == [u, LeftFrame(ch), AckFrame(ch, 2)];
    assert [] + Produced(u, []) == [ChannelEvent(ch, 1, "")];
    assert Digest(Client({ch}, map[]), Classify(u)).cursors == map[ch := 1];
    hide *;
    var a := ReachLiveAgain(ch);
    var b := ReadNext(ch, map[], u, rest, []);
    RunOn(INITIAL, a, b);
    steps := a + b;
  }

  lemma ReachAfter(ch: Channel) returns (steps: seq<Step>)
    requires Valid(ch)
    ensures var w := Rejoined(ch, map[ch := 1], [LeftFrame(ch), AckFrame(ch, 2)], [ChannelEvent(ch, 1, "")]);
            && Legal(w, steps)
            && Run(w, steps)
               == Rejoined(ch, map[ch := 2], [], [ChannelEvent(ch, 1, ""), Unsubscribed(ch), Subscribed(ch, 2)])
  {
    ServedFramesReadBack(ch, 2, "");
    hide Legal, Run, Possible, Apply, Classify;
    var e := ChannelEvent(ch, 1, "");
    var w := Rejoined(ch, map[ch := 1], [LeftFrame(ch), AckFrame(ch, 2)], [e]);
    assert [LeftFrame(ch)] + [AckFrame(ch, 2)] == [LeftFrame(ch), AckFrame(ch, 2)];
    var a := ReadNext(ch, map[ch := 1], LeftFrame(ch), [AckFrame(ch, 2)], [e]);
    assert [AckFrame(ch, 2)] + [] == [AckFrame(ch, 2)];
    var b := ReadNext(ch, map[ch := 1], AckFrame(ch, 2), [], [e] + [Unsubscribed(ch)]);
    assert map[ch := 1][ch := 2] == map[ch := 2];
    assert ([e] + [Unsubscribed(ch)]) + [Subscribed(ch, 2)] == [e, Unsubscribed(ch), Subscribed(ch, 2)];
    RunOn(w, a, b);
    steps := a + b;
  }

  /** A channel left and joined again can lose an event: it holds a cursor throughout `after`, no
      gap is announced, one event is published between the two cursors, and none is handed out. */
  lemma ResubscribingLosesAnEvent(ch: Channel)
    requires Valid(ch)
    ensures exists before, after ::
              && Legal(INITIAL, before) && Legal(Run(INITIAL, before), after)
              && var w, w' := Run(INITIAL, before), Run(Run(INITIAL, before), after);
                 && ch in w.client.cursors && ch in w'.client.cursors && w.decoded <= w'.decoded
                 && var events := w'.decoded[|w.decoded|..];
                    && !GapAnnounced(events, ch) && Delivered(events, ch) == []
                    && Between(LogOf(w', ch), w.client.cursors[ch], w'.client.cursors[ch]) == [2]
  {
    hide Legal, Possible, Apply, Run, Delivered, Between, GapAnnounced;
    var before := ReachBefore(ch);
    var after := ReachAfter(ch);
    var w, w' := Run(INITIAL, before), Run(Run(INITIAL, before), after);
    var events := [Unsubscribed(ch), Subscribed(ch, 2)];
    assert w'.decoded == w.decoded + events;
    assert w'.decoded[|w.decoded|..] == events;
    OnlySecond();
    NothingDelivered(ch);
  }

  lemma OnlySecond()
    ensures Between([1, 2], 1, 2) == [2]
  {
    assert [1, 2][..1] == [1] && [1][..0] == [];
  }

  lemma NothingDelivered(ch: Channel)
    ensures Delivered([Unsubscribed(ch), Subscribed(ch, 2)], ch) == []
    ensures !GapAnnounced([Unsubscribed(ch), Subscribed(ch, 2)], ch)
  {
    var events := [Unsubscribed(ch), Subscribed(ch, 2)];
    assert events == [Unsubscribed(ch)] + [Subscribed(ch, 2)];
    DeliveredAppend([Unsubscribed(ch)], [Subscribed(ch, 2)], ch);
    DeliveredOne(Unsubscribed(ch), ch);
    DeliveredOne(Subscribed(ch, 2), ch);
  }
}
