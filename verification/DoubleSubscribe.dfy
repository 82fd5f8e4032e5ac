/** Why NoSilentLoss asks for one subscribe at a time: subscribing a channel again on a
    live connection has the server replay what is already on its way. */
module DoubleSubscribe {
  import opened Wrappers
  import opened Frames
  import opened Subscriptions
  import opened Resume
  import opened CursorFlow

  lemma OneMore(w: World, step: Step, rest: seq<Step>)
    requires Possible(w, step) && Legal(Apply(w, step), rest)
    ensures Legal(w, [step] + rest) && Run(w, [step] + rest) == Run(Apply(w, step), rest)
  {
    assert ([step] + rest)[1..] == rest;
  }

  function Linked(ch: Channel, cursors: map<Channel, nat>, l: Link, log: map<Channel, seq<nat>>,
                  said: map<Channel, map<nat, string>>, decoded: seq<Event>): World {
    World(Client({ch}, cursors), true, false, Some(l), None, log, said, decoded)
  }

  // Connected, with the subscribe on its way.
  function Greeted(ch: Channel): World {
    Linked(ch, map[], Link([], [Subscribe(ch, None)], [], {}, false), map[], map[], [])
  }

  // Served, with the ack on its way.
  function Acked(ch: Channel): World {
    Linked(ch, map[], Link([Subscribe(ch, None)], [], [AckFrame(ch, 0)], {ch}, false), map[], map[], [])
  }

  // The ack decoded, and one event published but not yet read.
  function Live(ch: Channel): World {
    Linked(ch, map[ch := 0], Link([Subscribe(ch, None)], [], [UpdateFrame(ch, 1, "")], {ch}, false),
           map[ch := [1]], map[ch := map[1 := ""]], [Subscribed(ch, 0)])
  }

  // Subscribed again, and served again.
  function Doubled(ch: Channel, down: seq<Wire>, cursor: nat, decoded: seq<Event>): World {
    Linked(ch, map[ch := cursor], Link([Subscribe(ch, None), Subscribe(ch, Some(0))], [], down, {ch}, false),
           map[ch := [1]], map[ch := map[1 := ""]], [Subscribed(ch, 0)] + decoded)
  }

  lemma ReachGreeted(ch: Channel) returns (steps: seq<Step>)
    requires Valid(ch)
    ensures Legal(INITIAL, steps) && Run(INITIAL, steps) == Greeted(ch)
  {
    var s1, s2 := CallSubscribe(ch, true), Connect([ch]);
    var w1 := Apply(INITIAL, s1);
    assert Greeting(w1.client, [ch]) == [Subscribe(ch, None)];
    assert Apply(w1, s2) == Greeted(ch);
    OneMore(w1, s2, []);
    OneMore(INITIAL, s1, [s2]);
    steps := [s1] + [s2];
  }

  lemma ReachAcked(ch: Channel) returns (steps: seq<Step>)
    requires Valid(ch)
    ensures Legal(Greeted(ch), steps) && Run(Greeted(ch), steps) == Acked(ch)
  {
    assert Reply([], map[], ch, None, true) == [AckFrame(ch, 0)];
    var l := Apply(Greeted(ch), Serve(Accept(true))).link.value;
    assert l.served == [Subscribe(ch, None)] && l.up == [] && l.down == [AckFrame(ch, 0)] && l.live == {ch};
    assert Apply(Greeted(ch), Serve(Accept(true))) == Acked(ch);
    OneMore(Greeted(ch), Serve(Accept(true)), []);
    steps := [Serve(Accept(true))];
  }

  lemma ReachLive(ch: Channel) returns (steps: seq<Step>)
    requires Valid(ch)
    ensures Legal(Acked(ch), steps) && Run(Acked(ch), steps) == Live(ch)
  {
    var s1, s2, s3 := ReadFrame, Decode([], (c: Channel) => true), Publish(ch, 1, "");
    assert Classify(AckFrame(ch, 0)) == Ack(ch, 0);
    var w1 := Apply(Acked(ch), s1);
    var w2 := Apply(w1, s2);
    assert w1.link.value.down == [] && w2.client.cursors == map[ch := 0] && w2.decoded == [Subscribed(ch, 0)];
    var w3 := Apply(w2, s3);
    assert LogOf(w2, ch) + [1] == [1];
    assert TextsOf(w2, ch)[1 := ""] == map[1 := ""];
    assert w3.log == map[ch := [1]] && w3.said == map[ch := map[1 := ""]] && w3.link.value.down == [UpdateFrame(ch, 1, "")];
    assert w3 == Live(ch);
    OneMore(w2, s3, []);
    OneMore(w1, s2, [s3]);
    OneMore(Acked(ch), s1, [s2] + [s3]);
    steps := [s1] + ([s2] + [s3]);
  }

  lemma ReachDoubled(ch: Channel) returns (steps: seq<Step>)
    requires Valid(ch)
    ensures var f := UpdateFrame(ch, 1, "");
            Legal(Live(ch), steps) && Run(Live(ch), steps) == Doubled(ch, [f, f, AckFrame(ch, 1)], 0, [])
  {
    var s1, s2, f := CallSubscribe(ch, true), Serve(Accept(true)), UpdateFrame(ch, 1, "");
    var w1 := Apply(Live(ch), s1);
    assert [1][..0] == [];
    assert Between([1], 0, 1) == [1] && Updates(ch, [1], map[1 := ""]) == [f];
    assert Reply([1], map[1 := ""], ch, Some(0), true) == [f, AckFrame(ch, 1)];
    assert w1.client.subs == {ch} && w1.link.value.up == [Subscribe(ch, Some(0))];
    var l := Apply(w1, s2).link.value;
    assert l.served == [Subscribe(ch, None), Subscribe(ch, Some(0))] && l.up == [] && l.live == {ch};
    assert l.down == [f, f, AckFrame(ch, 1)];
    assert Apply(w1, s2) == Doubled(ch, [f, f, AckFrame(ch, 1)], 0, []);
    OneMore(w1, s2, []);
    OneMore(Live(ch), s1, [s2]);
    steps := [s1] + [s2];
  }

  lemma ReadOne(ch: Channel, rest: seq<Wire>, cursor: nat, decoded: seq<Event>) returns (steps: seq<Step>)
    requires Valid(ch) && cursor <= 1
    ensures var w := Doubled(ch, [UpdateFrame(ch, 1, "")] + rest, cursor, decoded);
            Legal(w, steps) && Run(w, steps) == Doubled(ch, rest, 1, decoded + [ChannelEvent(ch, 1, "")])
  {
    var s1, s2 := ReadFrame, Decode([], (c: Channel) => true);
    var w := Doubled(ch, [UpdateFrame(ch, 1, "")] + rest, cursor, decoded);
    assert Classify(UpdateFrame(ch, 1, "")) == Update(ch, 1, "");
    var w1 := Apply(w, s1);
    assert w1.link.value.down == rest;
    assert Apply(w1, s2) == Doubled(ch, rest, 1, decoded + [ChannelEvent(ch, 1, "")]);
    OneMore(w1, s2, []);
    OneMore(w, s1, [s2]);
    steps := [s1] + [s2];
  }

  lemma {:induction false} RunOn(w: World, before: seq<Step>, after: seq<Step>)
    requires Legal(w, before) && Legal(Run(w, before), after)
    ensures Legal(w, before + after) && Run(w, before + after) == Run(Run(w, before), after)
    decreases |before|
  {
    if before == [] {
      assert before + after == after;
    } else {
      RunOn(Apply(w, before[0]), before[1..], after);
      assert before + after == [before[0]] + (before[1..] + after);
      OneMore(w, before[0], before[1..] + after);
    }
  }

  function TwiceHanded(ch: Channel): seq<Event> {
    [Subscribed(ch, 0), ChannelEvent(ch, 1, ""), ChannelEvent(ch, 1, "")]
  }

  lemma DeliveredTwice(ch: Channel)
    ensures Delivered(TwiceHanded(ch), ch) == [1, 1] && !GapAnnounced(TwiceHanded(ch), ch)
  {
    var events := TwiceHanded(ch);
    assert events[..2] == [events[0]] + [events[1]] && events == events[..2] + [events[2]];
    DeliveredOne(events[0], ch);
    DeliveredOne(events[1], ch);
    DeliveredOne(events[2], ch);
    DeliveredAppend([events[0]], [events[1]], ch);
    DeliveredAppend(events[..2], [events[2]], ch);
  }

  /** A channel subscribed twice can be handed the same event twice, with no notice. */
  lemma SubscribingTwiceRepeatsEvents(ch: Channel)
    requires Valid(ch)
    ensures exists steps :: Legal(INITIAL, steps)
                            && !GapAnnounced(Run(INITIAL, steps).decoded, ch)
                            && Delivered(Run(INITIAL, steps).decoded, ch) == [1, 1]
  {
    hide Legal, Run, Possible, Delivered, GapAnnounced;
    var a := ReachGreeted(ch);
    var b := ReachAcked(ch);
    var c := ReachLive(ch);
    var d := ReachDoubled(ch);
    var f := UpdateFrame(ch, 1, "");
    var e := ReadOne(ch, [f, AckFrame(ch, 1)], 0, []);
    var g := ReadOne(ch, [AckFrame(ch, 1)], 1, [] + [ChannelEvent(ch, 1, "")]);
    assert [f] + [f, AckFrame(ch, 1)] == [f, f, AckFrame(ch, 1)] && [f] + [AckFrame(ch, 1)] == [f, AckFrame(ch, 1)];
    RunOn(INITIAL, a, b);
    RunOn(INITIAL, a + b, c);
    RunOn(INITIAL, a + b + c, d);
    RunOn(INITIAL, a + b + c + d, e);
    RunOn(INITIAL, a + b + c + d + e, g);
    DeliveredTwice(ch);
    assert Run(INITIAL, a + b + c + d + e + g).decoded == TwiceHanded(ch);
  }
}
