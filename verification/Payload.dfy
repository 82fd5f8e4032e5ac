/** What the events of a channel say: over every run, each frame on its way and each event
    decoded carries the payload that was published under its seq. */
module Payloads {
  import opened Wrappers
  import opened Frames
  import opened Subscriptions
  import opened Resume
  import opened PublishedLog
  import opened CursorFlow
  import opened Traffic

  datatype Item = Item(seqNo: nat, payload: string)

  // The events of ch, with their payloads, in the order they stand.
  function Received(events: seq<Event>, ch: Channel): seq<Item> {
    if events == [] then []
    else
      var n := |events| - 1;
      Received(events[..n], ch)
      + if events[n].ChannelEvent? && events[n].channel == ch then [Item(events[n].seqNo, events[n].payload)] else []
  }

  function Items(seqNos: seq<nat>, said: map<nat, string>): seq<Item> {
    seq(|seqNos|, i requires 0 <= i < |seqNos| => Item(seqNos[i], Text(said, seqNos[i])))
  }

  // What was published of ch above lo and up to hi, in order.
  function Published(w: World, ch: Channel, lo: nat, hi: nat): seq<Item> {
    Items(Between(LogOf(w, ch), lo, hi), TextsOf(w, ch))
  }

  predicate Repeats(n: nat, payload: string, log: seq<nat>, said: map<nat, string>) {
    n <= Head(log) && payload == Text(said, n)
  }

  predicate SaysRight(f: Inbound, log: seq<nat>, said: map<nat, string>, ch: Channel) {
    f.Update? && f.channel == ch ==> Repeats(f.seqNo, f.payload, log, said)
  }

  predicate TellsRight(e: Event, log: seq<nat>, said: map<nat, string>, ch: Channel) {
    e.ChannelEvent? && e.channel == ch ==> Repeats(e.seqNo, e.payload, log, said)
  }

  predicate AllSayRight(frames: seq<Wire>, log: seq<nat>, said: map<nat, string>, ch: Channel) {
    forall f :: f in frames ==> SaysRight(Classify(f), log, said, ch)
  }

  predicate AllTellRight(events: seq<Event>, log: seq<nat>, said: map<nat, string>, ch: Channel) {
    forall e :: e in events ==> TellsRight(e, log, said, ch)
  }

  ghost predicate Told(w: World, ch: Channel) {
    && Held(w) && Increasing(LogOf(w, ch))
    && AllSayRight(Coming(w), LogOf(w, ch), TextsOf(w, ch), ch)
    && AllTellRight(w.decoded, LogOf(w, ch), TextsOf(w, ch), ch)
  }

  lemma SayAppend(a: seq<Wire>, b: seq<Wire>, log: seq<nat>, said: map<nat, string>, ch: Channel)
    ensures AllSayRight(a + b, log, said, ch) <==> AllSayRight(a, log, said, ch) && AllSayRight(b, log, said, ch)
  {
    hide Classify, SaysRight;
    forall f | f in a + b ensures f in a || f in b {}
    forall f | f in a || f in b ensures f in a + b {}
  }

  lemma TellAppend(a: seq<Event>, b: seq<Event>, log: seq<nat>, said: map<nat, string>, ch: Channel)
    requires AllTellRight(a, log, said, ch) && AllTellRight(b, log, said, ch)
    ensures AllTellRight(a + b, log, said, ch)
  {
    hide TellsRight;
  }

  // An event decoded repeats its frame.
  lemma ProducedTellsRight(frame: Wire, order: seq<Channel>, log: seq<nat>, said: map<nat, string>, ch: Channel)
    requires SaysRight(Classify(frame), log, said, ch)
    ensures AllTellRight(Produced(frame, order), log, said, ch)
  {
    hide Classify, Repeats;
  }

  // What is published later leaves what was said before alone.
  lemma PublishingKeepsSaid(log: seq<nat>, said: map<nat, string>, n: nat, payload: string, ch: Channel,
                            frames: seq<Wire>, events: seq<Event>)
    requires Increasing(log) && n > Head(log)
    requires AllSayRight(frames, log, said, ch) && AllTellRight(events, log, said, ch)
    ensures AllSayRight(frames, log + [n], said[n := payload], ch)
    ensures AllTellRight(events, log + [n], said[n := payload], ch)
  {
    hide Classify;
  }

  lemma RepliesSayRight(log: seq<nat>, said: map<nat, string>, c: Channel, since: Option<nat>, ack: bool, ch: Channel)
    requires Increasing(log)
    ensures c == ch ==> AllSayRight(Reply(log, said, c, since, ack), log, said, ch)
  {
    hide Between;
    forall f | c == ch && f in Reply(log, said, c, since, ack) ensures SaysRight(Classify(f), log, said, ch) {
      if f in Replayed(log, said, c, since) {
        var between := Between(log, since.value, Head(log));
        var i :| 0 <= i < |between| && f == UpdateFrame(c, between[i], Text(said, between[i]));
        EntriesAreBounded(log, since.value, Head(log), i);
      }
    }
  }

  lemma SilentSaysRight(frames: seq<Wire>, log: seq<nat>, said: map<nat, string>, ch: Channel)
    requires Silent(frames, ch)
    ensures AllSayRight(frames, log, said, ch)
  {
    hide Classify;
  }

  lemma AnswersSayRight(w: World, f: ClientFrame, answer: Answer, ch: Channel)
    requires Increasing(LogOf(w, ch))
    ensures AllSayRight(Answered(w, f, answer), LogOf(w, ch), TextsOf(w, ch), ch)
  {
    var log, said := LogOf(w, ch), TextsOf(w, ch);
    if f.Subscribe? && answer.Accept? {
      hide Reply, Increasing;
      if f.channel == ch {
        RepliesSayRight(log, said, ch, f.since, answer.ack, ch);
      } else {
        OtherReply(LogOf(w, f.channel), TextsOf(w, f.channel), f.channel, f.since, answer.ack, ch);
        SilentSaysRight(Answered(w, f, answer), log, said, ch);
      }
    } else {
      hide Increasing;
      SilentSaysRight(Answered(w, f, answer), log, said, ch);
    }
  }

  lemma SaidAfter(w: World, step: Step, ch: Channel)
    requires Enabled(w, step)
    ensures TextsOf(Apply(w, step), ch) ==
            if step.Publish? && step.channel == ch then TextsOf(w, ch)[step.seqNo := step.payload] else TextsOf(w, ch)
    ensures Apply(w, step).decoded == w.decoded + if step.Decode? then Produced(w.hand.value, step.order) else []
    ensures Held(w) ==> Held(Apply(w, step))
  {
    hide Digest, Produced, Served, Resends, Greeting, Classify;
    assert w.decoded + [] == w.decoded;
  }

  lemma PublishKeepsTold(w: World, step: Step, ch: Channel)
    requires Told(w, ch) && Enabled(w, step) && step.Publish?
    ensures Told(Apply(w, step), ch)
  {
    hide Apply, AllSayRight, AllTellRight, Increasing, Coming;
    var w', n, payload := Apply(w, step), step.seqNo, step.payload;
    SaidAfter(w, step, ch);
    LogAfter(w, step, ch);
    PublishedComing(w, step, ch);
    if step.channel == ch {
      PublishKeepsBetween(LogOf(w, ch), n, 0, 0);
      PublishingKeepsSaid(LogOf(w, ch), TextsOf(w, ch), n, payload, ch, Coming(w), w.decoded);
    } else {
      assert LogOf(w', ch) == LogOf(w, ch);
    }
    assert w'.decoded == w.decoded;
    NewSaysRight(step.channel, n, payload, LogOf(w', ch), TextsOf(w', ch), ch);
    SayAppend(Coming(w), Fresh(step), LogOf(w', ch), TextsOf(w', ch), ch);
  }

  function Fresh(step: Step): seq<Wire>
    requires step.Publish?
  {
    [UpdateFrame(step.channel, step.seqNo, step.payload)]
  }

  lemma PublishedComing(w: World, step: Step, ch: Channel)
    requires Enabled(w, step) && step.Publish? && Held(w)
    ensures Coming(Apply(w, step)) in [Coming(w), Coming(w) + Fresh(step)]
  {
    if w.link.Some? {
      PublishMoves(w, step, ch);
    }
  }

  lemma NewSaysRight(c: Channel, n: nat, payload: string, log: seq<nat>, said: map<nat, string>, ch: Channel)
    requires c == ch ==> n <= Head(log) && n in said && said[n] == payload
    ensures AllSayRight([UpdateFrame(c, n, payload)], log, said, ch)
  {
  }

  lemma ArrivingSaysRight(w: World, step: Step, ch: Channel)
    requires Enabled(w, step) && (step.Serve? || step.FallBehind? || step.Chatter?)
    requires Increasing(LogOf(w, ch))
    ensures AllSayRight(Arriving(w, step), LogOf(w, ch), TextsOf(w, ch), ch)
  {
    hide Increasing, Answered;
    if step.Serve? {
      AnswersSayRight(w, w.link.value.up[0], step.answer, ch);
    } else {
      SilentSaysRight(Arriving(w, step), LogOf(w, ch), TextsOf(w, ch), ch);
    }
  }

  // The steps after which no frame is coming that was not before.
  lemma NothingMoreComing(w: World, step: Step)
    requires Enabled(w, step) && Held(w)
    requires !step.Publish? && !step.Serve? && !step.FallBehind? && !step.Chatter?
    ensures forall f :: f in Coming(Apply(w, step)) ==> f in Coming(w)
    ensures step.Decode? ==> w.hand.value in Coming(w)
  {
    hide Digest, Produced, Served, Resends, Greeting, Classify;
    if step.ReadFrame? {
      ReadKeepsComing(w);
    } else if step.Decode? {
      ComingHead(w, step);
    }
  }

  lemma FewerSayRight(frames: seq<Wire>, fewer: seq<Wire>, log: seq<nat>, said: map<nat, string>, ch: Channel)
    requires AllSayRight(frames, log, said, ch) && forall f :: f in fewer ==> f in frames
    ensures AllSayRight(fewer, log, said, ch)
  {
    hide SaysRight, Classify;
  }

  lemma StepKeepsTold(w: World, step: Step, ch: Channel)
    requires Told(w, ch) && Enabled(w, step)
    ensures Told(Apply(w, step), ch)
  {
    hide Apply, AllTellRight, Increasing, Coming, Arriving;
    var w', log, said := Apply(w, step), LogOf(w, ch), TextsOf(w, ch);
    if step.Publish? {
      PublishKeepsTold(w, step, ch);
    } else {
      SaidAfter(w, step, ch);
      LogAfter(w, step, ch);
      assert LogOf(w', ch) == log && TextsOf(w', ch) == said && w.decoded + [] == w.decoded;
      if step.Serve? || step.FallBehind? || step.Chatter? {
        ArrivesLast(w, step, ch);
        ArrivingSaysRight(w, step, ch);
        SayAppend(Coming(w), Arriving(w, step), log, said, ch);
      } else {
        NothingMoreComing(w, step);
        FewerSayRight(Coming(w), Coming(w'), log, said, ch);
        if step.Decode? {
          DecodedTellsRight(w, step, ch);
        }
      }
    }
  }

  lemma DecodedTellsRight(w: World, step: Step, ch: Channel)
    requires Told(w, ch) && Enabled(w, step) && step.Decode? && w.hand.value in Coming(w)
    ensures AllTellRight(w.decoded + Produced(w.hand.value, step.order), LogOf(w, ch), TextsOf(w, ch), ch)
  {
    assert SaysRight(Classify(w.hand.value), LogOf(w, ch), TextsOf(w, ch), ch);
    hide *;
    ProducedTellsRight(w.hand.value, step.order, LogOf(w, ch), TextsOf(w, ch), ch);
    TellAppend(w.decoded, Produced(w.hand.value, step.order), LogOf(w, ch), TextsOf(w, ch), ch);
  }

  lemma {:induction false} RunKeepsTold(w: World, steps: seq<Step>, ch: Channel)
    requires Told(w, ch) && Legal(w, steps)
    ensures Told(Run(w, steps), ch)
    decreases |steps|
  {
    hide Told, Enabled, Apply, RangesOver;
    if steps != [] {
      StepKeepsTold(w, steps[0], ch);
      RunKeepsTold(Apply(w, steps[0]), steps[1..], ch);
    }
  }

  // --- the payload a publisher gave is the one kept -------------------------------------

  lemma StepKeepsText(w: World, step: Step, ch: Channel, n: nat)
    requires Enabled(w, step) && n <= Head(LogOf(w, ch))
    ensures n <= Head(LogOf(Apply(w, step), ch))
    ensures Text(TextsOf(Apply(w, step), ch), n) == Text(TextsOf(w, ch), n)
  {
    hide Apply;
    LogAfter(w, step, ch);
    SaidAfter(w, step, ch);
    assert LogOf(w, ch) + [] == LogOf(w, ch);
  }

  lemma {:induction false} RunKeepsText(w: World, steps: seq<Step>, ch: Channel, n: nat)
    requires Legal(w, steps) && n <= Head(LogOf(w, ch))
    ensures Text(TextsOf(Run(w, steps), ch), n) == Text(TextsOf(w, ch), n)
    decreases |steps|
  {
    hide Enabled, Apply, RangesOver, Head;
    if steps != [] {
      StepKeepsText(w, steps[0], ch, n);
      RunKeepsText(Apply(w, steps[0]), steps[1..], ch, n);
    }
  }

  /** What was published under a seq stays published under it, word for word. */
  lemma {:induction false} PublishedStays(w: World, steps: seq<Step>, i: nat)
    requires Legal(w, steps) && i < |steps| && steps[i].Publish?
    ensures Text(TextsOf(Run(w, steps), steps[i].channel), steps[i].seqNo) == steps[i].payload
    decreases |steps|
  {
    hide Enabled, Apply, RangesOver;
    var w1 := Apply(w, steps[0]);
    if i == 0 {
      LogAfter(w, steps[0], steps[0].channel);
      SaidAfter(w, steps[0], steps[0].channel);
      RunKeepsText(w1, steps[1..], steps[0].channel, steps[0].seqNo);
    } else {
      PublishedStays(w1, steps[1..], i - 1);
    }
  }

  // --- pairs from seqs -------------------------------------------------------------------

  lemma {:induction false} ReceivedAppend(a: seq<Event>, b: seq<Event>, ch: Channel)
    ensures Received(a + b, ch) == Received(a, ch) + Received(b, ch)
  {
    if b == [] {
      assert a + b == a;
    } else {
      var n := |b| - 1;
      ReceivedAppend(a, b[..n], ch);
      assert (a + b)[..|a| + n] == a + b[..n];
    }
  }

  lemma ItemsAppend(a: seq<nat>, n: nat, said: map<nat, string>)
    ensures Items(a + [n], said) == Items(a, said) + [Item(n, Text(said, n))]
  {
  }

  // Events that tell what was said are the items of their seqs.
  lemma {:induction false} ReceivedAsSaid(events: seq<Event>, log: seq<nat>, said: map<nat, string>, ch: Channel)
    requires AllTellRight(events, log, said, ch)
    ensures Received(events, ch) == Items(Delivered(events, ch), said)
  {
    hide Text;
    if events != [] {
      var n := |events| - 1;
      ReceivedAsSaid(events[..n], log, said, ch);
      assert events[n] in events;
      if events[n].ChannelEvent? && events[n].channel == ch {
        ItemsAppend(Delivered(events[..n], ch), events[n].seqNo, said);
      }
    }
  }
}
