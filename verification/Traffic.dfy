/** What each step of a run does to the frames on their way to the client. */
module Traffic {
  import opened Wrappers
  import opened Frames
  import opened Subscriptions
  import opened Resume

  // The frames the client will decode, if the connection lasts.
  function Coming(w: World): seq<Wire> {
    (if w.hand.Some? then [w.hand.value] else []) + if w.link.Some? then w.link.value.down else []
  }

  lemma ReadKeepsComing(w: World)
    requires Enabled(w, ReadFrame)
    ensures Coming(Apply(w, ReadFrame)) == Coming(w)
  {
    var down := w.link.value.down;
    assert [down[0]] + down[1..] == down;
  }

  lemma ComingHead(w: World, step: Step)
    requires Enabled(w, step) && step.Decode? && w.link.Some?
    ensures Apply(w, step).link.Some? && Coming(w) == [w.hand.value] + Coming(Apply(w, step))
  {
    hide Digest, Produced, Resends, Classify;
  }

  lemma PublishMoves(w: World, step: Step, ch: Channel)
    requires Enabled(w, step) && step.Publish? && w.link.Some?
    ensures var w' := Apply(w, step); var l := w.link.value; var f := UpdateFrame(step.channel, step.seqNo, step.payload);
            && w'.link.Some? && w'.client == w.client
            && w'.link.value.up == l.up && w'.link.value.live == l.live
            && Coming(w') == (if step.channel in l.live then Coming(w) + [f] else Coming(w))
            && LogOf(w', ch) == (if step.channel == ch then LogOf(w, ch) + [step.seqNo] else LogOf(w, ch))
            && step.seqNo > Head(LogOf(w, step.channel)) && KnownName(step.channel.name)
  {
  }

  lemma PublishStaysUnlinked(w: World, step: Step)
    requires Enabled(w, step) && step.Publish? && w.link.None?
    ensures Apply(w, step).link.None?
  {
  }

  lemma NoticeMoves(w: World, step: Step, ch: Channel)
    requires Enabled(w, step) && (step.FallBehind? || step.Chatter?)
    ensures var w' := Apply(w, step); var l := w.link.value;
            var f := if step.Chatter? then step.frame else LostFrame(step.notice, step.oldest);
            && w'.link.Some? && w'.client == w.client && LogOf(w', ch) == LogOf(w, ch)
            && w'.link.value.up == l.up && Coming(w') == Coming(w) + [f]
            && w'.link.value.live == (if step.FallBehind? then Unnamed(l.live, step.notice) else l.live)
  {
  }

  // What the server answers to one client frame, and what it streams afterwards.
  function Answered(w: World, f: ClientFrame, answer: Answer): seq<Wire> {
    if f.Unsubscribe? then [LeftFrame(f.channel)]
    else
      match answer
      case Accept(ack) => Reply(LogOf(w, f.channel), TextsOf(w, f.channel), f.channel, f.since, ack)
      case OutOfReach(oldest) => [LostFrame(f.channel, oldest)]
      case Decline => [ErrorFrame("")]
  }

  function LiveAfter(live: set<Channel>, f: ClientFrame, answer: Answer): set<Channel> {
    if f.Unsubscribe? then live - {f.channel}
    else
      match answer
      case Accept(_) => live + {f.channel}
      case OutOfReach(_) => Unnamed(live, f.channel)
      case Decline => live
  }

  lemma ServedIs(w: World, l: Link, answer: Answer)
    requires l.up != []
    ensures Served(w, l, answer)
         == Link(l.served + [l.up[0]], l.up[1..], l.down + Answered(w, l.up[0], answer),
                 LiveAfter(l.live, l.up[0], answer), l.faulty)
  {
    hide Reply;
  }

  lemma ServeMoves(w: World, answer: Answer, ch: Channel)
    requires Enabled(w, Serve(answer))
    ensures var w' := Apply(w, Serve(answer)); var l := w.link.value;
            && l.up != [] && w'.link.Some? && w'.client == w.client && LogOf(w', ch) == LogOf(w, ch)
            && w'.link.value.up == l.up[1..] && w'.link.value.live == LiveAfter(l.live, l.up[0], answer)
            && Coming(w') == Coming(w) + Answered(w, l.up[0], answer)
  {
    ServedIs(w, w.link.value, answer);
    hide Served, Answered, LiveAfter, Digest, Produced;
  }

  // The frames a server step puts on the wire.
  function Arriving(w: World, step: Step): seq<Wire>
    requires Enabled(w, step)
  {
    match step
    case Publish(c, n, payload) => if w.link.Some? && c in w.link.value.live then [UpdateFrame(c, n, payload)] else []
    case Serve(answer) => Answered(w, w.link.value.up[0], answer)
    case FallBehind(notice, oldest) => [LostFrame(notice, oldest)]
    case Chatter(frame) => [frame]
    case _ => []
  }

  lemma ArrivesLast(w: World, step: Step, ch: Channel)
    requires Enabled(w, step) && w.link.Some?
    requires step.Publish? || step.Serve? || step.FallBehind? || step.Chatter?
    ensures Coming(Apply(w, step)) == Coming(w) + Arriving(w, step)
  {
    hide Apply, Answered, Coming;
    assert Coming(w) + [] == Coming(w);
    if step.Publish? {
      PublishMoves(w, step, ch);
    } else if step.Serve? {
      ServeMoves(w, step.answer, ch);
    } else {
      NoticeMoves(w, step, ch);
    }
  }

  lemma LogAfter(w: World, step: Step, ch: Channel)
    requires Enabled(w, step)
    ensures LogOf(Apply(w, step), ch)
         == LogOf(w, ch) + if step.Publish? && step.channel == ch then [step.seqNo] else []
  {
    hide Digest, Produced, Served, Resends, Greeting, Sends, Classify;
    assert LogOf(w, ch) + [] == LogOf(w, ch);
  }

  // The reader has a frame in hand, and callers a connection, only while there is one.
  predicate Held(w: World) { (w.hand.Some? ==> w.link.Some?) && (w.connected ==> w.link.Some?) }
}
