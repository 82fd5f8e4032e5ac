/** Whole runs of the account socket against its server: callers of Subscribe,
    Unsubscribe and Close, the reading goroutine, the server and the publishers step in
    any order, and the connection may be lost at any point. */
module Resume {
  import opened Wrappers
  import opened Frames
  import opened Subscriptions

  /** One connection. `served` are the client's frames the server has read, `up` the ones
      still on their way, `down` what the client has not read; `live` is what the server
      streams on it, and `faulty` says a write on it failed. */
  datatype Link = Link(served: seq<ClientFrame>, up: seq<ClientFrame>, down: seq<Wire>,
                       live: set<Channel>, faulty: bool)

  /** `link` is the connection the reading goroutine holds; `connected` says the socket
      still has it, so that callers write on it. `hand` is a frame read but not decoded.
      `log` holds the seqs published, `said` their payloads, and `decoded` every event
      decoded, in order. */
  datatype World = World(client: Client, connected: bool, closed: bool, link: Option<Link>,
                         hand: Option<Wire>, log: map<Channel, seq<nat>>,
                         said: map<Channel, map<nat, string>>, decoded: seq<Event>)

  datatype Answer =
    | Accept(ack: bool)      // go live, after replaying what follows `since`
    | OutOfReach(oldest: nat) // the history is gone: out_of_sync
    | Decline                // an error frame, such as a subscription limit

  datatype Step =
    | CallSubscribe(channel: Channel, ok: bool)
    | CallUnsubscribe(channel: Channel, ok: bool)
    | CallClose
    | Connect(order: seq<Channel>)
    | ReadFrame
    | Decode(order: seq<Channel>, writes: Channel -> bool)
    | LoseConnection
    | Publish(channel: Channel, seqNo: nat, payload: string)
    | Serve(answer: Answer)
    | FallBehind(notice: Channel, oldest: nat) // the server drops what the notice names
    | Chatter(frame: Wire)                     // any frame that is no ack, event or out_of_sync

  function LogOf(w: World, ch: Channel): seq<nat> { if ch in w.log then w.log[ch] else [] }

  function TextsOf(w: World, ch: Channel): map<nat, string> { if ch in w.said then w.said[ch] else map[] }

  // The payload published under a seq.
  function Text(said: map<nat, string>, n: nat): string { if n in said then said[n] else "" }

  // The newest seq, 0 before the first.
  function Head(log: seq<nat>): nat { if log == [] then 0 else log[|log| - 1] }

  // The entries above lo and up to hi, in order.
  function Between(log: seq<nat>, lo: nat, hi: nat): seq<nat> {
    if log == [] then []
    else
      var n := |log| - 1;
      Between(log[..n], lo, hi) + if lo < log[n] <= hi then [log[n]] else []
  }

  function Updates(ch: Channel, seqNos: seq<nat>, said: map<nat, string>): seq<Wire> {
    seq(|seqNos|, i requires 0 <= i < |seqNos| => UpdateFrame(ch, seqNos[i], Text(said, seqNos[i])))
  }

  function Replayed(log: seq<nat>, said: map<nat, string>, ch: Channel, since: Option<nat>): seq<Wire> {
    if since.Some? then Updates(ch, Between(log, since.value, Head(log)), said) else []
  }

  // The whole replay, in order, and only then the ack.
  function Reply(log: seq<nat>, said: map<nat, string>, ch: Channel, since: Option<nat>, ack: bool): seq<Wire> {
    Replayed(log, said, ch, since) + if ack then [AckFrame(ch, Head(log))] else []
  }

  predicate Quiet(w: Wire) {
    var f := Classify(w);
    !f.Ack? && !f.Update? && !f.Lost?
  }

  // The server lets go of every subscription an out_of_sync names.
  function Unnamed(live: set<Channel>, notice: Channel): set<Channel> {
    set ch | ch in live && !Names(notice, ch)
  }

  predicate Enabled(w: World, step: Step) {
    match step
    case CallSubscribe(ch, _) => Valid(ch) && !w.closed
    case CallUnsubscribe(_, _) => !w.closed
    case CallClose => true
    case Connect(_) => w.link.None? && !w.connected && !w.closed
    case ReadFrame => w.link.Some? && w.hand.None? && w.link.value.down != []
    case Decode(_, _) => w.hand.Some?
    case LoseConnection => w.link.Some? && w.hand.None?
    case Publish(ch, n, _) => KnownName(ch.name) && n > Head(LogOf(w, ch))
    case Serve(_) => w.link.Some? && w.link.value.up != []
    case FallBehind(notice, _) => w.link.Some? && KnownName(notice.name)
    case Chatter(frame) => w.link.Some? && Quiet(frame)
  }

  // The order a map is ranged over is free, but it is an order of that map.
  ghost predicate Possible(w: World, step: Step) {
    && Enabled(w, step)
    && (step.Connect? ==> RangesOver(step.order, w.client.subs))
    && (step.Decode? ==>
          var f := Classify(w.hand.value);
          RangesOver(step.order, if f.Lost? then Affected(w.client, f.channel) else {}))
  }

  function Sends(w: World, frames: seq<ClientFrame>, ok: bool): Option<Link> {
    if !w.connected || w.link.None? then w.link
    else if ok then Some(w.link.value.(up := w.link.value.up + frames))
    else Some(w.link.value.(faulty := true))
  }

  function Apply(w: World, step: Step): World
    requires Enabled(w, step)
  {
    match step
    case CallSubscribe(ch, ok) =>
      var c := Added(w.client, ch);
      w.(client := c, link := Sends(w, [SubscribeFrame(c, ch)], ok))
    case CallUnsubscribe(ch, ok) =>
      w.(client := Removed(w.client, ch), link := Sends(w, [Unsubscribe(ch)], ok))
    case CallClose => w.(closed := true, connected := false)
    case Connect(order) =>
      w.(connected := true, link := Some(Link([], Greeting(w.client, order), [], {}, false)))
    case ReadFrame =>
      var l := w.link.value;
      w.(hand := Some(l.down[0]), link := Some(l.(down := l.down[1..])))
    case Decode(order, ok) =>
      var frame := w.hand.value;
      var f := Classify(frame);
      var link := if f.Lost? && w.connected && w.link.Some?
                  then Some(w.link.value.(up := w.link.value.up + Resends(order, ok),
                                          faulty := w.link.value.faulty || SomeFail(order, ok)))
                  else w.link;
      w.(client := Digest(w.client, f), link := link, hand := None, decoded := w.decoded + Produced(frame, order))
    case LoseConnection => w.(connected := false, link := None)
    case Publish(ch, n, payload) =>
      var link := if w.link.Some? && ch in w.link.value.live
                  then Some(w.link.value.(down := w.link.value.down + [UpdateFrame(ch, n, payload)]))
                  else w.link;
      w.(log := w.log[ch := LogOf(w, ch) + [n]], said := w.said[ch := TextsOf(w, ch)[n := payload]], link := link)
    case Serve(answer) => w.(link := Some(Served(w, w.link.value, answer)))
    case FallBehind(notice, oldest) =>
      var l := w.link.value;
      w.(link := Some(l.(live := Unnamed(l.live, notice), down := l.down + [LostFrame(notice, oldest)])))
    case Chatter(frame) =>
      w.(link := Some(w.link.value.(down := w.link.value.down + [frame])))
  }

  // The server reads one client frame and answers it.
  function Served(w: World, l: Link, answer: Answer): Link
    requires l.up != []
  {
    var l' := l.(served := l.served + [l.up[0]], up := l.up[1..]);
    match l.up[0]
    case Unsubscribe(ch) => l'.(live := l.live - {ch}, down := l.down + [LeftFrame(ch)])
    case Subscribe(ch, since) =>
      match answer
      case Accept(ack) => l'.(live := l.live + {ch}, down := l.down + Reply(LogOf(w, ch), TextsOf(w, ch), ch, since, ack))
      case OutOfReach(oldest) => l'.(live := Unnamed(l.live, ch), down := l.down + [LostFrame(ch, oldest)])
      case Decline => l'.(down := l.down + [ErrorFrame("")])
  }

  const INITIAL: World := World(Client({}, map[]), false, false, None, None, map[], map[], [])

  ghost predicate Legal(w: World, steps: seq<Step>)
    decreases |steps|
  {
    steps == [] || (Possible(w, steps[0]) && Legal(Apply(w, steps[0]), steps[1..]))
  }

  ghost function Run(w: World, steps: seq<Step>): World
    requires Legal(w, steps)
    decreases |steps|
  {
    if steps == [] then w else Run(Apply(w, steps[0]), steps[1..])
  }
}
