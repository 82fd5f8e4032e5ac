/** The account socket's subscription state (ws.go): what is subscribed, the highest
    seq seen of each channel, and the events decoded but not yet returned. */
module Subscriptions {
  import opened Wrappers
  import opened Frames
  import opened Sockets

  /** The fields guarded by the socket's mutex. */
  datatype Client = Client(subs: set<Channel>, cursors: map<Channel, nat>)

  function SinceOf(c: Client, ch: Channel): Option<nat> {
    if ch in c.cursors then Some(c.cursors[ch]) else None
  }

  function SubscribeFrame(c: Client, ch: Channel): ClientFrame { Subscribe(ch, SinceOf(c, ch)) }

  function Added(c: Client, ch: Channel): Client { c.(subs := c.subs + {ch}) }

  function Removed(c: Client, ch: Channel): Client { Client(c.subs - {ch}, c.cursors - {ch}) }

  function Advanced(c: Client, ch: Channel, seqNo: nat): Client {
    if ch in c.subs && (ch !in c.cursors || seqNo > c.cursors[ch])
    then c.(cursors := c.cursors[ch := seqNo]) else c
  }

  // An out_of_sync without a market names every market of its channel.
  predicate Names(notice: Channel, ch: Channel) {
    ch.name == notice.name && (notice.market == "" || ch.market == notice.market)
  }

  function Affected(c: Client, notice: Channel): set<Channel> { set ch | ch in c.subs && Names(notice, ch) }

  function Resynced(c: Client, notice: Channel): Client { c.(cursors := c.cursors - Affected(c, notice)) }

  function Digest(c: Client, f: Inbound): Client {
    match f
    case Ack(ch, seqNo) => Advanced(c, ch, seqNo)
    case Update(ch, seqNo, _) => Advanced(c, ch, seqNo)
    case Lost(ch, _) => Resynced(c, ch)
    case _ => c
  }

  // One order in which a map with these keys can be ranged over.
  ghost predicate RangesOver(order: seq<Channel>, chs: set<Channel>) {
    && (forall ch :: ch in order <==> ch in chs)
    && (forall i, j :: 0 <= i < j < |order| ==> order[i] != order[j])
  }

  function Losses(order: seq<Channel>, oldest: nat): seq<Event> {
    seq(|order|, i requires 0 <= i < |order| => OutOfSync(order[i], oldest))
  }

  // The events one served frame turns into; `order` matters for out_of_sync only.
  function Produced(w: Wire, order: seq<Channel>): seq<Event> {
    match Classify(w)
    case Ack(ch, seqNo) => [Subscribed(ch, seqNo)]
    case Left(ch) => [Unsubscribed(ch)]
    case Update(ch, seqNo, payload) => [ChannelEvent(ch, seqNo, payload)]
    case Lost(_, oldest) => Losses(order, oldest)
    case Fault(message) => [ServerError(message)]
    case Bad => [Unrecognized(w)]
  }

  function Greeting(c: Client, order: seq<Channel>): seq<ClientFrame> {
    seq(|order|, i requires 0 <= i < |order| => SubscribeFrame(c, order[i]))
  }

  // The fresh subscribes a resync writes, less those whose write failed.
  function Resends(order: seq<Channel>, ok: Channel -> bool): seq<ClientFrame> {
    if order == [] then []
    else Resends(order[..|order| - 1], ok)
         + if ok(order[|order| - 1]) then [Subscribe(order[|order| - 1], None)] else []
  }

  predicate SomeFail(order: seq<Channel>, ok: Channel -> bool) { exists ch :: ch in order && !ok(ch) }

  // The channels an out_of_sync asks about, in the words of its frame: those of the name, or
  // the one of the name and market if it gives a market.
  predicate AsksAbout(name: Name, market: Option<string>, ch: Channel) {
    match market
    case None => ch.name == name
    case Some(m) => if m == "" then ch.name == name else ch == Channel(name, m)
  }

  // The channel is started over: no cursor, one OutOfSync and one fresh subscribe if its write
  // goes through.
  ghost predicate StartedOver(ch: Channel, c': Client, oldest: nat, out: seq<Event>, frames: seq<ClientFrame>, written: bool) {
    && ch !in c'.cursors
    && multiset(out)[OutOfSync(ch, oldest)] == 1
    && multiset(frames)[Subscribe(ch, None)] == if written then 1 else 0
  }

  predicate CursorKept(ch: Channel, c: Client, c': Client) {
    if ch in c.cursors then ch in c'.cursors && c'.cursors[ch] == c.cursors[ch] else ch !in c'.cursors
  }

  /** From c to c', with these events and these writes, exactly the subscriptions the frame asks
      about were started over. */
  ghost predicate Restarted(c: Client, c': Client, name: Name, market: Option<string>, oldest: nat,
                            out: seq<Event>, frames: seq<ClientFrame>, ok: Channel -> bool) {
    && c'.subs == c.subs
    && (forall ch :: ch in c.subs && AsksAbout(name, market, ch) ==> StartedOver(ch, c', oldest, out, frames, ok(ch)))
    && (forall ch :: !(ch in c.subs && AsksAbout(name, market, ch)) ==> CursorKept(ch, c, c'))
    && (forall e :: e in out ==> e.OutOfSync? && e.oldest == oldest && e.channel in c.subs && AsksAbout(name, market, e.channel))
    && (forall f :: f in frames ==> f.Subscribe? && f.since.None? && f.channel in c.subs && AsksAbout(name, market, f.channel))
  }

  function OldestIn(w: Wire): nat
    requires w.Json?
  {
    match w.oldestSeq
    case Some(n) => n
    case None => 0
  }

  // The channel named by the frame; no market reads as an empty one.
  predicate About(ch: Channel, w: Wire)
    requires w.Json?
  {
    ch.name == w.channel && KnownName(w.channel) && (w.market == Some(ch.market) || (w.market.None? && ch.market == ""))
  }

  // A frame that is not understood: no JSON, a channel or an op nobody knows, or a seq left out.
  predicate Garbled(w: Wire) {
    w.NotJson?
    || (w.op != ErrorTag
        && (!KnownName(w.channel) || w.op.OtherTag? || (w.op == SubscribedTag && w.seqAtJoin.None?)
            || (w.op == EventTag && w.seqNo.None?)))
  }

  // What an event says of the frame it comes from.
  predicate Quotes(e: Event, w: Wire) {
    match e
    case Unrecognized(frame) => frame == w && Garbled(w)
    case Disconnected(_) => false
    case Reconnected => false
    case ServerError(message) => w.Json? && w.op == ErrorTag && message == w.message
    case Subscribed(ch, n) => w.Json? && w.op == SubscribedTag && About(ch, w) && w.seqAtJoin == Some(n)
    case Unsubscribed(ch) => w.Json? && w.op == UnsubscribedTag && About(ch, w)
    case ChannelEvent(ch, n, payload) =>
      w.Json? && w.op == EventTag && About(ch, w) && w.seqNo == Some(n) && payload == w.payload
    case OutOfSync(ch, oldest) => w.Json? && w.op == OutOfSyncTag && oldest == OldestIn(w)
  }

  datatype Outcome = Done | Invalid | StreamIsClosed | WriteFailed

  /** What socket.read hands to Next. */
  datatype ReadResult = Frame(wire: Wire) | Lifecycle(event: Event) | Terminal

  // One call of Next on the queue: what it decoded goes in at the back, and what it returns
  // comes from the front; a lifecycle event or an error goes past an empty queue.
  predicate Turned(before: seq<Event>, decoded: seq<Event>, event: Option<Event>, past: bool, after: seq<Event>) {
    if past then before == decoded == after == []
    else if event.Some? then before + decoded == [event.value] + after
    else before == decoded == after == []
  }

  /** One frame read, and the order its resync, if it asks for one, walked the subscriptions in. */
  datatype Reading = Reading(wire: Wire, order: seq<Channel>)

  // Whether the write about a channel, made by the n-th frame of a call, goes through.
  type Writes = (nat, Channel) -> bool

  function OnFrame(ok: Writes, n: nat): Channel -> bool { ch => ok(n, ch) }

  function FramesOf(results: seq<ReadResult>): seq<Wire> {
    if results == [] then []
    else
      var r := results[|results| - 1];
      FramesOf(results[..|results| - 1]) + if r.Frame? then [r.wire] else []
  }

  function WiresOf(readings: seq<Reading>): seq<Wire> {
    if readings == [] then [] else WiresOf(readings[..|readings| - 1]) + [readings[|readings| - 1].wire]
  }

  // What decoding these frames in order makes of the state, and the events it produces.
  function StateAfter(c: Client, readings: seq<Reading>): Client {
    if readings == [] then c
    else Digest(StateAfter(c, readings[..|readings| - 1]), Classify(readings[|readings| - 1].wire))
  }

  function ProducedBy(readings: seq<Reading>): seq<Event> {
    if readings == [] then []
    else
      var r := readings[|readings| - 1];
      ProducedBy(readings[..|readings| - 1]) + Produced(r.wire, r.order)
  }

  // Each resync walked exactly the subscriptions its out_of_sync named at that point.
  ghost predicate Walked(c: Client, readings: seq<Reading>) {
    readings == []
    || (var front, r := readings[..|readings| - 1], readings[|readings| - 1];
        && Walked(c, front)
        && (Classify(r.wire).Lost? ==> RangesOver(r.order, Affected(StateAfter(c, front), Classify(r.wire).channel))))
  }

  // The subscribes the resyncs write, and whether one of their writes fails.
  function ResentBy(readings: seq<Reading>, ok: Writes): seq<ClientFrame> {
    if readings == [] then []
    else
      var n := |readings| - 1;
      ResentBy(readings[..n], ok)
      + if Classify(readings[n].wire).Lost? then Resends(readings[n].order, OnFrame(ok, n)) else []
  }

  predicate SomeFailed(readings: seq<Reading>, ok: Writes) {
    if readings == [] then false
    else
      var n := |readings| - 1;
      SomeFailed(readings[..n], ok)
      || (Classify(readings[n].wire).Lost? && SomeFail(readings[n].order, OnFrame(ok, n)))
  }

  lemma NothingAffected(oldest: nat, ok: Channel -> bool)
    ensures Losses([], oldest) == [] && Resends([], ok) == []
  {
  }

  lemma LossesOne(order: seq<Channel>, ch: Channel, oldest: nat)
    ensures Losses(order + [ch], oldest) == Losses(order, oldest) + [OutOfSync(ch, oldest)]
  {
  }

  lemma ResendsOne(order: seq<Channel>, ch: Channel, ok: Channel -> bool)
    ensures Resends(order + [ch], ok) == Resends(order, ok) + if ok(ch) then [Subscribe(ch, None)] else []
  {
    assert (order + [ch])[..|order + [ch]| - 1] == order;
  }

  lemma WithoutOne(cursors: map<Channel, nat>, order: seq<Channel>, ch: Channel)
    ensures cursors - (set c | c in order) - {ch} == cursors - (set c | c in order + [ch])
  {
  }

  lemma {:induction false} ResendsOnce(order: seq<Channel>, ok: Channel -> bool, ch: Channel)
    requires forall i, j :: 0 <= i < j < |order| ==> order[i] != order[j]
    ensures multiset(Resends(order, ok))[Subscribe(ch, None)] == if ch in order && ok(ch) then 1 else 0
    ensures forall f :: f in Resends(order, ok) ==> f.Subscribe? && f.since.None? && f.channel in order
  {
    if order != [] {
      var n := |order| - 1;
      ResendsOnce(order[..n], ok, ch);
      assert order == order[..n] + [order[n]];
    }
  }

  lemma {:induction false} LossesOnce(order: seq<Channel>, oldest: nat, ch: Channel)
    requires forall i, j :: 0 <= i < j < |order| ==> order[i] != order[j]
    ensures multiset(Losses(order, oldest))[OutOfSync(ch, oldest)] == if ch in order then 1 else 0
    ensures forall e :: e in Losses(order, oldest) ==> e.OutOfSync? && e.oldest == oldest && e.channel in order
  {
    if order != [] {
      var n := |order| - 1;
      LossesOnce(order[..n], oldest, ch);
      LossesOne(order[..n], order[n], oldest);
      assert order == order[..n] + [order[n]];
    }
  }

  /** Resynchronisation, in the words of the frame alone. An out_of_sync that names no market
      starts every subscription of its channel over, and one that names a market that one; each
      is reported once and subscribed again once, and no other cursor moves. */
  lemma OutOfSyncStartsOver(c: Client, w: Wire, order: seq<Channel>, ok: Channel -> bool)
    requires w.Json? && w.op == OutOfSyncTag && KnownName(w.channel) && c.cursors.Keys <= c.subs
    requires RangesOver(order, Affected(c, Classify(w).channel))
    ensures Restarted(c, Digest(c, Classify(w)), w.channel, w.market, OldestIn(w), Produced(w, order), Resends(order, ok), ok)
  {
    var oldest := OldestIn(w);
    assert forall ch :: ch in order <==> ch in c.subs && AsksAbout(w.channel, w.market, ch);
    assert Produced(w, order) == Losses(order, oldest);
    LossesOnce(order, oldest, Channel(w.channel, ""));
    ResendsOnce(order, ok, Channel(w.channel, ""));
    forall ch | ch in order
      ensures StartedOver(ch, Digest(c, Classify(w)), oldest, Produced(w, order), Resends(order, ok), ok(ch))
    {
      LossesOnce(order, oldest, ch);
      ResendsOnce(order, ok, ch);
    }
  }

  /** Every event repeats what its frame says, field by field; any frame but an out_of_sync gives
      exactly one, and it is Unrecognized exactly when the frame is not understood. */
  lemma EventsQuoteFrames(w: Wire, order: seq<Channel>)
    ensures forall e :: e in Produced(w, order) ==> Quotes(e, w)
    ensures !(w.Json? && w.op == OutOfSyncTag && KnownName(w.channel)) ==> |Produced(w, order)| == 1
    ensures Produced(w, order) == [Unrecognized(w)] <==> Garbled(w)
  {
    if Classify(w).Lost? {
      assert Produced(w, order) == Losses(order, OldestIn(w));
      assert order != [] ==> Produced(w, order)[0].OutOfSync?;
    }
  }

  lemma NothingTurned(before: seq<Event>, after: seq<Event>)
    requires before == after == []
    ensures Turned(before, [], None, true, after) && Turned(before, [], None, false, after)
  {
  }

  lemma PastTheQueue(e: Event)
    ensures Turned([], [], Some(e), true, [])
  {
  }

  lemma FromTheQueue(before: seq<Event>, decoded: seq<Event>, queue: seq<Event>)
    requires queue != [] && queue == before + decoded
    ensures Turned(before, decoded, Some(queue[0]), false, queue[1..])
  {
    assert [queue[0]] + queue[1..] == queue;
  }

  lemma NothingRead(c: Client, ok: Writes)
    ensures FramesOf([]) == [] && WiresOf([]) == [] && StateAfter(c, []) == c && ProducedBy([]) == []
    ensures Walked(c, []) && ResentBy([], ok) == [] && !SomeFailed([], ok)
  {
  }

  lemma FramesOneMore(results: seq<ReadResult>, n: nat)
    requires n < |results|
    ensures FramesOf(results[..n + 1]) == FramesOf(results[..n]) + if results[n].Frame? then [results[n].wire] else []
  {
    assert results[..n + 1][..n] == results[..n];
  }

  lemma OneMoreReading(c: Client, readings: seq<Reading>, r: Reading, ok: Writes)
    ensures var all := readings + [r]; var f := Classify(r.wire);
            && WiresOf(all) == WiresOf(readings) + [r.wire]
            && StateAfter(c, all) == Digest(StateAfter(c, readings), f)
            && ProducedBy(all) == ProducedBy(readings) + Produced(r.wire, r.order)
            && (Walked(c, all) <==> Walked(c, readings) && (f.Lost? ==> RangesOver(r.order, Affected(StateAfter(c, readings), f.channel))))
            && ResentBy(all, ok) == ResentBy(readings, ok) + (if f.Lost? then Resends(r.order, OnFrame(ok, |readings|)) else [])
            && (SomeFailed(all, ok) <==> SomeFailed(readings, ok) || (f.Lost? && SomeFail(r.order, OnFrame(ok, |readings|))))
  {
    hide Digest, Classify, Produced, RangesOver, Affected, Resends, SomeFail, OnFrame;
    assert (readings + [r])[..|readings|] == readings;
  }

  class Subscription {
    const s: Socket
    var subs: set<Channel>
    var cursors: map<Channel, nat>
    var pending: seq<Event>

    ghost function State(): Client
      reads this
    {
      Client(subs, cursors)
    }

    constructor (s: Socket, channels: set<Channel>)
      ensures this.s == s && State() == Client(channels, map[]) && pending == []
    {
      this.s := s;
      subs, cursors, pending := channels, map[], [];
    }

    // What Client.Subscribe does before it opens the socket: one invalid channel refuses all.
    static method Open(s: Socket, channels: seq<Channel>) returns (w: Subscription?)
      ensures w == null <==> exists ch :: ch in channels && !Valid(ch)
      ensures w != null ==>
                fresh(w) && w.s == s && w.pending == []
                && w.State() == Client(set ch | ch in channels, map[])
    {
      var subs: set<Channel> := {};
      var i := 0;
      while i < |channels|
        invariant i <= |channels|
        invariant forall j :: 0 <= j < i ==> Valid(channels[j])
        invariant subs == set ch | ch in channels[..i]
      {
        if !Valid(channels[i]) {
          return null;
        }
        assert channels[..i + 1] == channels[..i] + [channels[i]];
        subs := subs + {channels[i]};
        i := i + 1;
      }
      assert channels[..i] == channels;
      w := new Subscription(s, subs);
    }

    method FrameOf(subscribe: bool, ch: Channel) returns (f: ClientFrame)
      ensures f == if subscribe then SubscribeFrame(State(), ch) else Unsubscribe(ch)
    {
      if !subscribe {
        return Unsubscribe(ch);
      }
      f := Subscribe(ch, if ch in cursors then Some(cursors[ch]) else None);
    }

    method SubscribeTo(ch: Channel, ok: bool) returns (r: Outcome)
      modifies this`subs, s.conn
      ensures r == if !Valid(ch) then Invalid else if s.closed then StreamIsClosed
                   else if s.conn != null && !ok then WriteFailed else Done
      ensures State() == if r in {Done, WriteFailed} then Added(old(State()), ch) else old(State())
      ensures s.conn != null ==>
                s.conn.written == old(s.conn.written)
                                  + (if r == Done then [SubscribeFrame(State(), ch)] else [])
      ensures s.conn != null ==> s.conn.failed == (old(s.conn.failed) || r == WriteFailed)
    {
      if !Valid(ch) {
        return Invalid;
      }
      if s.closed {
        return StreamIsClosed;
      }
      subs := subs + {ch};
      r := Done;
      if s.conn != null {
        var f := FrameOf(true, ch);
        s.conn.Write(f, ok);
        r := if ok then Done else WriteFailed;
      }
    }

    method UnsubscribeFrom(ch: Channel, ok: bool) returns (r: Outcome)
      modifies this`subs, this`cursors, s.conn
      ensures r == if s.closed then StreamIsClosed else if s.conn != null && !ok then WriteFailed else Done
      ensures State() == if r == StreamIsClosed then old(State()) else Removed(old(State()), ch)
      ensures s.conn != null ==>
                s.conn.written == old(s.conn.written) + (if r == Done then [Unsubscribe(ch)] else [])
      ensures s.conn != null ==> s.conn.failed == (old(s.conn.failed) || r == WriteFailed)
    {
      if s.closed {
        return StreamIsClosed;
      }
      subs, cursors := subs - {ch}, cursors - {ch};
      r := Done;
      if s.conn != null {
        var f := FrameOf(false, ch);
        s.conn.Write(f, ok);
        r := if ok then Done else WriteFailed;
      }
    }

    // The hello closure: every subscription is sent from its cursor, until a write fails.
    method Hello(conn: Conn, ok: Channel -> bool) returns (greeted: bool, order: seq<Channel>)
      modifies conn
      ensures greeted ==> RangesOver(order, subs) && conn.written == old(conn.written) + Greeting(State(), order)
      ensures greeted <==> forall ch :: ch in subs ==> ok(ch)
    {
      order := [];
      var rest := subs;
      while rest != {}
        invariant rest <= subs && RangesOver(order, subs - rest)
        invariant conn.written == old(conn.written) + Greeting(State(), order)
        invariant forall ch :: ch in order ==> ok(ch)
        decreases rest
      {
        var ch :| ch in rest;
        var f := FrameOf(true, ch);
        conn.Write(f, ok(ch));
        if !ok(ch) {
          return false, order;
        }
        assert Greeting(State(), order + [ch]) == Greeting(State(), order) + [f];
        order, rest := order + [ch], rest - {ch};
      }
      greeted := true;
    }

    method Advance(ch: Channel, seqNo: nat)
      modifies this`cursors
      ensures State() == Advanced(old(State()), ch, seqNo)
    {
      if ch in subs && (ch !in cursors || seqNo > cursors[ch]) {
        cursors := cursors[ch := seqNo];
      }
    }

    method Resync(notice: Channel, oldest: nat, ok: Channel -> bool) returns (out: seq<Event>, order: seq<Channel>)
      modifies this`cursors, s.conn
      ensures State() == Resynced(old(State()), notice)
      ensures RangesOver(order, Affected(old(State()), notice)) && out == Losses(order, oldest)
      ensures s.conn != null ==> s.conn.written == old(s.conn.written) + Resends(order, ok)
      ensures s.conn != null ==> s.conn.failed == (old(s.conn.failed) || SomeFail(order, ok))
    {
      hide Losses, Resends, Names;
      NothingAffected(oldest, ok);
      out, order := [], [];
      var rest := subs;
      ghost var c := State();
      while rest != {}
        invariant rest <= subs
        invariant forall ch :: ch in order <==> ch in Affected(c, notice) && ch !in rest
        invariant forall i, j :: 0 <= i < j < |order| ==> order[i] != order[j]
        invariant cursors == c.cursors - (set ch | ch in order)
        invariant out == Losses(order, oldest)
        invariant s.conn != null ==> s.conn.written == old(s.conn.written) + Resends(order, ok)
        invariant s.conn != null ==> s.conn.failed == (old(s.conn.failed) || SomeFail(order, ok))
        decreases rest
      {
        var sub :| sub in rest;
        rest := rest - {sub};
        if Names(notice, sub) {
          cursors := cursors - {sub};
          if s.conn != null {
            var f := FrameOf(true, sub);
            s.conn.Write(f, ok(sub));
          }
          LossesOne(order, sub, oldest);
          ResendsOne(order, sub, ok);
          WithoutOne(c.cursors, order, sub);
          out, order := out + [OutOfSync(sub, oldest)], order + [sub];
        }
      }
      assert (set ch | ch in order) == Affected(c, notice);
    }

    method Decode(w: Wire, ok: Channel -> bool) returns (out: seq<Event>, order: seq<Channel>)
      modifies this`cursors, s.conn
      ensures State() == Digest(old(State()), Classify(w))
      ensures Classify(w).Lost? ==> RangesOver(order, Affected(old(State()), Classify(w).channel))
      ensures out == Produced(w, order)
      ensures s.conn != null ==>
                s.conn.written == old(s.conn.written) + (if Classify(w).Lost? then Resends(order, ok) else [])
      ensures s.conn != null ==>
                s.conn.failed == (old(s.conn.failed) || (Classify(w).Lost? && SomeFail(order, ok)))
      ensures forall e :: e in out ==> Quotes(e, w)
      ensures w.Json? && w.op == OutOfSyncTag && KnownName(w.channel) && old(cursors.Keys <= subs) ==>
                Restarted(old(State()), State(), w.channel, w.market, OldestIn(w), out, Resends(order, ok), ok)
    {
      hide Quotes, Restarted, Resends, SomeFail, Losses;
      order := [];
      match Classify(w) {
        case Bad => out := [Unrecognized(w)];
        case Fault(message) => out := [ServerError(message)];
        case Ack(ch, seqNo) =>
          Advance(ch, seqNo);
          out := [Subscribed(ch, seqNo)];
        case Left(ch) => out := [Unsubscribed(ch)];
        case Update(ch, seqNo, payload) =>
          Advance(ch, seqNo);
          out := [ChannelEvent(ch, seqNo, payload)];
        case Lost(ch, oldest) =>
          out, order := Resync(ch, oldest, ok);
          if old(cursors.Keys <= subs) {
            OutOfSyncStartsOver(old(State()), w, order, ok);
          }
      }
      EventsQuoteFrames(w, order);
    }

    // `results` is what successive calls of socket.read return, `readings` the frames among
    // those the call used, and `decoded` every event it decoded. Next hands events out in the
    // order they were decoded and keeps the rest: none is dropped, none overtakes another.
    method Next(results: seq<ReadResult>, ok: Writes)
      returns (event: Option<Event>, used: nat, decoded: seq<Event>, ghost readings: seq<Reading>)
      modifies this`cursors, this`pending, s.conn
      ensures used <= |results|
      ensures WiresOf(readings) == FramesOf(results[..used]) && Walked(old(State()), readings)
      ensures State() == StateAfter(old(State()), readings)
      ensures decoded == ProducedBy(readings)
      ensures s.conn != null ==>
                && s.conn.written == old(s.conn.written) + ResentBy(readings, ok)
                && s.conn.failed == (old(s.conn.failed) || SomeFailed(readings, ok))
      ensures forall i :: 0 <= i < used - 1 ==> results[i].Frame?
      ensures old(pending) != [] ==> used == 0
      ensures Turned(old(pending), decoded, event, used > 0 && !results[used - 1].Frame?, pending)
      ensures used > 0 && !results[used - 1].Frame? ==>
                event == if results[used - 1].Lifecycle? then Some(results[used - 1].event) else None
      ensures (used == 0 || results[used - 1].Frame?) && event.None? ==> used == |results|
    {
      hide Digest, Classify, Produced, Resends, SomeFail, RangesOver, Affected, OnFrame;
      hide FramesOf, WiresOf, StateAfter, ProducedBy, Walked, ResentBy, SomeFailed, Turned;
      used, decoded, readings := 0, [], [];
      NothingRead(State(), ok);
      while pending == []
        invariant used <= |results| && |readings| == used
        invariant forall i :: 0 <= i < used ==> results[i].Frame?
        invariant old(pending) != [] ==> used == 0
        invariant pending == old(pending) + decoded
        invariant used == 0 ==> decoded == []
        invariant WiresOf(readings) == FramesOf(results[..used]) && Walked(old(State()), readings)
        invariant State() == StateAfter(old(State()), readings)
        invariant decoded == ProducedBy(readings)
        invariant s.conn != null ==> s.conn.written == old(s.conn.written) + ResentBy(readings, ok)
        invariant s.conn != null ==> s.conn.failed == (old(s.conn.failed) || SomeFailed(readings, ok))
        decreases |results| - used
      {
        if used == |results| {
          NothingTurned(old(pending), pending);
          return None, used, decoded, readings;
        }
        var r := results[used];
        FramesOneMore(results, used);
        match r {
          case Lifecycle(e) =>
            PastTheQueue(e);
            return Some(e), used + 1, decoded, readings;
          case Terminal =>
            NothingTurned(old(pending), pending);
            return None, used + 1, decoded, readings;
          case Frame(w) =>
            var out, order := Decode(w, OnFrame(ok, used));
            OneMoreReading(old(State()), readings, Reading(w, order), ok);
            pending, decoded, readings := out, decoded + out, readings + [Reading(w, order)];
        }
        used := used + 1;
      }
      FromTheQueue(old(pending), decoded, pending);
      event := Some(pending[0]);
      pending := pending[1..];
    }
  }
}
