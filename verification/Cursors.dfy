/** What a cursor means: over every history of calls and decoded frames it is the highest
    seq decoded for the channel while subscribed, since the last time it was forgotten. */
module Cursors {
  import opened Wrappers
  import opened Frames
  import opened Subscriptions

  /** One atomic change to the client. Drops, reconnects and Close change nothing here. */
  datatype Op = Join(channel: Channel) | Leave(channel: Channel) | Decoded(wire: Wire)

  function Apply(c: Client, op: Op): Client {
    match op
    case Join(ch) => Added(c, ch)
    case Leave(ch) => Removed(c, ch)
    case Decoded(w) => Digest(c, Classify(w))
  }

  function Replay(history: seq<Op>): Client {
    if history == [] then Client({}, map[])
    else Apply(Replay(history[..|history| - 1]), history[|history| - 1])
  }

  // Subscribed before step n: joined, and not left since.
  predicate JoinedBy(history: seq<Op>, n: nat, ch: Channel)
    requires n <= |history|
  {
    exists i :: 0 <= i < n && history[i] == Join(ch) && forall j :: i < j < n ==> history[j] != Leave(ch)
  }

  predicate Forgets(op: Op, ch: Channel) {
    op == Leave(ch) || (op.Decoded? && Classify(op.wire).Lost? && Names(Classify(op.wire).channel, ch))
  }

  predicate Carries(op: Op, ch: Channel, seqNo: nat) {
    op.Decoded? && match Classify(op.wire)
                   case Ack(c, n) => c == ch && n == seqNo
                   case Update(c, n, _) => c == ch && n == seqNo
                   case _ => false
  }

  // Step i decoded this seq for a subscribed ch, and nothing after it forgot it.
  predicate Seen(history: seq<Op>, i: int, ch: Channel, seqNo: nat) {
    && 0 <= i < |history| && Carries(history[i], ch, seqNo) && JoinedBy(history, i, ch)
    && forall j :: i < j < |history| ==> !Forgets(history[j], ch)
  }

  ghost predicate IsHighest(history: seq<Op>, ch: Channel, cursor: Option<nat>) {
    && (cursor.Some? ==> exists i :: Seen(history, i, ch, cursor.value))
    && (forall i, n: nat :: Seen(history, i, ch, n) ==> cursor.Some? && n <= cursor.value)
  }

  lemma {:induction false} SubsAreTheJoined(history: seq<Op>, n: nat, ch: Channel)
    requires n <= |history|
    ensures ch in Replay(history[..n]).subs <==> JoinedBy(history, n, ch)
  {
    if n > 0 {
      SubsAreTheJoined(history, n - 1, ch);
      assert history[..n][..n - 1] == history[..n - 1];
      var op := history[n - 1];
      if op == Join(ch) {
        assert JoinedBy(history, n, ch);
      } else if op != Leave(ch) && JoinedBy(history, n - 1, ch) {
        var i :| 0 <= i < n - 1 && history[i] == Join(ch) && forall j :: i < j < n - 1 ==> history[j] != Leave(ch);
        assert JoinedBy(history, n, ch);
      }
    }
  }

  lemma SeenBefore(history: seq<Op>, op: Op, i: int, ch: Channel, seqNo: nat)
    requires i < |history|
    ensures Seen(history + [op], i, ch, seqNo) <==> Seen(history, i, ch, seqNo) && !Forgets(op, ch)
  {
    var h := history + [op];
    if 0 <= i {
      assert JoinedBy(h, i, ch) <==> JoinedBy(history, i, ch) by {
        assert h[..i] == history[..i];
        SubsAreTheJoined(h, i, ch);
        SubsAreTheJoined(history, i, ch);
      }
      if Seen(h, i, ch, seqNo) {
        assert Forgets(h[|history|], ch) == false;
        forall j | i < j < |history| ensures !Forgets(history[j], ch) { assert !Forgets(h[j], ch); }
      }
    }
  }

  lemma StepKeepsHighest(history: seq<Op>, op: Op, ch: Channel)
    requires Replay(history).cursors.Keys <= Replay(history).subs
    requires IsHighest(history, ch, SinceOf(Replay(history), ch))
    ensures IsHighest(history + [op], ch, SinceOf(Apply(Replay(history), op), ch))
  {
    var c, h := Replay(history), history + [op];
    var cursor, cursor' := SinceOf(c, ch), SinceOf(Apply(c, op), ch);
    var last := |history|;
    assert h[..last] == history;
    SubsAreTheJoined(h, last, ch);
    forall i, n: nat | Seen(h, i, ch, n) ensures cursor'.Some? && n <= cursor'.value {
      if i < last {
        SeenBefore(history, op, i, ch, n);
      }
    }
    if cursor'.Some? {
      if cursor' == cursor && !Forgets(op, ch) {
        var i :| Seen(history, i, ch, cursor.value);
        SeenBefore(history, op, i, ch, cursor.value);
      } else {
        assert Seen(h, last, ch, cursor'.value);
      }
    }
  }

  /** Cursor refinement: only subscribed channels have one, and it is the highest seq
      decoded for the channel while subscribed since its last Unsubscribe or matching
      out_of_sync; there is none exactly when nothing was decoded since. */
  lemma {:induction false} CursorIsHighestSeen(history: seq<Op>, ch: Channel)
    ensures Replay(history).cursors.Keys <= Replay(history).subs
    ensures IsHighest(history, ch, SinceOf(Replay(history), ch))
  {
    if history != [] {
      var n := |history| - 1;
      CursorIsHighestSeen(history[..n], ch);
      assert history == history[..n] + [history[n]];
      StepKeepsHighest(history[..n], history[n], ch);
    }
  }

  function Decodes(readings: seq<Reading>): seq<Op> {
    seq(|readings|, i requires 0 <= i < |readings| => Decoded(readings[i].wire))
  }

  /** A call of Next moves the cursors by exactly the frames it read, so what is said here of
      histories holds of it. */
  lemma {:induction false} NextIsReplayed(history: seq<Op>, readings: seq<Reading>)
    ensures StateAfter(Replay(history), readings) == Replay(history + Decodes(readings))
  {
    hide Digest, Classify;
    if readings == [] {
      assert history + Decodes(readings) == history;
    } else {
      var n := |readings| - 1;
      NextIsReplayed(history, readings[..n]);
      assert history + Decodes(readings) == (history + Decodes(readings[..n])) + [Decoded(readings[n].wire)];
      assert ((history + Decodes(readings[..n])) + [Decoded(readings[n].wire)])[..|history| + n] == history + Decodes(readings[..n]);
    }
  }

  /** Every reconnect subscribes each channel once, from exactly that cursor. */
  lemma ResubscribeCarriesCursor(history: seq<Op>, order: seq<Channel>, ch: Channel)
    requires RangesOver(order, Replay(history).subs)
    ensures var hello := Greeting(Replay(history), order);
            if JoinedBy(history, |history|, ch) then
              exists since ::
                && IsHighest(history, ch, since)
                && multiset(hello)[Subscribe(ch, since)] == 1
                && forall i :: 0 <= i < |hello| && hello[i].channel == ch ==> hello[i] == Subscribe(ch, since)
            else forall i :: 0 <= i < |hello| ==> hello[i].channel != ch
  {
    var c := Replay(history);
    var hello := Greeting(c, order);
    assert history[..|history|] == history;
    SubsAreTheJoined(history, |history|, ch);
    CursorIsHighestSeen(history, ch);
    hide Replay, JoinedBy, IsHighest;
    if ch in c.subs {
      GreetedOnce(c, order, ch);
    }
  }

  lemma GreetedOnce(c: Client, order: seq<Channel>, ch: Channel)
    requires RangesOver(order, c.subs) && ch in c.subs
    ensures var hello := Greeting(c, order); var f := SubscribeFrame(c, ch);
            && multiset(hello)[f] == 1
            && forall i :: 0 <= i < |hello| && hello[i].channel == ch ==> hello[i] == f
  {
    hide SinceOf;
    var hello := Greeting(c, order);
    var k :| 0 <= k < |order| && order[k] == ch;
    var f := SubscribeFrame(c, ch);
    assert hello == hello[..k] + [f] + hello[k + 1..];
    assert f !in hello[..k] && f !in hello[k + 1..];
  }
}
