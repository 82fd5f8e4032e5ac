/** The one thing resuming needs of the server: a subscribed ack moves the cursor, so a
    replay is safe against a lost connection exactly when its ack comes last. */
module AckOrder {
  import opened Wrappers
  import opened Frames
  import opened Subscriptions
  import opened Resume
  import opened PublishedLog
  import opened CursorFlow

  // A reply to a resume after `since` with the ack put after the first k events.
  function Arranged(log: seq<nat>, said: map<nat, string>, ch: Channel, since: nat, k: nat): seq<Wire>
    requires k <= |Between(log, since, Head(log))|
  {
    var missed := Between(log, since, Head(log));
    Updates(ch, missed[..k], said) + [AckFrame(ch, Head(log))] + Updates(ch, missed[k..], said)
  }

  function DecodedAll(c: Client, frames: seq<Wire>): Client {
    if frames == [] then c
    else Digest(DecodedAll(c, frames[..|frames| - 1]), Classify(frames[|frames| - 1]))
  }

  // The seqs of ch's events among the frames: what Next hands out.
  function Handed(frames: seq<Wire>, ch: Channel): seq<nat> {
    if frames == [] then []
    else
      var n := |frames| - 1;
      var f := Classify(frames[n]);
      Handed(frames[..n], ch) + if f.Update? && f.channel == ch then [f.seqNo] else []
  }

  function Resuming(ch: Channel, since: nat): Client { Client({ch}, map[ch := since]) }

  // Cut the connection after any n frames: everything up to the cursor has been handed out.
  ghost predicate SafeToCut(log: seq<nat>, ch: Channel, since: nat, reply: seq<Wire>) {
    forall n :: 0 <= n <= |reply| ==>
      var c := DecodedAll(Resuming(ch, since), reply[..n]);
      ch in c.cursors && Handed(reply[..n], ch) == Between(log, since, c.cursors[ch])
  }

  lemma {:induction false} PrefixInOrder(pos: Option<nat>, frames: seq<Wire>, n: nat, log: seq<nat>, ch: Channel)
    requires n <= |frames| && InOrder(pos, frames, log, ch)
    ensures InOrder(pos, frames[..n], log, ch)
  {
    if n < |frames| {
      PrefixInOrder(pos, frames[..|frames| - 1], n, log, ch);
      assert frames[..|frames| - 1][..n] == frames[..n];
    } else {
      assert frames[..n] == frames;
    }
  }

  // Frames in order hand out exactly what the cursor moves over.
  lemma {:induction false} InOrderHandsOut(log: seq<nat>, ch: Channel, since: nat, frames: seq<Wire>)
    requires Increasing(log) && InOrder(Some(since), frames, log, ch)
    requires forall i :: 0 <= i < |frames| ==> !Classify(frames[i]).Lost?
    ensures var c := DecodedAll(Resuming(ch, since), frames);
            && c.subs == {ch} && ch in c.cursors && since <= c.cursors[ch]
            && Final(Some(since), frames, ch) == Some(c.cursors[ch])
            && Handed(frames, ch) == Between(log, since, c.cursors[ch])
  {
    if frames == [] {
      NothingBetween(log, since, since);
    } else {
      var n := |frames| - 1;
      InOrderHandsOut(log, ch, since, frames[..n]);
      var c, f := DecodedAll(Resuming(ch, since), frames[..n]), Classify(frames[n]);
      var p := c.cursors[ch];
      DigestMoves(c, f, log, ch);
      if f.Update? && f.channel == ch {
        BetweenSingle(log, p, f.seqNo);
        BetweenSplits(log, since, p, f.seqNo);
      }
    }
  }

  function PosOf(pos: Option<nat>): nat { if pos.Some? then pos.value else 0 }

  lemma AckLastIsSafe(log: seq<nat>, said: map<nat, string>, ch: Channel, since: nat)
    requires Increasing(log) && KnownName(ch.name) && since <= Head(log)
    ensures SafeToCut(log, ch, since, Arranged(log, said, ch, since, |Between(log, since, Head(log))|))
  {
    hide InOrder, Final, Between, DecodedAll, Handed;
    var missed := Between(log, since, Head(log));
    var reply := Arranged(log, said, ch, since, |missed|);
    assert missed[..|missed|] == missed && missed[|missed|..] == [];
    assert reply == Reply(log, said, ch, Some(since), true);
    ReplyInOrder(log, said, ch, Some(since), true, Some(since));
    forall n | 0 <= n <= |reply|
      ensures var c := DecodedAll(Resuming(ch, since), reply[..n]);
              ch in c.cursors && Handed(reply[..n], ch) == Between(log, since, c.cursors[ch])
    {
      PrefixInOrder(Some(since), reply, n, log, ch);
      InOrderHandsOut(log, ch, since, reply[..n]);
    }
  }

  // Decoding one more frame.
  lemma DecodeOneMore(c: Client, frames: seq<Wire>, f: Wire, ch: Channel)
    ensures DecodedAll(c, frames + [f]) == Digest(DecodedAll(c, frames), Classify(f))
    ensures Handed(frames + [f], ch) ==
            Handed(frames, ch) + if Classify(f).Update? && Classify(f).channel == ch then [Classify(f).seqNo] else []
  {
    assert (frames + [f])[..|frames|] == frames;
  }

  lemma EarlyAckIsNotSafe(log: seq<nat>, said: map<nat, string>, ch: Channel, since: nat, k: nat)
    requires Increasing(log) && KnownName(ch.name) && since <= Head(log)
    requires k < |Between(log, since, Head(log))|
    ensures !SafeToCut(log, ch, since, Arranged(log, said, ch, since, k))
  {
    hide InOrder, Final, Between, DecodedAll, Handed, Replays;
    var missed := Between(log, since, Head(log));
    var reply, first, ack := Arranged(log, said, ch, since, k), Updates(ch, missed[..k], said), AckFrame(ch, Head(log));
    assert reply[..k + 1] == first + [ack];
    FirstEvents(log, said, ch, since, k);
    DecodeOneMore(Resuming(ch, since), first, ack, ch);
    assert Classify(ack) == Ack(ch, Head(log));
    assert Handed(reply[..k + 1], ch) == missed[..k] != missed;
    assert DecodedAll(Resuming(ch, since), reply[..k + 1]).cursors[ch] == Head(log);
  }

  // After the first k events of a replay the cursor is no further than the head.
  lemma FirstEvents(log: seq<nat>, said: map<nat, string>, ch: Channel, since: nat, k: nat)
    requires Increasing(log) && KnownName(ch.name) && since <= Head(log)
    requires k <= |Between(log, since, Head(log))|
    ensures var first := Between(log, since, Head(log))[..k];
            var c := DecodedAll(Resuming(ch, since), Updates(ch, first, said));
            && c.subs == {ch} && ch in c.cursors && c.cursors[ch] <= Head(log)
            && Handed(Updates(ch, first, said), ch) == first
  {
    hide InOrder, Final, Between, DecodedAll, Handed;
    var missed := Between(log, since, Head(log));
    var first := Updates(ch, missed[..k], said);
    assert first == Updates(ch, missed, said)[..k];
    ReplayInOrder(log, said, since, Some(since), ch);
    PrefixInOrder(Some(since), Updates(ch, missed, said), k, log, ch);
    InOrderHandsOut(log, ch, since, first);
    HandedUpdates(missed[..k], said, ch);
    FinalBounded(Some(since), first, log, ch);
  }

  lemma {:induction false} FinalBounded(pos: Option<nat>, frames: seq<Wire>, log: seq<nat>, ch: Channel)
    requires InOrder(pos, frames, log, ch) && PosOf(pos) <= Head(log)
    ensures PosOf(Final(pos, frames, ch)) <= Head(log)
  {
    if frames != [] {
      FinalBounded(pos, frames[..|frames| - 1], log, ch);
    }
  }

  lemma {:induction false} HandedUpdates(seqNos: seq<nat>, said: map<nat, string>, ch: Channel)
    requires KnownName(ch.name)
    ensures Handed(Updates(ch, seqNos, said), ch) == seqNos
  {
    if seqNos != [] {
      var n := |seqNos| - 1;
      HandedUpdates(seqNos[..n], said, ch);
      assert Updates(ch, seqNos, said)[..n] == Updates(ch, seqNos[..n], said);
      assert Classify(Updates(ch, seqNos, said)[n]) == Update(ch, seqNos[n], Text(said, seqNos[n]));
    }
  }

  /** Wherever the connection is lost, nothing below the cursor is missing, if and only
      if the server sends its ack after the whole replay. */
  lemma SafeIffAckLast(log: seq<nat>, said: map<nat, string>, ch: Channel, since: nat, k: nat)
    requires Increasing(log) && KnownName(ch.name) && since <= Head(log)
    requires k <= |Between(log, since, Head(log))|
    ensures SafeToCut(log, ch, since, Arranged(log, said, ch, since, k)) <==> k == |Between(log, since, Head(log))|
  {
    if k < |Between(log, since, Head(log))| {
      EarlyAckIsNotSafe(log, said, ch, since, k);
    } else {
      AckLastIsSafe(log, said, ch, since);
    }
  }
}
