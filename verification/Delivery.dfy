/** From the frames a run reads to what the caller of Next is handed (ws.go). */
module Delivery {
  import opened Wrappers
  import opened Frames
  import opened Subscriptions
  import opened Resume
  import opened CursorFlow
  import opened NoSilentLoss
  import opened Payloads

  /** One call of Next: the frames it read, what it returned, and whether that came past the queue. */
  datatype Turn = Turn(readings: seq<Reading>, event: Option<Event>, past: bool)

  // Successive calls of Next, as its contract describes them, with the queue between them.
  predicate Calls(turns: seq<Turn>, queues: seq<seq<Event>>) {
    && |queues| == |turns| + 1
    && forall i :: 0 <= i < |turns| ==>
         Turned(queues[i], ProducedBy(turns[i].readings), turns[i].event, turns[i].past, queues[i + 1])
  }

  function ReadBy(turns: seq<Turn>): seq<Reading> {
    if turns == [] then [] else ReadBy(turns[..|turns| - 1]) + turns[|turns| - 1].readings
  }

  // What a call takes from the queue.
  function Taken(t: Turn): seq<Event> { if t.event.Some? && !t.past then [t.event.value] else [] }

  // The events returned from the queue, in order.
  function Returned(turns: seq<Turn>): seq<Event> {
    if turns == [] then [] else Returned(turns[..|turns| - 1]) + Taken(turns[|turns| - 1])
  }

  lemma {:induction false} ProducedAppend(a: seq<Reading>, b: seq<Reading>)
    ensures ProducedBy(a + b) == ProducedBy(a) + ProducedBy(b)
  {
    hide Produced;
    if b == [] {
      assert a + b == a;
    } else {
      var n := |b| - 1;
      ProducedAppend(a, b[..n]);
      assert (a + b)[..|a + b| - 1] == a + b[..n];
      Regroup(ProducedBy(a), ProducedBy(b[..n]), Produced(b[n].wire, b[n].order));
    }
  }

  lemma Regroup(a: seq<Event>, b: seq<Event>, c: seq<Event>)
    ensures a + (b + c) == (a + b) + c
  {
  }

  lemma OneTurn(first: seq<Event>, rest: seq<Event>, before: seq<Event>, t: Turn, after: seq<Event>)
    requires first == rest + before && Turned(before, ProducedBy(t.readings), t.event, t.past, after)
    ensures first + ProducedBy(t.readings) == (rest + Taken(t)) + after
  {
    hide ProducedBy;
    var decoded := ProducedBy(t.readings);
    assert before + decoded == Taken(t) + after;
    assert first + decoded == rest + (before + decoded);
    assert rest + (Taken(t) + after) == (rest + Taken(t)) + after;
  }

  /** Next returns everything the frames it read produce, once, in the order it was decoded. */
  lemma {:induction false} NextIsFifo(turns: seq<Turn>, queues: seq<seq<Event>>)
    requires Calls(turns, queues)
    ensures queues[0] + ProducedBy(ReadBy(turns)) == Returned(turns) + queues[|turns|]
  {
    if turns == [] {
      assert queues[0] + [] == [] + queues[0];
    } else {
      var n := |turns| - 1;
      NextIsFifo(turns[..n], queues[..n + 1]);
      ReadLast(queues[0], turns);
      assert Turned(queues[n], ProducedBy(turns[n].readings), turns[n].event, turns[n].past, queues[n + 1]);
      assert Returned(turns) == Returned(turns[..n]) + Taken(turns[n]);
      hide *;
      OneTurn(queues[0] + ProducedBy(ReadBy(turns[..n])), Returned(turns[..n]), queues[n], turns[n], queues[n + 1]);
    }
  }

  lemma ReadLast(q: seq<Event>, turns: seq<Turn>)
    requires turns != []
    ensures var n := |turns| - 1;
            q + ProducedBy(ReadBy(turns)) == (q + ProducedBy(ReadBy(turns[..n]))) + ProducedBy(turns[n].readings)
  {
    var n := |turns| - 1;
    ProducedAppend(ReadBy(turns[..n]), turns[n].readings);
    assert ReadBy(turns) == ReadBy(turns[..n]) + turns[n].readings;
    hide ProducedBy, ReadBy;
    Regroup(q, ProducedBy(ReadBy(turns[..n])), ProducedBy(turns[n].readings));
  }

  // The frames a run decodes, with the order each resync walked.
  ghost function ReadingsOf(w: World, steps: seq<Step>): seq<Reading>
    requires Legal(w, steps)
    decreases |steps|
  {
    if steps == [] then []
    else
      (if steps[0].Decode? then [Reading(w.hand.value, steps[0].order)] else [])
      + ReadingsOf(Apply(w, steps[0]), steps[1..])
  }

  lemma StepDecodes(w: World, step: Step)
    requires Enabled(w, step)
    ensures step.Decode? ==> w.hand.Some?
    ensures Apply(w, step).decoded == w.decoded + if step.Decode? then Produced(w.hand.value, step.order) else []
  {
    hide Produced, Digest, Served, Resends;
  }

  lemma OneProduced(r: Reading)
    ensures ProducedBy([r]) == Produced(r.wire, r.order)
  {
    assert [r][..0] == [];
    hide Produced;
  }

  /** What a run decodes is what its frames produce, in the order it read them. */
  lemma {:induction false} RunProduces(w: World, steps: seq<Step>)
    requires Legal(w, steps)
    ensures Run(w, steps).decoded == w.decoded + ProducedBy(ReadingsOf(w, steps))
    decreases |steps|
  {
    hide Produced, Apply, Enabled, RangesOver;
    if steps != [] {
      var step := steps[0];
      var rest := ReadingsOf(Apply(w, step), steps[1..]);
      RunProduces(Apply(w, step), steps[1..]);
      StepDecodes(w, step);
      if step.Decode? {
        var r := Reading(w.hand.value, step.order);
        assert ReadingsOf(w, steps) == [r] + rest;
        OneProduced(r);
        ProducedAppend([r], rest);
        Regroup(w.decoded, Produced(r.wire, r.order), ProducedBy(rest));
      } else {
        assert ReadingsOf(w, steps) == [] + rest == rest;
        assert w.decoded + [] == w.decoded;
      }
    }
  }

  lemma ReturnedOrQueued(turns: seq<Turn>, queues: seq<seq<Event>>, ch: Channel)
    requires Calls(turns, queues) && queues[0] == []
    ensures |queues| == |turns| + 1
    ensures Received(ProducedBy(ReadBy(turns)), ch) == Received(Returned(turns), ch) + Received(queues[|turns|], ch)
    ensures Received([], ch) == []
  {
    hide Returned, ReadBy, ProducedBy;
    NextIsFifo(turns, queues);
    assert [] + ProducedBy(ReadBy(turns)) == ProducedBy(ReadBy(turns));
    ReceivedAppend(Returned(turns), queues[|turns|], ch);
  }

  /** No silent loss, as the caller of Next sees it. Let its calls read the frames that a run
      decodes. Then the events returned for a channel that holds a cursor are the published
      ones after it, in order and with their payloads, none skipped or repeated; once the queue
      is empty they reach the cursor the next resubscribe carries. */
  lemma NextReturnsWhatWasPublished(before: seq<Step>, after: seq<Step>, ch: Channel,
                                    turns: seq<Turn>, queues: seq<seq<Event>>)
    requires Valid(ch)
    requires Legal(INITIAL, before) && LoyalRun(INITIAL, before, ch)
    requires Legal(Run(INITIAL, before), after) && LoyalRun(Run(INITIAL, before), after, ch)
    requires StaysJoined(after, ch)
    requires Calls(turns, queues) && queues[0] == []
    requires ReadBy(turns) == ReadingsOf(Run(INITIAL, before), after)
    ensures var w, w' := Run(INITIAL, before), Run(Run(INITIAL, before), after);
            ch in w.client.cursors && !GapAnnounced(ProducedBy(ReadBy(turns)), ch) ==>
              && ch in w'.client.cursors
              && (var published := Published(w', ch, w.client.cursors[ch], w'.client.cursors[ch]);
                  && Received(Returned(turns), ch) <= published
                  && (queues[|turns|] == [] ==> Received(Returned(turns), ch) == published))
  {
    hide *;
    NoLossWithoutNotice(before, after, ch);
    ReturnedOrQueued(turns, queues, ch);
    RunProduces(Run(INITIAL, before), after);
    var w, w' := Run(INITIAL, before), Run(Run(INITIAL, before), after);
    assert w'.decoded[|w.decoded|..] == ProducedBy(ReadBy(turns));
  }
}
