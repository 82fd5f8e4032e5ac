/** The wire format of the account socket (ws.go): channels, the two frames a
    client may send, the frames a server sends, and how a served frame is read. */
module Frames {
  import opened Wrappers
  import Strings

  /** The channel names of channelNames, and every other spelling. */
  datatype Name =
    | Trades | Book | Candles
    | Orders | Fills | Positions | Balances | Liquidations
    | OtherName(text: string)

  datatype Channel = Channel(name: Name, market: string)

  predicate KnownName(name: Name) { !name.OtherName? }

  predicate PerMarket(name: Name) { name.Trades? || name.Book? || name.Candles? }

  /** The op tags of served frames, and every other spelling. */
  datatype Tag = SubscribedTag | UnsubscribedTag | EventTag | OutOfSyncTag | ErrorTag | OtherTag(text: string)

  predicate Valid(ch: Channel) {
    && KnownName(ch.name)
    && (PerMarket(ch.name) ==>
          ch.market != "" && forall i :: 0 <= i < |ch.market| ==> !Strings.IsSpace(ch.market[i]))
  }

  /** The only two ops a client can send. A Subscribe resumes after `since`. */
  datatype ClientFrame =
    | Subscribe(channel: Channel, since: Option<nat>)
    | Unsubscribe(channel: Channel)

  /** A served frame after JSON parsing; `NotJson` is one that did not parse. */
  datatype Wire =
    | NotJson
    | Json(op: Tag, channel: Name, market: Option<string>, seqNo: Option<nat>,
           seqAtJoin: Option<nat>, oldestSeq: Option<nat>, message: string, payload: string)

  /** What a served frame turns out to be. */
  datatype Inbound =
    | Ack(channel: Channel, seqNo: nat)
    | Left(channel: Channel)
    | Update(channel: Channel, seqNo: nat, payload: string)
    | Lost(channel: Channel, oldest: nat)
    | Fault(message: string)
    | Bad

  datatype Event =
    | Subscribed(channel: Channel, seqAtJoin: nat)
    | Unsubscribed(channel: Channel)
    | ChannelEvent(channel: Channel, seqNo: nat, payload: string)
    | OutOfSync(channel: Channel, oldest: nat)
    | ServerError(message: string)
    | Unrecognized(frame: Wire)
    | Disconnected(stale: bool)
    | Reconnected

  // An error frame is recognised before its channel is looked at, and an
  // unknown channel before the op.
  function Classify(w: Wire): Inbound {
    match w
    case NotJson => Bad
    case Json(op, name, market, seqNo, seqAtJoin, oldest, message, payload) =>
      var ch := Channel(name, if market.Some? then market.value else "");
      if op == ErrorTag then Fault(message)
      else if !KnownName(name) then Bad
      else if op == SubscribedTag && seqAtJoin.Some? then Ack(ch, seqAtJoin.value)
      else if op == UnsubscribedTag then Left(ch)
      else if op == EventTag && seqNo.Some? then Update(ch, seqNo.value, payload)
      else if op == OutOfSyncTag then Lost(ch, if oldest.Some? then oldest.value else 0)
      else Bad
  }

  // How a server spells the frames of one channel; an empty market is served as null.
  function ServedMarket(ch: Channel): Option<string> {
    if ch.market == "" then None else Some(ch.market)
  }

  function AckFrame(ch: Channel, head: nat): Wire {
    Json(SubscribedTag, ch.name, ServedMarket(ch), None, Some(head), None, "", "")
  }

  function UpdateFrame(ch: Channel, seqNo: nat, payload: string): Wire {
    Json(EventTag, ch.name, ServedMarket(ch), Some(seqNo), None, None, "", payload)
  }

  function LostFrame(ch: Channel, oldest: nat): Wire {
    Json(OutOfSyncTag, ch.name, ServedMarket(ch), None, None, Some(oldest), "", "")
  }

  function LeftFrame(ch: Channel): Wire {
    Json(UnsubscribedTag, ch.name, ServedMarket(ch), None, None, None, "", "")
  }

  function ErrorFrame(message: string): Wire {
    Json(ErrorTag, OtherName(""), None, None, None, None, message, "")
  }

  /** Reading a served frame gives back what the server meant by it. */
  lemma ServedFramesReadBack(ch: Channel, n: nat, payload: string)
    requires KnownName(ch.name)
    ensures Classify(AckFrame(ch, n)) == Ack(ch, n)
    ensures Classify(UpdateFrame(ch, n, payload)) == Update(ch, n, payload)
    ensures Classify(LostFrame(ch, n)) == Lost(ch, n)
    ensures Classify(LeftFrame(ch)) == Left(ch)
    ensures Classify(ErrorFrame(payload)) == Fault(payload)
  {
  }

  /** Which channels may be subscribed: any of the eight names, and a market's own channels only with
      a market that is not empty and has no white space in it. */
  lemma ValidMeans(name: Name, market: string)
    ensures Valid(Channel(name, market)) <==>
              match name
              case OtherName(_) => false
              case Orders => true
              case Fills => true
              case Positions => true
              case Balances => true
              case Liquidations => true
              case Trades => Spelled(market)
              case Book => Spelled(market)
              case Candles => Spelled(market)
  {
    forall i | 0 <= i < |market| ensures Strings.IsSpace(market[i]) <==> market[i] in Strings.SPACES {
      Strings.SpacesAre(market[i]);
    }
    hide Strings.IsSpace, Strings.SPACES;
  }

  predicate Spelled(market: string) { market != "" && forall c :: c in market ==> c !in Strings.SPACES }
}
