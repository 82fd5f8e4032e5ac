# Verification model of the Nexus exchange Go SDK

This project models the parts of the SDK whose promises are about whole runs, exact
arithmetic or search, and proves those promises for every input. `dafny verify
dfyconfig.toml` checks it.

* **Account socket** (`Frames`, `Sockets`, `Subscriptions`; `Lifecycle`, `Slots`, `Cursors`,
  `Resume`, `Agreement`, `PublishedLog`, `CursorFlow`, `Traffic`, `Payloads`, `NoSilentLoss`, `Delivery`,
  `Leaving`, `AckOrder`, `DoubleSubscribe`, `Resubscribe`). The classes `Socket` and `Subscription` carry the source's fields and
  methods. Each method is proved against functions of the state, and the run theorems are
  about machines built from those same functions: callers, the reading goroutine, the
  keepalive, the server and the network step in any order, and the connection may be lost
  between any two steps.
* **Rate limiter** (`RateLimit`, `Refunds`, `Routing`, `Prices`, `Limiters`, `Adoption`). Levels are exact integers of
  nano-tokens, times are nanoseconds, and the pinned cost table is written out.
* **Decimals and rounding** (`Decimals`, `Trimming`, `Rounding`): the literal grammar, a
  printer and a reader that are inverse to each other, and rounding over exact rationals.
* **Schema conformance** (`Schemas`, `Conformance`, `Keywords`, `Places`, `Ranking`, `Findings`,
  `Sorting`, `Checkers`): flattening of `$ref` and `allOf`, the report of a value, the relation it
  decides, what each keyword means and where its findings go, and the checker object that
  computes it.
* **Candle history** (`Candles`, `History`), **signing** (`Nonce`, `Canonical`), **retries**
  (`Retry`) and the **release gate** (`ReleaseGate`).

## What the theorems assume

* *Resuming.* A server answers a `since` with `out_of_sync`, or with the full replay in order
  followed by the ack, or with an error frame. `AckOrder.SafeIffAckLast` shows that the order
  of replay and ack is exactly what is needed. The channel is subscribed only while it is not,
  and only once nothing about it is on its way; `Leaving` shows what a caller can go by, and
  `DoubleSubscribe` and `Resubscribe` are runs that fail otherwise. Sequence numbers of a
  channel start above 0 and rise.
* *Window bound.* It is stated for reservations with nondecreasing clocks and no adoption,
  block or refund in between; from an adoption on it is `Adoption.AdoptionBoundsCharges`; `RateLimit.BackwardClockBreaksBound` and
  `Refunds.RefundBunchesReleases` show why, and `Refunds.NetWindowBound` is what holds with refunds.
* *Conformance.* The walk ends only when no schema it can reach leads back to itself through
  `oneOf` or `anyOf` alone. `Conformance.Ranked` says so with heights over those schemas, and
  `Ranking` shows which specs have them. A part nested past the depth limit is unchecked: it
  conforms, and a warning is reported.

## Where the code and its documentation disagree

* A cancel is documented as never waiting. With an empty order id the path no longer matches
  the cancel route, and the request is paced (`Limiters.UnnamedCancelIsPaced`).
* The candle walk is documented to yield a window once and to end. A page that starts at
  timestamp 1 makes it ask for endTime 0, which is not sent, so it starts over from now. It is
  exact if and only if that does not happen, and no page reaches timestamp 0 above a negative
  StartTime (`History.ExactIffNoPageStartsAtOne`); it ends if and only if starting over does not
  lead back to timestamp 1 (`History.EndsIffItDoesNotCircle`).
* RoundPrice is documented to round away from the other side of the book. It does, if and only
  if the price is nonnegative or a whole number of ticks (`Rounding.SidesNeverCross`).
* `retryable` documents that decode failures are not retried. They are, unless the decoder
  blames the syntax or the type of the body: a body cut off inside its value, one with bytes
  after it, one of whitespace only, and one a custom decoder refuses are all retried
  (`Retry.RetriedUnlessBlamed`, `Retry.CutOffAndTrailingAreRetried`).
* Every agent nonce is documented to increase. It does if and only if the closed form of the
  nonce fits 64 bits (`Nonce.NoncesRise`), which one clock reading before 1970 can prevent
  (`Nonce.OldClockStartsOver`).

## Model

| member | source | states |
|---|---|---|
| `Frames.ServedFramesReadBack` | ws.go:313-356 | every frame kind a server sends about a known channel is read back as what the server meant, a null market included |
| `Frames.ValidMeans` | ws.go:50-97 | which channels may be subscribed: the eight names, and trades, book and candles only with a market that is not empty and has no white space in it |
| `Sockets.Conn.Write` | socket.go:264-271 | a write adds the frame to the connection's history, or marks the connection faulty and adds nothing |
| `Sockets.Alive.Stop` | socket.go:170-178 | the first cause a keepalive context is given stays |
| `Sockets.Keepalive` | socket.go:144-166 | the context ends as stale and the connection is closed exactly when a ping times out after nothing but answered ones; any other failure leaves both alone |
| `Sockets.SlotPool.TryAcquire` | socket.go:101-106 | a token is taken if and only if fewer than 5 are held |
| `Sockets.SlotPool.Take` | socket.go:116 | a token is given back; only an empty pool would block |
| `Sockets.Socket.Release` | socket.go:116 | a socket gives its token back on the first release only |
| `Sockets.Socket.AdoptConn` | socket.go:118-139 | a dialled connection is adopted only by an open socket whose greeting was written, dated now and with nothing delivered on it yet; closed and refused leave every field as it was |
| `Sockets.Socket.StopAlive` | socket.go:170-178 | reports stale exactly when the keepalive had already declared this connection dead |
| `Sockets.Socket.ReadFailed` | socket.go:182-227 | the whole state and verdict after a failed read: closed before context error before Disconnected, delay reset only after a healthy connection |
| `Sockets.Socket.Wait` | socket.go:231-243 | the delay doubles within its bounds, the sleep drawn never exceeds it, and what ends the sleep decides the error |
| `Sockets.Socket.CloseSocket` | socket.go:245-262 | the first Close drops connection and keepalive and frees the slot; every later one changes nothing |
| `Sockets.Socket.Open` | socket.go:101-139 | opening takes one token or fails full; the backoff bounds are set and the one connection attempt is adopted; a failed one gives the token back without blocking |
| `Lifecycle.RunKeepsInv` | socket.go:118-262 | in every run alive is set exactly when conn is set and pinging is on, a closed socket has no conn, and a context is stale exactly when its own keepalive declared it dead |
| `Lifecycle.UpMeansConnected` | socket.go:182-227 | after a Reconnected, until a Disconnected or context error, the socket holds a connection or is closed |
| `Lifecycle.ReconnectsAreSeparated` | socket.go:182-227 | two Reconnected events always have a Disconnected or a context error between them |
| `Lifecycle.ClosedForGood` | socket.go:118-139 | once closed, every continuation keeps conn and alive nil and returns no Reconnected |
| `Lifecycle.StaleIffDeclaredDead` | socket.go:170-227 | a Disconnected is ErrConnectionStale if and only if that connection's keepalive declared it dead before the failed read was handled |
| `Lifecycle.RunDates` | socket.go:133-206 | in every run the opening time is that of the newest connection, and delivered is set exactly when a frame was read since it was made |
| `Lifecycle.OnlyHealthResets` | socket.go:133-219 | a failed read resets the backoff if and only if a frame was read since that connection was made, or it was made five seconds or longer before the failure |
| `Lifecycle.CloseComesFirst` | socket.go:184-226 | what read returns at every step of every run: after Close a failed read, a look and a connection made too late all return ErrStreamClosed, before the context is asked |
| `Lifecycle.NextDelayDoubles` | socket.go:231-232 | one step of the delay recurrence is one step of min(minDelay * 2^(k-1), maxDelay) |
| `Lifecycle.BackoffDoubles` | socket.go:217-243 | in every run the k-th wait since a reset uses the delay min(minDelay * 2^(k-1), maxDelay) |
| `Lifecycle.DefaultDelays` | socket.go:107 | with the bounds openSocket sets the waits are capped at 0.5, 1, 2, 4, 8 and 16 seconds, and at 30 seconds from then on |
| `Slots.StepKeepsInv` | socket.go:19-23 | every step of every socket keeps tokens equal to the sockets opening, open or closing, at most 5 |
| `Slots.SlotsAreConserved` | socket.go:19-116 | over all runs of all sockets tokens are the sockets not yet released, at most 5, and a release never blocks |
| `Slots.OneTokenEach` | socket.go:101-116 | whether its open failed or it was closed any number of times, a socket gives back exactly one token |
| `Slots.FiveAtMost` | socket.go:19-106 | an open gets a slot exactly when fewer than five sockets hold one |
| `Subscriptions.Subscription.Open` | ws.go:208-224 | one invalid channel refuses the whole call; otherwise the subscription holds exactly the given channels and no cursor |
| `Subscriptions.Subscription.FrameOf` | ws.go:252-258 | a subscribe carries the channel's cursor as since when there is one; an unsubscribe never does |
| `Subscriptions.Subscription.SubscribeTo` | ws.go:263-286 | the channel stays subscribed even if the write fails; an invalid channel or a closed socket changes nothing; exactly one frame is written, after the update |
| `Subscriptions.Subscription.UnsubscribeFrom` | ws.go:271-286 | the channel and its cursor go even if the write fails; exactly one frame is written |
| `Subscriptions.Subscription.Hello` | ws.go:235-242 | a greeting that succeeds subscribes every channel exactly once from its cursor; it succeeds if and only if every write does |
| `Subscriptions.Subscription.Advance` | ws.go:360-366 | the cursor moves to a higher seq of a subscribed channel and otherwise stays |
| `Subscriptions.Subscription.Resync` | ws.go:373-389 | exactly the named subscriptions lose their cursor, get one OutOfSync each and are subscribed again without since; which those are is stated by OutOfSyncStartsOver |
| `Subscriptions.Subscription.Decode` | ws.go:313-356 | state, events and frames written for every kind of frame, malformed and unknown ones included; every event quotes its frame, and an out_of_sync starts over what its name and market say |
| `Subscriptions.EventsQuoteFrames` | ws.go:313-356 | an event repeats the fields of its frame: seq, seq_at_join, payload, oldest_seq and message; a frame gives one event unless it is an out_of_sync, and is Unrecognized exactly when it is no JSON, of an unknown channel or op, or without its seq |
| `Subscriptions.OutOfSyncStartsOver` | ws.go:367-389 | by name and market alone: an out_of_sync without a market drops the cursor of every subscription of its channel, with one that subscription's; each is reported once with the oldest seq and subscribed again once without since; all other cursors stay |
| `Subscriptions.Subscription.Next` | ws.go:296-307 | a call decodes exactly the frames it reads, in order: their events, the state they leave and the frames their resyncs write are given; it returns the oldest undelivered event, or what read reports once nothing is pending, and what it did not return stays queued in order |
| `Cursors.SubsAreTheJoined` | ws.go:263-273 | a channel is subscribed exactly when it was joined and not left since |
| `Cursors.StepKeepsHighest` | ws.go:263-389 | each call and each decoded frame keeps the cursor the highest seq seen |
| `Cursors.CursorIsHighestSeen` | ws.go:360-389 | only subscribed channels have a cursor, and it is the maximum seq over acks and events decoded while subscribed since the last Unsubscribe or matching out_of_sync, absent if there were none |
| `Cursors.NextIsReplayed` | ws.go:296-366 | a call of Next moves the cursors as the history of the frames it read does, so the maximum holds of it |
| `Cursors.ResubscribeCarriesCursor` | ws.go:235-258 | every reconnect subscribes each channel once, with exactly that maximum as since |
| `Agreement.AskedGreeting` | ws.go:235-242 | the greeting adds up to exactly the subscriptions, in whatever order the map is walked |
| `Agreement.ResendsAskNothingNew` | ws.go:373-389 | what a resync writes does not change what the connection has asked for |
| `Agreement.StepKeepsAgreement` | ws.go:235-389 | every step of callers, reader, server and network keeps client and server in agreement |
| `Agreement.ClientAndServerAgree` | ws.go:235-389 | in every run, while the socket has a connection with no failed write, the subscribe and unsubscribe frames written on it fold to exactly subs, and the server streams nothing that was not asked for |
| `Agreement.CaughtUpServerKnowsSubs` | ws.go:263-286 | from the start: a server that has read every frame of a fault-free connection was asked for exactly subs |
| `NoSilentLoss.StepKeepsInv` | ws.go:235-389 | the invariant of the resume protocol survives every step, a lost connection at any point included |
| `NoSilentLoss.NothingHeldBack` | ws.go:340-349 | with nothing in flight on a connection that streams the channel, its cursor stands at the newest published seq |
| `Payloads.StepKeepsTold` | ws.go:340-347 | every frame on its way and every event decoded carries the payload published under its seq, whatever step is taken |
| `Payloads.PublishedStays` | ws.go:340-347 | what was published under a seq stays published under it, word for word |
| `NoSilentLoss.NoLossWithoutNotice` | ws.go:235-389 | over every run, for a channel subscribed only while it is not and only once nothing about it is on its way, from any point where it holds a cursor and until an OutOfSync or an Unsubscribe of it, the events decoded are exactly the published ones between the cursors, in order, none skipped or repeated, each with the payload it was published with |
| `Leaving.SubscribedOnceIsLoyal` | ws.go:263-273 | a channel subscribed once and never unsubscribed meets that condition on every run |
| `Leaving.UnsubscribedMeansAbsent` | ws.go:270-286 | so does one whose Unsubscribes on a connection without a failed write have all been answered and decoded, or whose connection was lost |
| `Delivery.NextIsFifo` | ws.go:289-307 | over any number of calls, Next returns everything the frames it read produce, once, in the order it was decoded |
| `Delivery.RunProduces` | ws.go:313-356 | what a run decodes is what the frames it read produce, in order |
| `Delivery.NextReturnsWhatWasPublished` | ws.go:235-389 | no silent loss as the caller sees it: if the calls of Next read the frames of a run, what they return for the channel is a prefix of what was published after its cursor, and all of it up to the next resubscribe's since once the queue is empty; items are pairs of seq and payload |
| `AckOrder.SafeIffAckLast` | ws.go:340-342 | cutting a replay anywhere loses nothing below the cursor if and only if the ack comes after the whole replay |
| `DoubleSubscribe.SubscribingTwiceRepeatsEvents` | ws.go:263-286 | a run in which a channel subscribed twice is handed one event twice with no notice, so the once-only hypothesis is needed |
| `Resubscribe.ResubscribingLosesAnEvent` | ws.go:270-286 | a run in which a channel left and at once joined again loses an event with no notice, so nothing of it may be on its way |
| `RateLimit.Bucket.Adopt` | internal/transport/ratelimit.go:193-197 | the bucket's limit, level and timestamp are the reported ones, the level capped at the limit; what that allows is stated by Adoption |
| `RateLimit.Bucket.BlockUntil` | internal/transport/ratelimit.go:199-203 | a block only ever moves later |
| `RateLimit.Bucket.Reserve` | internal/transport/ratelimit.go:210-226 | refill, capped charge, debt and wait of one reservation |
| `RateLimit.Bucket.Wait` | internal/transport/ratelimit.go:230-248 | a wait reserves, leaves the bucket to other callers while it sleeps and, if cancelled, refunds its capped charge up to the limit of that moment; one due at once does not sleep |
| `RateLimit.LevelNeverExceedsLimit` | internal/transport/ratelimit.go:193-248 | in every run, clocks going backwards included, the level stays at or below the limit and a limit once set is never 0 again |
| `RateLimit.TatRecurrence` | internal/transport/ratelimit.go:210-226 | the lazy level and timestamp refine the theoretical-arrival-time recurrence F' = max(now - 1s, F) + charge/limit |
| `RateLimit.ReleasesAreFifo` | internal/transport/ratelimit.go:210-226 | within an epoch with nondecreasing clocks, requests are released in the order they reserved |
| `RateLimit.WindowBound` | internal/transport/ratelimit.go:205-226 | the charges of reservations j..k are at most limit * (release k - release j) + limit, plus under one nanosecond's worth for waits cut to whole nanoseconds |
| `RateLimit.BackwardClockBreaksBound` | internal/transport/ratelimit.go:213-219 | with clock readings 10s, 0s, 10s three tokens leave at once on a budget of one a second, so the bound needs nondecreasing clocks |
| `RateLimit.RefundIsExact` | internal/transport/ratelimit.go:230-248 | a reservation that ran a deficit and is cancelled by its due time leaves the level at every later time, and every later wait, as if it had never been made, whatever else was reserved meanwhile |
| `RateLimit.RefundOfBlockedWaitOverpays` | internal/transport/ratelimit.go:230-248 | a wait caused by a 429 block instead of a deficit can be refunded more than it took |
| `Refunds.RefundIsExactIff` | internal/transport/ratelimit.go:210-248 | whatever a reservation waited for and whenever it is cancelled, its refund leaves the bucket at every later time as if it had never been made if and only if no reservation in between finds that the bucket without it had already been full |
| `Refunds.NetWindowBound` | internal/transport/ratelimit.go:205-248 | with refunds of any kind included, what was charged and not refunded from the start of an epoch to a release is at most limit * elapsed + limit, plus under one nanosecond's worth |
| `Refunds.RefundBunchesReleases` | internal/transport/ratelimit.go:230-248 | between two later releases that fails: a cancelled wait, though exactly refunded, has pushed the release behind it together with a later one |
| `Refunds.CancelledWaitIsForgotten` | internal/transport/ratelimit.go:230-248 | a wait that is due is sent whatever becomes of its context; one that is cancelled while it sleeps leaves the bucket as if never made exactly when no refill was lost meanwhile |
| `Routing.MatchTemplate` | internal/transport/ratelimit.go:91-102 | the segment loop decides exactly whether a path fits a template, a hole taking any non-empty segment |
| `Routing.Lookup` | internal/transport/ratelimit.go:72-86 | one pass returns a literal row wherever it stands, else the first template that fits |
| `Routing.LiteralBeforeTemplate` | internal/transport/ratelimit.go:70-89 | for any table, a row with the request's own path is found wherever it stands, else the first template that fits, and none only if there is neither |
| `Routing.EscapedReadsBack` | orders.go:238-240 | an order id reads back from the path it is escaped into, byte for byte |
| `Routing.CancelOrderClass` | orders.go:238-240 | the path of CancelOrder costs the cancel class for every non-empty order id and every market id, and the request class for an empty one |
| `Routing.CancelAllClass` | orders.go:184-188 | the path of CancelAllOrders costs the cancel class with and without a market |
| `Prices.OrdersArePriced` | internal/transport/ratelimit.go:49-68 | POST /orders and /orders/preview cost one order token, /orders/batch one and another per forty orders of its body |
| `Prices.EditsArePriced` | orders.go:152 | PATCH of an order costs one order token, for every non-empty id and every market |
| `Prices.HeavyReadsArePriced` | internal/transport/ratelimit.go:70-86 | portfolio history, summary, fills and order history cost five request tokens; /orders/history is not read as the order of that name |
| `Prices.TheRestIsPriced` | internal/transport/ratelimit.go:49-57 | a login costs its own budget, and a method the table does not have an ordinary request |
| `Limiters.Limiter.OneBucketPerClass` | internal/transport/ratelimit.go:113-145 | no two classes share a bucket, and a label names the bucket of a class exactly when it is that class's label |
| `Limiters.Limiter.Observe` | internal/transport/ratelimit.go:152-174 | which bucket a response's numbers and 429s reach, and that no other changes |
| `Adoption.AdoptionBoundsCharges` | internal/transport/ratelimit.go:152-226 | after a response reporting a limit L and a remaining R at t0, what is taken and not given back until a release at t is at most min(R, L) + L * (t - t0), plus under one nanosecond's worth, whatever is reserved and refunded |
| `Adoption.WhatRemainsIsSentAtOnce` | internal/transport/ratelimit.go:152-226 | with no block pending, requests at t0 that together take at most min(R, L) are all released at t0 |
| `Adoption.OnlyReportsAreAdopted` | internal/transport/ratelimit.go:152-215 | numbers that are missing, negative or a zero limit, or about another bucket, change nothing; a bucket no response described paces nothing |
| `Adoption.RefusalHolds` | internal/transport/ratelimit.go:171-225 | after a 429 its bucket releases nothing before retry-after, and at least a second, has passed, whatever is reported, reserved or refunded meanwhile |
| `Adoption.OnlyRefusalsHold` | internal/transport/ratelimit.go:171-205 | no other response blocks a bucket, and a 429 for no longer than that |
| `Limiters.Limiter.Pace` | internal/transport/transport.go:166-172 | the pacing prologue charges the one bucket of the request's class, if it has one, and a cancelled wait ends the request and refunds it |
| `Limiters.CancelsAreNeverPaced` | internal/transport/transport.go:166-172 | in every limiter state, and even with its context ended, a cancel of a named order, or of everything, touches no bucket and waits for none |
| `Limiters.UnnamedCancelIsPaced` | internal/transport/ratelimit.go:49-102 | the one exception: with an empty order id the cancel is charged and made to wait as an ordinary request |
| `Limiters.ResponseTouchesNamedBucketOnly` | internal/transport/ratelimit.go:152-174 | a response changes at most one bucket, never one its label does not name, and none when the label is cancel |
| `Limiters.ClassesAreIsolated` | internal/transport/ratelimit.go:113-131 | a backlog in one class delays no request of another |
| `Limiters.WaitingIsSlept` | internal/transport/ratelimit.go:230-248 | the wait these are about is the one wait sleeps: a request whose context has ended is sent exactly when it is zero |
| `Limiters.RetryAfterDelay` | internal/transport/ratelimit.go:254-257 | the sleep is the server's retry-after, at least a second, plus at most half as much again |
| `Decimals.WriteRead` | internal/models/decimal.go:49-72 | writing what a literal says gives back the literal, digit for digit |
| `Decimals.ReadWrite` | internal/models/decimal.go:49-72 | every written number is a literal of the grammar and reads back as itself |
| `Decimals.ParsesWhatIsWritten` | internal/models/decimal.go:49-58 | exactly the texts some number is written as are accepted, each kept unchanged |
| `Trimming.TrimmedIsReduced` | rounding.go:55-57 | cutting trailing zeros and a trailing point writes the reduced form of the same value |
| `Trimming.CanonicalIsUnique` | rounding.go:55-59 | a value has one reduced form without a negative zero |
| `Trimming.CanonicalIsShortest` | rounding.go:55-59 | its text is shorter than every other literal of the value |
| `Rounding.PrintsExactly` | rounding.go:53-54 | printing a whole number of increments at the increment's decimal places loses nothing |
| `Rounding.RoundingPrintsShortest` | rounding.go:40-60 | for every value and every nonzero increment the trimmed text parses, so the discarded error cannot happen, is exact, is never -0 and is the one shortest literal of its value |
| `Rounding.RespellingChangesNothing` | rounding.go:40-60 | trailing zeros in value or increment do not change the result's text |
| `Rounding.RoundingTwiceIsOnce` | rounding.go:40-60 | rounding a rounded value gives the identical text |
| `Rounding.RoundingIsExtremal` | rounding.go:40-54 | for every sign of value and increment the result is a whole multiple, on the value's side of zero, less than one increment away, and no multiple toward (or away from) zero is nearer |
| `Rounding.RoundingIsMonotone` | rounding.go:40-54 | a larger value never rounds to a smaller one |
| `Rounding.OnGridIsFixed` | rounding.go:40-54 | a value on the grid keeps its value |
| `Rounding.NoGridChangesNothing` | rounding.go:14-47 | without a tick, or with one of zero however spelled, a price comes back letter for letter, and so does a size without a lot |
| `Rounding.SidesNeverCross` | rounding.go:8-31 | a Buy never rounds up and a Sell never down if and only if the price is nonnegative or a whole number of ticks; an unknown side is refused |
| `Rounding.SizeNeverGrows` | rounding.go:30-35 | a rounded size is the largest whole number of lots no larger than the size, on its side of zero |
| `Schemas.MergedKeyIsFirst` | internal/conformance/check.go:118-127 | in an allOf a keyword keeps the value of the first part that has it |
| `Schemas.MergedPropertyIsLast` | internal/conformance/check.go:128-132 | a property keeps the schema of the last part that declares it |
| `Schemas.NoPartHasProperty` | internal/conformance/check.go:128-132 | a property no part declares is not declared by the whole |
| `Schemas.MergedRequiredIsUnion` | internal/conformance/check.go:133-134 | a name is required exactly when some part requires it |
| `Schemas.RequiredInOrder` | internal/conformance/check.go:133-134 | required names are listed part by part, the schema's own first |
| `Schemas.MergedMeaning` | internal/conformance/check.go:115-142 | every keyword of the flattened object, present or not: the three merges, or the first part where a merge is empty |
| `Conformance.IsSound` | internal/conformance/check.go:207-318 | soundness and completeness: no error is reported if and only if the value satisfies the declarative relation Conforms, for every schema from which no reachable schema leads back to itself through oneOf or anyOf alone |
| `Keywords.TypeNameMeans` | internal/conformance/check.go:181-242 | type: a value conforms exactly when it is of the named type; every number is a number, and an integer is one written without fraction or exponent |
| `Keywords.TypeListMeans` | internal/conformance/check.go:145-158 | a list of types takes what any of its names takes; one without a name takes any value but null |
| `Keywords.RequiredMeans` | internal/conformance/check.go:250-258 | required: an object has every non-empty name listed; other values are not asked |
| `Keywords.PropertiesMean` | internal/conformance/check.go:259-274 | properties and additionalProperties: a field is asked what the property of its name says, else what additionalProperties says if it is a schema, else nothing |
| `Keywords.ItemsMean` | internal/conformance/check.go:277-292 | items and prefixItems: by place if there is a prefix list, which asks nothing of what comes after it, and else all alike |
| `Keywords.BranchesMean` | internal/conformance/check.go:160-166 | oneOf and anyOf mean the same, that some branch takes the value; anyOf is not looked at where there is a oneOf |
| `Keywords.OrNullMeans` | internal/conformance/check.go:168-178 | a oneOf of a type and of null takes that type and null |
| `Keywords.RefsMean` | internal/conformance/check.go:100-110 | up to sixteen references lead to the object they name; nothing behind more of them is looked at |
| `Keywords.AllOfMeans` | internal/conformance/check.go:111-127 | a keyword is read from the schema itself, else from the first schema of allOf that has it |
| `Places.TypeReport` | internal/conformance/check.go:213-242 | a wrong type is one error at the value's path naming its most specific type and the declared ones but null; null is reported as permitted or forbidden |
| `Places.RequiredReport` | internal/conformance/check.go:252-258 | each missing name is one error at its own path, in the order of the list |
| `Places.FieldReport` | internal/conformance/check.go:265-274 | findings on an object are those of its fields in turn, each under its name, or under {} for additionalProperties; an undeclared field is a warning |
| `Places.ItemReport` | internal/conformance/check.go:277-292 | findings on an array are those of its elements in turn, under [] or under their index; an empty one is noted below the top |
| `Places.OnlyNullReport` | internal/conformance/check.go:299-313 | a value where only null is declared is an error of its own |
| `Places.TooDeepReport` | internal/conformance/check.go:105-215 | a schema behind more than sixteen references conforms, with one warning |
| `Ranking.NumberedIsRanked` | internal/conformance/check.go:92-111 | the hypothesis holds of every schema when the components can be numbered so that each mentions, in $ref, allOf, oneOf and anyOf, only lower ones |
| `Ranking.RecursiveValuesAreRanked` | internal/conformance/check.go:160-178 | it holds of a component whose properties hold values of its own kind |
| `Ranking.NoBranchCycles` | internal/conformance/check.go:160-178 | it fails of every cycle through branches, of any length |
| `Conformance.BestIsFirstMinimum` | internal/conformance/check.go:294-312 | the branch reported is the first lexicographic minimum of (errors, warnings) among the branches that are not null only; none is reported exactly when all are |
| `Conformance.BestIsSound` | internal/conformance/check.go:296-312 | the best branch has no error exactly when some branch conforms |
| `Conformance.FieldsAreSound` | internal/conformance/check.go:259-274 | an object's fields report no error exactly when each conforms to its property, or else to additionalProperties |
| `Conformance.ItemsAreSound` | internal/conformance/check.go:277-292 | an array's items report no error exactly when each conforms to its prefixItems entry, or else to items |
| `Conformance.MissingIsSound` | internal/conformance/check.go:250-258 | required reports no error exactly when every required name is supplied |
| `Findings.MergingConservesCounts` | internal/conformance/check.go:73-91 | merging equal findings conserves the count of every severity |
| `Findings.ReplayIsFaithful` | internal/conformance/check.go:313-317 | replaying a branch's counted findings one by one gives the same list as reporting them in place |
| `Findings.EntriesAreDistinct` | internal/conformance/check.go:73-81 | no deviation has two entries |
| `Findings.MergeMeans` | internal/conformance/check.go:73-81 | what was seen before is counted where it stands, anything new goes last |
| `Checkers.FlattenSchema` | internal/conformance/check.go:100-143 | the recursive loops over $ref and allOf compute the flattened schema |
| `Checkers.MergeParts` | internal/conformance/check.go:115-142 | the merging loop computes the three merges |
| `Checkers.IsNullable` | internal/conformance/check.go:168-178 | the early-exit search decides whether null is permitted |
| `Checkers.Checker.Add` | internal/conformance/check.go:73-81 | a finding seen before is counted, a new one appended |
| `Checkers.Checker.Count` | internal/conformance/check.go:83-91 | the loop sums the counts of a severity |
| `Checkers.Checker.Walk` | internal/conformance/check.go:207-247 | a walk adds exactly the report of the value, note by note and in order |
| `Checkers.Checker.WalkObject` | internal/conformance/check.go:249-275 | likewise for required, properties, additionalProperties and undeclared fields |
| `Checkers.Checker.WalkArray` | internal/conformance/check.go:277-292 | likewise for prefixItems, items and the empty array |
| `Checkers.Checker.WalkBranches` | internal/conformance/check.go:296-318 | likewise for the best of the branches, each judged by a checker of its own |
| `Sorting.SortIsStable` | internal/conformance/check.go:59-64 | the sort loses nothing, orders by severity and path and keeps alike findings in the order they were found |
| `Sorting.GravestFirst` | internal/conformance/check.go:59-64 | errors stand before warnings and warnings before notes, and findings of one severity in the dictionary order of their paths |
| `Checkers.Check` | internal/conformance/check.go:37-66 | a response has no error counted if and only if it is JSON and conforms; the findings are the merged report in sorted order, their counts are the report's, and the item count is that of the elements of a list or a map, else one |
| `Candles.FetchHistory` | market.go:257-289 | the nested loops compute the walk, for a caller that breaks after any number of bars |
| `Candles.WalkFalls` | market.go:250-289 | against every server that serves the walk ascending pages, its requests fall strictly if and only if no page but the last starts at timestamp 1; then their number is bounded before the walk starts, whatever the caller takes |
| `Candles.EndTellsWhy` | market.go:257-289 | against every server the walk ends for exactly one cause, the one it reports: a failed request is never taken for the end of the history |
| `History.PagesIsCeiling` | market.go:247-257 | the page count is n / limit rounded up |
| `History.WalkIsExact` | market.go:247-289 | against a server of the latest limit bars at or before endTime, if no page of the walk starts at timestamp 1 and none reaches timestamp 0 above a negative StartTime, it yields exactly the bars in [StartTime, EndTime], each once, newest first, in at most ceil(n / limit) + 1 requests |
| `History.WalkStopsShort` | market.go:282-286 | if a page does reach timestamp 0 above a negative StartTime, the older bars of the window are missing |
| `History.WalkStartsOver` | market.go:112-116 | if a page does start at timestamp 1 the next endTime 0 is not sent and the walk starts over from the newest bar |
| `History.ExactIffNoPageStartsAtOne` | market.go:99-116 | every caller gets exactly the newest bars of the window if and only if no page of the walk starts at timestamp 1 and none reaches timestamp 0 above a negative StartTime |
| `History.CirclingNeverEnds` | market.go:257-289 | if starting over from now leads back to timestamp 1, every caller is served as many bars as it takes |
| `History.EndsIffItDoesNotCircle` | market.go:247-289 | the number of requests is bounded, whatever the caller takes, if and only if it does not lead back |
| `History.OneBarForever` | market.go:257-289 | a history of one bar at timestamp 1 is yielded over and over for as long as the caller takes bars |
| `Nonce.Agent.Sign` | internal/signing/agent.go:75-89 | each signature takes a nonce above the last one unless the last was 2^64 - 1; a refused request takes none |
| `Nonce.AgentsMoveNothing` | internal/signing/agent.go:90-102 | an agent key refuses exactly everything at or under /transfers and every write to a path with "withdraw" in it |
| `Nonce.HighestIsMaximum` | internal/signing/agent.go:70-82 | the closed form is max(last + n, max over i of ts_i + n - i) |
| `Nonce.ClosedForm` | internal/signing/agent.go:75-83 | for every clock reading and every interleaving, the n-th nonce is the closed form if and only if that fits 64 bits |
| `Nonce.HonestClocksNeverWrap` | internal/signing/agent.go:75-83 | with nonnegative clock readings it fits for any run of up to 2^63 requests |
| `Nonce.NoncesRise` | internal/signing/agent.go:70-83 | every nonce of a run is above all earlier ones, so that none repeats, if and only if the closed form fits 64 bits |
| `Nonce.RestartStaysAbove` | internal/signing/agent.go:70-89 | a restarted issuer stays above every nonce of the run before, wrapped runs included, if and only if its clock is past the highest of them whenever it starts over, or one of the two runs issues none |
| `Nonce.OldClockStartsOver` | internal/signing/agent.go:80-83 | a clock reading before 1970 makes the next nonce start over |
| `Canonical.AgentDecodes` | internal/signing/agent.go:50-54 | a newline splitter recovers all six fields of the agent's string |
| `Canonical.VerbIsCapital` | internal/signing/agent.go:52 | each of the 26 letters of the method is signed as its capital, and every other character as it is |
| `Canonical.HmacDecodes` | internal/signing/hmac.go:36-40 | and all five of the HMAC string |
| `Canonical.CanonicalsAreInjective` | internal/signing/agent.go:50-54 | two requests share a canonical string if and only if they are the same request, methods compared in upper case |
| `Canonical.SchemesNeverCollide` | internal/signing/hmac.go:28-40 | no HMAC string is an agent string |
| `Canonical.NewlineCollides` | internal/signing/agent.go:50-54 | a newline in path or query does make two requests share one string |
| `Retry.DelayDoubles` | internal/transport/transport.go:114-131 | the delay before attempt k is min(minDelay * 2^k, maxDelay) |
| `Retry.Get` | internal/transport/transport.go:107-133 | at most maxRetries + 1 attempts, each retry after a retryable failure, each backoff sleep within [d/2, d], each 429 sleep within the retry-after bounds, and which outcome is returned |
| `Retry.RetriedUnlessBlamed` | internal/transport/transport.go:262-279 | a body that never decodes is given up at once if and only if the decoder blames its syntax or its type, and otherwise asked for maxRetries + 1 times |
| `Retry.RetriedToTheEnd` | internal/transport/transport.go:262-279 | an outcome that stays the same is tried maxRetries + 1 times if it is a lost connection, a 429 about the rate, a 5xx other than 501 and 505, or a body that does not decode and blames neither syntax nor type; once otherwise |
| `Retry.OnlyThrottlingIsHonoured` | internal/transport/transport.go:114-131 | only after a 429 is retry-after slept, at least a second and at most half as much again; after other failures the sleep is within half of the capped doubling and all of it |
| `Retry.CancelledIsNotRetried` | internal/transport/transport.go:107-133 | a caller who cancels is not served another attempt |
| `Retry.CutOffAndTrailingAreRetried` | internal/transport/transport.go:233-244 | so a body cut off inside its value, one with bytes after it, one of whitespace and one a custom decoder refuses are each retried to the end |
| `Retry.BackoffIsBounded` | internal/transport/transport.go:114-131 | all backoff of one Get is at most minDelay * (2^maxRetries - 1) |
| `Retry.Send` | internal/transport/transport.go:139-154 | at most one attempt, on any outcome |
| `ReleaseGate.SmallestIsLeast` | scripts/release_gate/release_verdict.py:144-154 | the smallest breaking bump is the least version accepted as a breaking bump |
| `ReleaseGate.BreakingLeavesTheLine` | scripts/release_gate/release_verdict.py:133-150 | a bump is breaking exactly when it changes the breaking digit, and how that relates to major, minor and patch |
| `ReleaseGate.ListingIsLines` | scripts/release_gate/release_verdict.py:324-326 | two listings one below the other have the lines of both, and a single line is one entry unless it is blank |
| `ReleaseGate.VerdictIsInclusion` | scripts/release_gate/release_verdict.py:324-354 | breaking, additive and unchanged are exactly lost lines, strict inclusion and equality of the listings as multisets |
| `ReleaseGate.PassMeans` | scripts/release_gate/release_verdict.py:359-377 | a release passes if and only if it was classified, is above the published version and, if anything broke, is at least the version the failure message asks for |
| `ReleaseGate.VersionsRise` | scripts/release_gate/release_verdict.py:359-364 | versions rise along every chain of passed releases |
| `ReleaseGate.ChainsAreCompatible` | scripts/release_gate/release_verdict.py:346-377 | along any chain of passed, graded releases that ends on the line it started on, no step broke the spec and the first listing is a sub-multiset of the last |
| `ReleaseGate.UngradedMayBreak` | scripts/release_gate/release_verdict.py:346-377 | without the API graded a patch release may drop a line, which grading would have failed |
| `ReleaseGate.NothingToCompare` | scripts/release_gate/release_verdict.py:346-377 | a release with nothing published to compare with is graded by its spec alone |

## Left out

* Network, dialling, TLS and token minting: their outcomes are arguments of the methods and steps of the runs.
* JSON encoding and decoding: frames, schemas and bodies are parsed values, and the engine envelope is part of the opaque payload.
* Op tags and channel names are datatypes with a case for every other spelling; the messages of the error frames in `Resume` are empty because no step reads them.
* Order of map iteration: the greeting and a resync visit their channels in an arbitrary order, which every theorem quantifies over.
* The run theorems are over atomic steps, one per critical section of the mutex; the Go memory model is not modelled.
* NoSilentLoss.NoLossWithoutNotice: is about a channel that is subscribed only while it is not and only once nothing about it is on its way, because runs exist that fail without either (`DoubleSubscribe`, `Resubscribe`).
* Parsing of response headers, the clock-skew estimate and the headers signers set.
* RateLimit.WindowBound: allows less than one nanosecond's worth of tokens over limit * time + limit, because waits are cut to whole nanoseconds.
* Refunds.NetWindowBound: is about windows from the start of an epoch, because between later releases it fails (`Refunds.RefundBunchesReleases`).
* RateLimit.RefundIsExact: is about waits that came from a deficit and are cancelled by their due time; `Refunds.RefundIsExactIff` is the exact condition for every wait.
* Floating point: `level` is a float64 in the source and an exact integer here, and an elapsed time of any size refills it exactly.
* Overflow of 64-bit durations and token counts; only the nonce wraps, and `Nonce` models that.
* big.Rat is an exact real, and printing it at fixed places is written out in `Rounding.FloatString`.
* PathEscape works on characters below 256, each standing for one byte of the UTF-8 text.
* Upper-casing of methods covers the letters a to z.
* Hashes, HMAC, ECDSA and EIP-712: a body appears only as the hex of its hash.
* Messages of findings are a datatype; two messages of the source that happen to spell the same would merge there and not here.
* Reasons and messages of the release gate's verdict, version parsing, and everything it reads from git, registries and the network; a listing is split at newlines only.
* The public market stream, pagination by cursor, REST wrappers, session refresh, credential handling and error formatting: one call each, or weaker forms of what is modelled.
