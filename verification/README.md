# TAK Bench, verified

TAK Bench drives a CoT server with many simulated clients and reports what was sent, received, dropped and
routed. This project models the parts of it whose correctness the reports rest on, and proves what they promise.

* **The codec.** `CotStreamDecoder.Push` cuts complete events out of a TCP stream. `Segmentation` proves that how
  the stream is cut into reads never matters; `StreamGrammar` states, without mentioning the search, exactly which
  frames are found, which bytes are discarded and when a frame is too large. `CotXml` proves that escaping is one
  simultaneous replacement with a left inverse and that every document holds one frame; `CotReader` is an
  independent reader that finds every value of an event where it belongs.
* **The send loop.** `Sender` is the loop of one connection as a function of its wake-ups and of the fate of its
  link, `SendLoop` the same loop on a mutable batch, writer, metrics and ledger. `Conservation` proves that every
  event produced is counted as sent or as dropped, once, on every way out. `Outgoing` is the fragmenter.
  `Outcomes` says, from the wake-ups, the configuration and the link alone, when the loop ends, what it makes and
  where its writes fall. `Abandonment` is about the loops that do not come to an end, but are dropped where they stand.
* **The shared ledger.** `SharedLedger` is the two maps behind their lock, with the order in which all tasks took it;
  `Ledger` reads the routing verdict from that order, and `Totals` counts the entries over all participants.
* **End to end.** `RoundTrip` proves that what the loop hands over, cut by the fragmenter and re-cut by the network,
  decodes to exactly the documents sent; `Delivery` carries this on through the read loop (`ReadLoop`) and the
  shared ledger to the routing verdict. `InvalidEvents` says what the deliberately invalid events do to
  a receiver.
* **The participants.** `Participants` is the dial, connect and reconnect loop of N concurrent participants, one
  touch of shared state per step; `Lifecycles` and `Interleavings` prove what holds in every state of every
  schedule, `Cancellation` which phases stop and deadline reach, and `Supervision` what stops a run at all: the
  harness's own wait at the barrier and the abort threshold on failed connections (`Thresholds`, `Alarm`) are part
  of the machine. `Dialogues` proves that a participant under any schedule does what the loop does on its own, that it
  counts what it was told, and reads its verdict from the last answer. `Harness` runs the steps on mutable shared objects. `Witnesses` are concrete runs.
* **The numbers.** `Scheduler` (start delays), `Backoff`, `Cadence` (how fast a participant can send), `Credentials`,
  `Durations`, and `Safety` with `Limits`: what the validation accepts, and what an accepted configuration promises
  of the whole run.

## How the program is modelled

* A byte is a `char`: the codec compares bytes for equality only. Strings are their UTF-8 bytes. XML checking
  (`validate_xml`) is an arbitrary predicate on frames, event inspection an arbitrary function.
* A connection's fate is a `Link`: the write in progress when `breaksAt` bytes are due fails, after any number of
  its bytes. That is every way in which a write can fail or time out. `Wake` and `Arrival` are what the two loops'
  `select!` woke up to, in any order and number. What other tasks enter in the ledger and
  add to the shared counters meanwhile is an arbitrary parameter of both.
* Participants are interleaved steps. Each counter update, the mark, the barrier's check and the wait behind it are
  steps of their own, so the gap between the check (src/scenarios.rs:92) and the wait (src/scenarios.rs:96) is in the
  model. A refused dial counts as a reconnect failure whenever reconnect is on, even the first one
  (src/scenarios.rs:384-387), as the code has it.
* Texts that formatters print (times, coordinates, UUIDs) are taken to hold no `<`, no `"` and no `&` where a theorem
  needs it. Correlation ids are taken to be fresh where a theorem says so. Time is in nanoseconds.
* The ticker is assumed to fire its k-th tick no earlier than k periods after its creation.

## What turned out otherwise

* An error loses the events cut before it in the same push, so the events delivered before an error do depend on the
  reads (`ErrorLosesItsPush`). `DeliveredBeforeError` says which are delivered, and `NothingIsLostExactly` that none
  is lost if and only if the failing push completes none.
* Parsing a duration panics exactly on digits alone, or nothing, with white space around them (`PanicsExactly`;
  `SpacedDigitPanics` for one).
* Printing a duration drops what is below a second (`PrintedReadsBack`).
* The base pause before a reconnect doubles up to its maximum only while the attempt is below 32 or the minimum is
  large enough (`BaseDoubles`), and jitter may carry the pause beyond the configured maximum
  (`MaximumHoldsExactly`).
* Validation accepts the rate of 2^-64 events a second, whose interval is longer than any duration
  (`IntervalFitsExactly`); computing it panics. Among doubles it is the only such rate.
* A malformed or unterminated event takes the well-formed document behind it along (`BrokenEventSwallowsNext`).
* docs/scenarios.md promises invalid events bounded by `max_events`. The bound starts afresh with each connection
  (`InvalidPerRun`), so it holds of a whole run if and only if it is zero or there is no second connection
  (`BoundHoldsExactly`), which is to say that it is zero, reconnect is off or `max_attempts` is zero
  (`BoundHoldsByConfig`); `Twice` is a run with twice as many.
* The wait at the barrier does not watch the run's deadline, only its own, which may lie later. A participant there
  finishes under cancellation if and only if the run is stopped, the barrier's own deadline is past or everyone
  required is ready (`CancellationFinishes`, `BarrierIgnoresRunDeadline`); `BarrierOutlastsRun` is a run in which it
  stays.
* docs/safety.md:9 says that a participant failure cancels the others. The code collects its error
  (src/scenarios.rs:245-257) and goes on. A run is stopped if and only if the signal is given, the harness's own wait
  at the barrier ends late, or the threshold on failed connections is exceeded (`StopHasThreeCauses`). So a run may be
  stopped without the signal if and only if a barrier is configured, or a threshold below the number of attempts
  that all participants may make (`StopsUnsignalledExactly`). `FailureCancelsNobody` is a run with neither, in which
  another participant goes on after a failure; `FailureEndsAtBarrier` one in which a failure stops nobody until the
  barrier's deadline. A required participant that is lost before it connects keeps everyone from sending
  (`LostParticipantHoldsAll`).
* A threshold on failed connections of one or more, all of them or above, can be exceeded: attempts and failures are
  read one after the other (src/metrics.rs:116-118), and failures in between go into the ratio. It is exceeded in some
  run if and only if it is below the attempts that all participants may make (`NeverAborts`, `RefusalsAbort`).
* docs/safety.md:9 also says that pending batches are discarded and counted. In the send-receive role, the default
  (src/config.rs:311), a loop is dropped with its batch when the reader ends first (src/scenarios.rs:580-585), and the
  batch is counted nowhere. The counters of a run balance if and only if every loop returned or was dropped with
  nothing on its hands (`BalancedExactly`); they always do, whatever happens, in every role but this one
  (`AlwaysBalancesExactly`). `HeldEventIsLost` is a loop dropped after one tick: one event produced, none sent, none
  counted as dropped. At most a batch is lost with each (`AtMostABatch`).
* A repeated receipt overwrites the time of the first (src/scenarios.rs:629), so a routing assertion measures its
  timeout against the last receipt; `ExpectedReadsLog` says so.

## Model

| member | source | states |
|---|---|---|
| Decoder.CotStreamDecoder.Push | src/protocol.rs:156-191 | the loop that drains the buffer leaves the buffer and returns the events or the error that `Decode` assigns to the old buffer and the new bytes |
| Marker.Position | src/protocol.rs:160-170 | the window scan finds the first occurrence of a marker, and reports none only if there is none |
| Segmentation.DecodeSplit | src/protocol.rs:156-191 | pushing `a + b` is pushing `a`, then `b`: it fails exactly when one of the two does, with the same error and, in all, the same events; on success the residual buffer is the same too |
| Segmentation.FeedIsDecode | src/protocol.rs:156-191 | for every starting buffer and every segmentation the decoder succeeds or fails as one push of everything does: on success with the same events and buffer, else with the same error and a prefix of the events |
| Segmentation.DeliveredBeforeError | src/protocol.rs:156-191 | the events delivered before an error are those of the longest run of successful pushes, and the next push is the first that fails |
| Segmentation.NothingIsLostExactly | src/protocol.rs:156-191 | an error loses no event if and only if the push that fails completes none of its own |
| Segmentation.RestIsSettled | src/protocol.rs:159-191 | a buffer left by a successful push holds nothing more to cut |
| Segmentation.NextExtends | src/protocol.rs:159-189 | one turn of the loop does the same when more bytes follow; where it waits, they are all that is missing |
| StreamGrammar.DecodeReads | src/protocol.rs:159-189 | the whole input is the discarded gaps, the emitted frames and a tail, in order; no gap contains `<event`, and the tail is as the verdict says |
| StreamGrammar.DecodeFollows | src/protocol.rs:159-189 | conversely, any such reading of a stream is the one the decoder finds |
| StreamGrammar.LimitIsExact | src/protocol.rs:171-184 | a frame is reported too large exactly when the first unacceptable frame is longer than the limit, complete or not |
| StreamGrammar.XmlIsExact | src/protocol.rs:185-187 | an XML error is reported exactly when the first unacceptable frame fits and is not well-formed |
| StreamGrammar.SuccessIsExact | src/protocol.rs:156-191 | a push succeeds exactly on acceptable frames followed by a tail that may still become one |
| StreamGrammar.FrameIsCut | src/protocol.rs:166-188 | one gap and one frame: rejected for size only beyond the limit, for XML only if invalid, else emitted whole |
| StreamGrammar.FrameIsLong | src/protocol.rs:170-178 | a frame is at least as long as both its markers, which never overlap |
| StreamGrammar.GapLeadsToFrame | src/protocol.rs:160-169 | `<event` never straddles the edge of a gap and a frame |
| StreamGrammar.KeptIsBounded | src/protocol.rs:160-177 | after a successful push at most the limit, or five bytes, are kept |
| StreamGrammar.ErrorLosesItsPush | src/protocol.rs:156-191 | an event in the same push as a later over-long frame is lost; in a push of its own it is delivered |
| CotXml.EscapeIsAtOnce | src/protocol.rs:57-64 | the five replacements in sequence are one simultaneous replacement |
| CotXml.EscapeRoundTrip | src/protocol.rs:57-64 | a reader of the predefined entities (section 4.6 of XML 1.0) gets the value back |
| CotXml.EscapeInjective | src/protocol.rs:57-64 | no two values are escaped alike |
| CotXml.EscapeHasNoMarkup | src/protocol.rs:57-64 | no `<`, `>`, `"` or `'` survives, and a value without the five characters is unchanged |
| CotXml.DocumentIsFrame | src/protocol.rs:25-48 | whatever uid and callsign, a document holds `<event` only at its start and `</event>` only at its end, so it is one frame |
| CotReader.DocumentReadsBack | src/protocol.rs:25-48 | reading a document by element and attribute names, with entities, gives back every field of the event |
| CotReader.DocumentElements | src/protocol.rs:25-48 | a document is read as the template's nine tags in order, each with all its attributes in order and their values, constants included |
| CotReader.CorrelationReads | src/protocol.rs:33-34 | the correlation id stands where the receiving side looks for it |
| Outgoing.WriteFragmented | src/scenarios.rs:833-852 | however a payload is cut, the peer gets the same bytes and the same payloads fail; the completed writes are the fragments, a proper prefix of them on failure |
| Outgoing.Fragments | src/scenarios.rs:842-850 | the fragments concatenate to the payload, for every chunk list, zeros included |
| Outgoing.FragmentSize | src/scenarios.rs:843-849 | fragment `j` has the size of item `j` of the chunk list, gone through again and again, or one byte where that is zero; only the last may be shorter |
| Outgoing.CarryConcat | src/scenarios.rs:848 | two writes in a row put on the wire, and fail, as one write of both |
| Outgoing.ConnectionWriter.WriteAll | src/connection.rs:98-109 | a write delivers all of its bytes, or fails after some or all of them |
| Conservation.ProducedIsSentOrDropped | src/scenarios.rs:638-701 | on every return of the loop, events produced = sent + dropped; drops are local unless a write failed, and then none is |
| Conservation.StepKept | src/scenarios.rs:653-694 | any wake-up keeps the account: what is not out is in the batch, or the loop has settled |
| Conservation.RunKept | src/scenarios.rs:652-699 | over any run; on the wire are the sent events, then at most a part of the failed ones |
| Conservation.OversizeMeetsEmptyBatch | src/scenarios.rs:661-662 | an over-sized frame is only produced while the batch is empty, so the flush in front of it never fails |
| Conservation.LeakBehindABatch | src/scenarios.rs:661-668 | with a batch in front of it, a failed flush would leave exactly one event uncounted |
| Conservation.InvalidComeFirst | src/scenarios.rs:819-831 | the invalid events of a connection are exactly the first ones, up to the bound |
| Conservation.FlushKept | src/scenarios.rs:742-776 | a flush sends the whole batch, or fails and counts all of it as dropped |
| Conservation.FlushedAreValidSent | src/scenarios.rs:671-673 | a connection enters in the ledger one id for each event sent that is not invalid |
| Outcomes.RunEnds | src/scenarios.rs:652-701 | the loop handles the wake-ups up to the first that tells it to finish (a stop, the deadline, or the tick of the last event allowed), one event for each tick, unless a failed write or an over-long batch ends it before |
| Outcomes.FinishesExactly | src/scenarios.rs:684-701 | it returns well if and only if it was told to and no write and no batch ended it |
| Outcomes.AbruptIsExact | src/scenarios.rs:684-693 | with an abrupt disconnect, never more events than configured, at least one, and going on means fewer |
| Outcomes.WritesFall | src/scenarios.rs:655-683 | over-sized events are written alone, of the others every `events_per_write` are one write and the rest is in the batch or dropped from it; a failed write drops exactly its own events, at the break of the link; a batch is too large only beyond 8388608 bytes |
| Outcomes.RunMakes | src/scenarios.rs:655-659 | the `k`-th event is made on the `k`-th tick, with its id and time: below the bound the invalid text of the configured kind, else a document that reads back the participant, the fixed place and the tick's texts |
| Outcomes.InvalidTexts | src/scenarios.rs:806-816 | the five invalid texts, letter by letter |
| Totals.SentEntriesAreValidSent | src/scenarios.rs:764-774 | for every log of all participants, their connections and their interleavings, with fresh ids: the ledger's sent entries are the events counted as sent less the invalid ones |
| Abandonment.CountersMissTheLost | src/scenarios.rs:571-585 | over the loops of all participants and connections, produced = sent + dropped + lost, where lost are the events in the hands of loops that were dropped: between wake-ups, in a write or at the ledger's lock |
| Abandonment.BalancedExactly | src/scenarios.rs:580-585 | produced = sent + dropped if and only if every loop returned, or was dropped with an empty batch between wake-ups or behind a write |
| Abandonment.AtMostABatch | src/scenarios.rs:580-585 | a dropped loop loses one batch at most, and less than one between wake-ups |
| Abandonment.AlwaysBalancesExactly | src/scenarios.rs:536-586 | the counters balance in all runs of a role exactly if it is not the send-receive role |
| Abandonment.HeldEventIsLost | src/scenarios.rs:580-585 | a loop dropped after one tick: produced 1, sent 0, dropped 0 |
| Abandonment.TickPassesCuts | src/scenarios.rs:655-683 | the places where a loop can be dropped in a tick lie on the tick's way: one that is not dropped goes on from there as the loop's function says |
| Abandonment.TickWritesExactly | src/scenarios.rs:661-683 | a tick comes to a write exactly if it ends with a failed one, or goes on with nothing held |
| SharedLedger.SentCountsFlushes | src/scenarios.rs:767-772 | with fresh ids the ledger holds one entry for each flush of any participant |
| SharedLedger.FlushesBySender | src/scenarios.rs:767-772 | the flushes in a log are the sum of each sender's own |
| SharedLedger.DuplicatesByReceiver | src/scenarios.rs:628-629 | the duplicates in a log are the sum of what each receiver's sessions counted |
| SendLoop.SendPositions | src/scenarios.rs:638-701 | the loop over its mutable batch, writer, metrics and shared ledger ends as the function `Run` says, whatever other tasks enter in the ledger and add to the shared counters between its wake-ups |
| SendLoop.WovenIsInterleaving | src/scenarios.rs:206-230 | of all that is entered while the loop runs, its own flushes are its marks in order, and every other task's operations are that task's, in its order |
| SendLoop.Awake | src/scenarios.rs:653-695 | one wake-up in place is one step of the function |
| SendLoop.FlushBatch | src/scenarios.rs:742-776 | the flush in place: wire, counters, ledger and batch |
| SendLoop.EmitAlone | src/scenarios.rs:661-668 | the over-sized branch in place |
| SendLoop.EmitBatched | src/scenarios.rs:669-683 | the batching branch in place, with its size limit |
| SharedLedger.CorrelationLedger.RecordFlush | src/scenarios.rs:767-772 | the drain of a batch into the ledger, in order: the log grows by its flushes, and the maps hold what the log says |
| SharedLedger.CorrelationLedger.RecordReceipt | src/scenarios.rs:628-629 | a receipt overwrites the time, and is a duplicate exactly when the receiver had the id before; the log grows by it |
| SendLoop.OutgoingBatch.Add | src/scenarios.rs:670-674 | an event joins the batch; its id only if it is valid |
| Metrics.MessageMetrics.RecordLocalDrop | src/scenarios.rs:718-725 | a local drop counts as local and as dropped |
| Metrics.MessageMetrics.RecordWriteFailure | src/scenarios.rs:727-740 | a failed write counts as dropped, and as timed out if it was |
| RoundTrip.SentIsReceived | src/scenarios.rs:638-701 | invalid events off: for any wake-ups, break of the link, chunk list and segmentation, the receiver reports no error and gets every document sent, in order, and nothing that was not produced |
| RoundTrip.DocumentsDecode | src/protocol.rs:156-191 | documents within the limit, written one after the other, decode to themselves and leave nothing behind |
| RoundTrip.RunProducesDocuments | src/scenarios.rs:655-659 | with invalid events off every event produced is a document |
| RoundTrip.PrefixDecodes | src/protocol.rs:156-191 | no prefix of a well-formed stream fails or decodes otherwise |
| InvalidEvents.BrokenEventSwallowsNext | src/scenarios.rs:806-808 | a malformed or unterminated event waits in the receiver's buffer, unless it is beyond the limit already, and becomes one frame with the document behind it, which is refused for its size or its XML or comes out whole |
| InvalidEvents.BadValuesAreFrames | src/scenarios.rs:812-815 | events with bad coordinates or times are cut as frames of their own |
| InvalidEvents.OversizedIsRefused | src/scenarios.rs:809-811 | the over-sized event is refused as too large by a decoder with the sender's limit, however it is read |
| ReadLoop.ReadEvents | src/scenarios.rs:589-636 | whatever other tasks enter in the ledger and add to the shared counters between two receipts: a session counts exactly the readable events among those the decoder delivers from what it hears before it ends, enters their ids in order, counts its duplicates and silences, and ends in the stated way |
| ReadLoop.HearsExactly | src/scenarios.rs:607-620 | a session goes on through reads, and through silences if it tolerates them; the first other arrival ends it as timed out, closed, failed or over, and every silence is counted, the last one too |
| ReadLoop.Read | src/scenarios.rs:609-632 | one read: the decoder's events are counted until one cannot be inspected |
| ReadLoop.Receive | src/scenarios.rs:626-632 | one event: received is counted, and a correlated one is new or a duplicate |
| Delivery.FlushedAreReceived | src/scenarios.rs:589-636 | without a failed write, a receiver of the stream counts exactly as many events as were sent, and enters exactly the flushed ids in order |
| Delivery.ExchangePasses | src/scenarios.rs:854-909 | in any log, among whatever any other task did: the assertion between a sender and a receiver passes exactly when something was flushed and all of it was heard in time |
| Delivery.RunPassesRouting | src/scenarios.rs:638-909 | from the send loop's wake-ups to the verdict of `evaluate_routing`, in any log: where the receiver's session read the run's stream, the assertion passes exactly when something was flushed and each receipt was in time |
| Delivery.RelayPassesExactly | src/scenarios.rs:854-909 | through a relay that forwards documents of any senders in any order and may lose some, for a sender with any number of connections: the assertion passes exactly when something was flushed and each flushed id is in the stream and was received in time |
| Delivery.RelayPassesRouting | src/scenarios.rs:854-909 | if none was lost: exactly when the receipt at each flushed document's place in the stream was in time |
| Delivery.ReaderFinds | src/protocol.rs:113-123 | the reader of documents finds the id of every document that a run makes |
| Ledger.ExpectedReadsLog | src/scenarios.rs:866-892 | an expected receiver passes exactly when something was flushed and each flushed event was last received within the assertion's own timeout, or thirty seconds without one |
| Ledger.ForbiddenReadsLog | src/scenarios.rs:893-905 | a forbidden receiver passes exactly when something was flushed and nothing of it received |
| Ledger.CountsReadLog | src/scenarios.rs:866-898 | the reported counts are the numbers of flushed ids received within that time, and received at all |
| Ledger.VerdictReadsLog | src/scenarios.rs:854-909 | all results pass exactly when the log meets every assertion for every receiver it names |
| Ledger.ResultsNamePairs | src/scenarios.rs:870-906 | the results name sender, receiver and expectation: expected receivers in order, then forbidden ones |
| Ledger.NeverBothPass | src/scenarios.rs:870-905 | an expected and a forbidden assertion for one pair never both pass |
| Ledger.LedgerIgnoresSchedule | src/scenarios.rs:51-55 | any two interleavings that keep every task's own order leave the same ledger |
| Ledger.VerdictIgnoresSchedule | src/scenarios.rs:260-261 | and so the same routing verdict |
| Ledger.ReceiptsAreSeenOrDuplicate | src/scenarios.rs:626-632 | correlated receipts = entries seen + duplicates, across all receivers and connections |
| Lifecycles.NextIsFair | src/scenarios.rs:316-398 | any step of any participant moves every counter by exactly what it counts, keeps the attempt bound, emits in order and passes the barrier only when it is open |
| Lifecycles.LocalKept | src/scenarios.rs:316-398 | every participant keeps its account, its bounds and its trace |
| Interleavings.RunKeepsInv | src/scenarios.rs:206-230 | under every schedule the shared counters are the sum of the participants' parts, and the ready set only grows |
| Interleavings.CountersAgree | src/metrics.rs:8-22 | in every state, active connections = connected participants; attempts = successes + refused + cancelled + in flight; failures and reconnects stay within the attempts |
| Interleavings.CountersAreExactAtTheEnd | src/scenarios.rs:245-257 | when all have finished nothing is active, and every counter is the number of what it counts: failures are refusals and broken sessions, reconnects the successes after the first turn, failed reconnects as the code counts them |
| Interleavings.DropNeverUnderflows | src/scenarios.rs:356 | the decrement of the active connections never underflows |
| Interleavings.NoEventBeforeAllReady | src/scenarios.rs:90-103 | no participant is in its send loop, and none has produced an event, before every required participant has connected |
| Interleavings.NeverWaitsForItself | src/scenarios.rs:344-345 | a required participant at the barrier is in the ready set already, which never exceeds the required set |
| Interleavings.EachParticipant | src/scenarios.rs:302-399 | in every run, each participant dials at most `max_attempts` + 1 times, once without reconnect; exhaustion is reported only after exactly that many failures; a finished trace is one Connected, Ready, Disconnected for each success |
| Dialogues.RunAnswers | src/scenarios.rs:302-399 | under every schedule, the places where a participant looks at the flags or waits, what it saw and what came, are those of its loop run on its own |
| Dialogues.CountersAreAnswers | src/scenarios.rs:316-387 | what a finished participant has counted is what it was told: attempts, connects, refusals, breaks, cancelled dials, TLS failures and events |
| Dialogues.VerdictExactly | src/scenarios.rs:373-397 | how a participant ends, if and only if, for each exit: exhausted on a failure with every turn used and no deadline past at a break; failed with the last failure without reconnect, past the deadline at a break, or in the pause without a stop; completed otherwise |
| Dialogues.EachVerdict | src/scenarios.rs:373-397 | the same over the counters: a failed attempt never ends as completed; without reconnect a participant fails if and only if it counted a failure, of the kind it counted |
| Cancellation.NoAttemptOnceOver | src/scenarios.rs:319-322 | once the run is stopped or past its deadline, whatever the schedule, a participant begins no attempt but one it had already decided on |
| Cancellation.CancellationFinishes | src/scenarios.rs:90-103 | once the run is stopped or past its deadline, a participant that takes the branches that are ready is done within eighteen steps if and only if the barrier is not ahead of it, or ends by the stop signal, by its own deadline or by being open |
| Cancellation.BarrierIgnoresRunDeadline | src/scenarios.rs:95-101 | under every schedule, however long past the run's deadline: a participant at the barrier is still there unless the run is stopped, the barrier's own deadline is past or everyone required is ready |
| Witnesses.BarrierOutlastsRun | src/scenarios.rs:73-78 | a run from the start in which a participant waits at the barrier when the run's deadline passes, and still does after anything but the stop signal and the barrier's own deadline |
| Supervision.StopHasThreeCauses | src/scenarios.rs:199-244 | in every run: stopped if and only if the signal is given, the harness has given up at the barrier, or the threshold on failed connections was exceeded |
| Supervision.GivesUpExactly | src/scenarios.rs:233-244 | from any state, the harness may give up at the barrier if and only if it has, or has yet to pass it |
| Supervision.HarnessWaitEnds | src/scenarios.rs:90-103 | while the flags stay, the harness's wait ends within three turns if and only if the run is stopped, the barrier's deadline is past or everyone is ready, and gives up exactly if the deadline alone ends it |
| Supervision.ClocksTell | src/scenarios.rs:73-78 | in every run a deadline is past exactly if its time has come |
| Supervision.RunKeepsWatch | src/scenarios.rs:90-103 | the harness passes the barrier only on everyone's readiness or a stop, and gives up only past the barrier's deadline, with a barrier configured |
| Alarm.NeverAborts | src/thresholds.rs:13-26 | in no run does a threshold that is no less than the attempts of all participants stop anyone |
| Alarm.RefusalsAbort | src/runner.rs:81-96 | with a lower threshold, from any start a run in which every dial is refused while the runner is between its two reads, and the run is stopped |
| Supervision.StopsUnsignalledExactly | src/scenarios.rs:233-257 | from any start, a run may be stopped without the signal if and only if someone is required at the barrier, or the threshold on failed connections is below the attempts that all participants may make |
| Supervision.NeverStops | src/scenarios.rs:245-257 | with neither, every run is stopped exactly by the signal, whoever fails and however often |
| Supervision.LostParticipantHoldsAll | src/scenarios.rs:245-257 | after a required participant has ended without connecting, whatever follows, nobody produces an event, and the harness's wait ends only with the run stopped |
| Thresholds.RatioIsBounded | src/thresholds.rs:58-67 | the saturated ratio is at most the saturated failures, which it is after one attempt, and at most one with no more failures than attempts |
| Thresholds.ViolatedExactly | src/thresholds.rs:13-26 | the threshold is exceeded exactly if there are enough attempts or events, one without `min_samples`, and the failures are more than its share of the attempts |
| Witnesses.FailureCancelsNobody | src/scenarios.rs:245-257 | without barrier and threshold, a run from the start in which one participant fails for good and after that another connects and produces an event |
| Witnesses.FailureEndsAtBarrier | src/scenarios.rs:233-244 | with a barrier, a run from the start in which one participant fails for good, which changes nothing for the other; then the barrier's deadline passes, the harness stops the run without the signal, and the other ends before its first attempt |
| Harness.RunTasks | src/scenarios.rs:206-230 | the steps on mutable counters, barrier, signal and task table end as the function says, and keep the invariant |
| Harness.Perform | src/scenarios.rs:316-398 | one step in place |
| Harness.ConnectionMetrics.Count | src/metrics.rs:8-22 | each effect changes its own counter by one, and no other |
| Harness.ReadinessBarrier.MarkReady | src/scenarios.rs:83-88 | a mark adds a required participant and ignores any other |
| Harness.Supervisor.Turn | src/scenarios.rs:233-244 | one turn of the harness's wait in place, with the stop it gives when it is out of time |
| Harness.Watchdog.ReadAttempts | src/metrics.rs:116 | the first half of a look at the counters in place |
| Harness.Watchdog.ReadFailures | src/runner.rs:81-96 | the second half, with the stop it gives on a violation |
| Scheduler.StepDelays | src/scheduler.rs:39-59 | rejected exactly when steps are out of order or exceed the clients; else sorted, one delay for each client, at the first step with room for it |
| Scheduler.StartDelays | src/scheduler.rs:17-37 | every accepted strategy gives exactly one delay for each client; a shuffled ramp is a permutation of the linear one |
| Scheduler.LinearClimbs | src/scheduler.rs:23-29 | a linear ramp starts at once, climbs strictly, and stays below its length |
| Backoff.BaseIsBounded | src/scenarios.rs:481-487 | the base pause lies between the bounds and never shrinks |
| Backoff.BaseDoubles | src/scenarios.rs:482-487 | it doubles up to its maximum exactly when the attempt is below 32 or the saturated multiplier reaches the maximum |
| Backoff.JitterAtMostDoubles | src/scenarios.rs:488-493 | jitter never makes it negative or more than twice as long |
| Backoff.JitterIsPercent | src/scenarios.rs:488 | jitter is the configured percentage, at most all of it |
| Backoff.MaximumHoldsExactly | src/scenarios.rs:487-493 | no draw exceeds the configured maximum exactly when the whole jitter fits below it |
| Cadence.EmissionInterval | src/scenarios.rs:709-716 | a rate can only lengthen the configured interval, to its own |
| Cadence.EventsTakeTime | src/scenarios.rs:647-658 | across all its connections a participant needs one period for each event |
| Cadence.AtMostOnePerPeriod | src/scenarios.rs:647-658 | in any time it produces at most one event for each whole period |
| Cadence.InvalidPerConnection | src/scenarios.rs:819-825 | on one connection exactly the first events up to the bound are invalid |
| Cadence.InvalidPerRun | src/scenarios.rs:651-660 | over several connections, the invalid events are the bound or the events produced, whichever is less, connection by connection |
| Cadence.CappedEachIsBounded | src/scenarios.rs:651-660 | so at most the bound for each connection |
| Cadence.BoundHoldsExactly | src/scenarios.rs:651-660 | the configured bound holds of every run if and only if it is zero or there is no second connection |
| Limits.BoundHoldsByConfig | src/scenarios.rs:302-399 | with the connections that a configuration allows: if and only if the bound is zero, reconnect is off or `max_attempts` is zero |
| Cadence.Twice | src/scenarios.rs:651-660 | for any bound, two connections in a row that together send twice as many invalid events |
| Credentials.FillInjective | src/config.rs:140-145 | a template with a placeholder gives equal paths only for equal ids |
| Credentials.FillsFirst | src/config.rs:140-145 | filling puts the id in the place of the first placeholder and goes on behind it |
| Credentials.FillKeeps | src/config.rs:140-145 | a text without the placeholder is kept |
| Credentials.ResolvesTo | src/config.rs:127-152 | the certificate comes from its template and the key from its own; without templates nothing changes |
| Credentials.SafeExactly | src/config.rs:166-173 | a name is safe exactly if it is not empty, nor one or two dots, and holds ASCII letters, digits and `-_.` only |
| Credentials.DistinctCredentials | src/config.rs:127-152 | distinct participants resolve to distinct certificate paths and distinct key paths |
| Credentials.ResolvesExactly | src/config.rs:127-152 | templates resolve exactly as a complete pair with placeholders, for a safe id, beside no fixed paths |
| Credentials.ClientNamesDiffer | src/scenarios.rs:289-299 | generated names are distinct and safe |
| Credentials.CredentialsAreDistinct | src/safety.rs:227-243 | listed or generated, no two participants share credentials |
| Credentials.SafeNameIsWrittenAsIs | src/config.rs:166-173 | a safe name is not changed by escaping |
| Durations.PrintedReadsBack | src/config.rs:438-466 | a printed duration reads back exactly when it has whole seconds |
| Durations.ParsesExactly | src/config.rs:451-466 | white space aside, exactly digits and one of `s`, `m`, `h` are read, as so many seconds, at most 2^64 - 1 |
| Durations.PanicsExactly | src/config.rs:451-457 | parsing panics exactly on digits, or nothing, with white space around them |
| Durations.TrimCuts | src/config.rs:452 | trimming takes away white space at both ends, and all of it |
| Durations.SpacedDigitPanics | src/config.rs:451-457 | `" 5"` panics |
| Durations.DecimalReadsBack | src/config.rs:442 | a printed number reads back |
| Safety.ValidateWorkload | src/safety.rs:121-225 | passes exactly when no rule, each stated in numbers of its own, is broken, and reports the first broken rule in the code's order |
| Safety.ValidateParticipantsAndRouting | src/safety.rs:245-282 | the hash-set scan accepts exactly unique safe ids, and then exactly routing between compatible roles |
| Safety.ValidateSynchronization | src/safety.rs:284-306 | the scan accepts exactly unique known aliases with a timeout, or neither |
| Safety.ValidateWithOptions | src/safety.rs:86-113 | a run is let through exactly when no rule on authorization, host, workload, production or invalid events forbids it; otherwise the first reason in the code's order is reported |
| Limits.ParticipantsAreSound | src/safety.rs:121-141 | an accepted run has `clients` participants with distinct safe names, known to barrier and routing |
| Limits.EveryoneHasOwnCredentials | src/safety.rs:173 | each of an accepted run's participants resolves, under templates to credentials of its own |
| Limits.ProductionIsSlow | src/safety.rs:194-208 | an accepted production run sends at most three events in thirty seconds and ninety in all, reconnects included |
| Limits.InvalidAreFew | src/safety.rs:213-223 | an accepted run sends at most `clients` times `max_events` times the possible connections invalid events, a second apart |
| Limits.IntervalFitsExactly | src/safety.rs:152-158 | when an accepted rate has an interval that fits a duration; the accepted rate 2^-64 has none |
| Limits.ProductionSendsDocuments | src/safety.rs:98-111 | a permitted production run sends well-formed documents only, to an allowed host |

## Left out

- Sockets, TLS handshakes and certificate files (src/connection.rs): a dial succeeds, is refused or is cancelled; a write delivers its bytes or fails after some or all of them.
- XML parsing in `validate_xml` and `inspect_event`: an arbitrary predicate and an arbitrary function; `from_utf8_lossy` is taken as the identity, which it is on valid UTF-8.
- Latency histograms, percentiles and `MetricsSnapshot`: the theorems are about the live counters.
- Participants.Step: participants run concurrently, so each is a value that a schedule steps, rather than a method that runs to its end; `Harness` applies the steps in place.
- Totals.SentEntriesAreValidSent: holds between wake-ups; a flush counts its events as sent a moment before it takes the ledger's lock (src/scenarios.rs:764-767), and a loop that is dropped in that moment, in the send-receive role, never takes it.
- Harness.Perform: applies to the shared objects what the function of the participant's step decides; `Dialogues` ties that function to the loop on its own.
- Outcomes.RunMakes: the times of a document, its validity of twice the interval included, are the texts of the tick.
- Interleavings.NoEventBeforeAllReady: says when the barrier may be passed, not that it is passed promptly, since a wake-up can fall between the check and the wait.
- Conservation.ProducedIsSentOrDropped: is about returns of the loop; `Abandonment` is about the others.
- Supervision.StopsUnsignalledExactly: the number of messages sent, which the threshold's sample size is also compared with, is any number.
- Thresholds on message errors, latency and dropped messages (src/thresholds.rs:27-55): a stop by one of them is a `Signal`.
- Scheduler.StartDelays: delays are real numbers, so the rounding of `mul_f64` is not modelled; the shuffle is any permutation.
- Backoff.JitterAtMostDoubles: real arithmetic, without the rounding of `mul_f64`; the drawn factor is any in its range.
- Cadence.EmissionInterval: real arithmetic in place of doubles; overflow of the interval is treated in `Limits.IntervalFitsExactly` alone.
- Counters are unbounded integers: the 64-bit counters and the 32-bit event count do not wrap in the model.
- Durations.PanicsExactly: white space is ASCII white space; `trim` also removes other Unicode white space.
- Disconnect reasons, error categories and the list of participants missing at the barrier: labels in the report.
- Parsing the host out of the server address and the loopback test: parameters of `Safety.ValidateWithOptions`.
- Task panics, lifecycle output, thresholds, the runner's status, reports, the command line and provisioning.
