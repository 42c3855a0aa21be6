# AckerDB, verified

A Dafny model of the parts of AckerDB whose correctness is hardest to see, with
proofs of what they promise. It covers the client session protocol, the
identifiers it issues, the live paginated window and query snapshots of the React
adapter, the wire codec and its canonical key, the paired benchmark statistic with
its ledger and CPU monitor, the incremental event-stream decoder and the hub's
handshake limiter.

## Reading order

- `Basics`, `Protocol`: shared vocabulary, cursors, transitions, receipts, frames.
- `SessionSpec`: the session as a state machine on values, one function for each
  operation of the client. `SessionInvariants` says what every reachable state
  satisfies, `SessionAtoms` to `SessionRuns` prove that every event keeps it,
  `SessionTheorems` draws the promises, `SessionResending`, `SessionEffects`,
  `SessionResets`, `SessionPauses` and `SessionPhases` say what each event visibly
  does, `SessionExamples` shows runs that matter,
  `SessionLoops` and `SessionClient` give the client object whose methods and loops
  refine the specification; the table below names those of its methods that do more
  than one step of it.
- `Uuid`, `PairedStatistics` with `PairedCounting` and `PairedErrorBound`, `Pagination`,
  `PaginatedWindow`, `QueryStore` with `QueryFreshness` and `QueryRestart`, `Base64`,
  `Wire`, `WireKey`, `SseDecoder` with `SseRoundTrip`, `Ledger`, `Handshakes`,
  `ProcessTree`: one component each.

## How the source is read

- An event carries what the platform decides while it is handled: the clock, how
  many sends succeed before one throws, whether a socket can be created, and the
  drawn retry delay. The clock does not go back. Timers fire when armed and due; the
  presentation timer does not overtake a request timer that is due before it or was
  armed first for the same time.
- Callbacks are outputs, kept in a record together with what was transmitted, held
  and settled; listeners do not call back into the object.
- An honest server has one outcome for each subscription at each cursor, and a
  checkpoint keeps the outcome. Only `DeliveredOutcomeIsServers`, `ShownIsServers` and
  `FreshnessIsSound` assume it; every other promise is for any server.
- A window listens to each page source once, however often that page stands in its
  chain, because the source keeps its listeners in a set.
- Protocol ids are handed out once and increase, so a map keyed by id is walked in
  ascending id, its insertion order. Inside one event some steps whose order no
  caller can observe are taken in another order than in the source: requests are
  settled before the flags of a failure, block, suspension, close or lost connection
  are set, and a transition's callback is recorded before waiting mutations are told.
- Error texts and the codes of local decoding failures are not told apart beyond
  what decides behaviour: an undecodable frame fails the client as malformed, a frame
  that cannot be encoded or is too large as overloaded.
- In the statistic a pair is its log ratio as a real number, which swapping base and
  head negates, and the tail is computed exactly.
- Bit shifts and masks on disjoint fields are written as multiplication, division
  and remainder.

## Where code and promise differ

- The canonical key separates values it should not: an object that owns `"$"` with
  the value undefined is wrapped like one that has a `"$"`, and then has another key
  than the same object without the field. `WireKey.KeyIsCanonical` states where the
  key is canonical, `WireKey.UndefinedDollarBreaksTheKey` that it fails everywhere
  else, `WireKey.SameKeyIff` what the key does tell apart.
- A success snapshot can outlive its subscription: a query that was refused and
  granted again still awaits a change of principal, and the restart it then makes
  leaves the data of the old principal on show as success until the new subscription
  speaks (`QueryRestart.RestartCanKeepSuccess`). A snapshot that turns to success is
  always right, and it stays what its subscription last said exactly as long as the
  entry does not subscribe anew (`QueryStore.StaysUpToDateExactlyWhen`).
- A paginated window is said to keep the depth asked for. Asking for more while a
  repaired chain is shorter sets the depth from the shorter chain
  (`PaginatedWindow.AskingForMoreCanShrinkTheDepth`); it is kept exactly when the
  chain is at most one page short of it.
- Each page is said to start where its predecessor ends. A pass looks no further than
  the first page that is not proven, so behind it a boundary can stay broken
  (`PaginatedWindow.BehindAnUnprovenPage`); `PaginatedWindow.PassLinksExactlyWhen`
  says exactly when none is.
- A window is said to hold every page it shows. Letting go of a page stops listening
  to its source also where the same page stands earlier in the chain
  (`PaginatedWindow.RepeatedCursorIsLost`). What is held is the chain wherever it is
  cut exactly when its cursors are distinct (`PaginatedWindow.CutsKeepExactlyWhen`),
  which pages of an ordered table make sure of.
- A failing query is said to report its application error. The server sends a first
  outcome that is an error without a predecessor, which the client never takes: it
  asks for a reset and shows nothing (`SessionExamples.FirstErrorIsNotShown`). An
  error is reported exactly when it starts from the cursor held
  (`SessionTheorems.ApplicationErrorReportedExactlyWhen`), so only after a value
  (`SessionTheorems.ErrorsFollowValues`).

## Model

| member | source | states |
|---|---|---|
| `SessionTheorems.DeliveredOutcomeIsServers` | packages/client/src/client.ts:2204-2251 | Against an honest server, over every run with frames lost, repeated or reordered and any number of reconnects, the last outcome a live query subscription delivered is the server's at the cursor it holds; before a cursor it delivered none |
| `SessionTheorems.CallbacksAreAnchored` | packages/client/src/client.ts:2212-2250 | A cursor confirmation, an application error or a denial only ever follows an outcome of the same subscription, and a denial always carries a code of access |
| `SessionTheorems.ErrorsFollowValues` | packages/client/src/client.ts:2222-2250 | In every run a query subscription reports an application error, a revocation or a confirmation only after it has reported a value |
| `SessionTheorems.OutcomeReportedExactlyWhen` | packages/client/src/client.ts:2204-2251 | In every run a transition with an outcome reports it, and nothing else, if and only if its cursor is new and can be held, it starts from the cursor held, and it is a reset if one is asked for; otherwise no outcome is reported |
| `SessionTheorems.ApplicationErrorReportedExactlyWhen` | packages/client/src/client.ts:2222-2250 | An application error is reported if and only if it names the cursor held as its predecessor, no reset is asked for, and its own cursor is new and can be held |
| `SessionExamples.FirstErrorIsNotShown` | packages/client/src/client.ts:2222-2229 | A possible run in which a query's first outcome, an application error without a predecessor, is received and nothing is reported |
| `SessionTheorems.CursorsAdvance` | packages/core/src/protocol.ts:698-782 | Between resets and revocations each cursor a subscription takes advances the one before it on the same stream |
| `SessionTheorems.ReadYourWrites` | packages/client/src/client.ts:2312-2341 | A mutation that does not end in an error has had a receipt from the server, and it ends with the answer and version of its last receipt, only once every live subscription that receipt named is gone or has held a cursor at or past the version since it came |
| `SessionTheorems.NoWakeUpLost` | packages/client/src/client.ts:2434-2462 | Once its receipt has come a mutation stays pending only while some live subscription the receipt named has not caught up, and what it waits for is exactly those; each is live and behind |
| `SessionTheorems.MutationsAreNotAnswered` | packages/client/src/client.ts:2283-2310 | A mutation never resolves but from a receipt |
| `SessionTheorems.EveryRequestAccounted` | packages/client/src/client.ts:2464-2477 | Issued requests are exactly those pending and those settled, never both |
| `SessionTheorems.SettledOnce` | packages/client/src/client.ts:2464-2477 | A settled request keeps its one settlement whatever happens later |
| `SessionTheorems.TransmittedWorkIsNotCalledUnrun` | packages/client/src/client.ts:2479-2513 | A transmitted mutation or procedure ended by deadline, close, suspension, cancellation or connection loss is reported as indeterminate or unconverged, never as not run |
| `SessionTheorems.ProcedureTransmittedOnce` | packages/client/src/client.ts:2528-2554 | A procedure frame is successfully transmitted at most once over a whole run |
| `SessionRuns.AttemptDueGrounded` | packages/client/src/client.ts:1820-1836 | When the presentation timer fires no transmitted procedure is waiting: its own deadline came no later |
| `SessionTheorems.ConnectionDiscipline` | packages/client/src/client.ts:1994-2041 | Closed, failed, blocked or suspended means no socket and not ready; otherwise exactly one of a socket and an armed reconnect timer |
| `SessionTheorems.PhasesAreTrue` | packages/client/src/client.ts:1935-1960 | Each published connection phase agrees with the socket, readiness and reconnect timer |
| `SessionTheorems.DialsHonourRetryAfter` | packages/client/src/client.ts:2343-2350 | After the current connection delivers a retryable connection error, no connection is dialed before the delay that frame asked for, capped at thirty seconds, is over |
| `SessionTheorems.ReservationsConserved` | packages/client/src/client.ts:2788-2820 | The item and byte counters equal the count and total frame size of live subscriptions, pending requests and other reservations, and stay within the limits |
| `SessionTheorems.RetiredSocketIsIgnored` | packages/client/src/client.ts:2043-2100 | A connection that has been left never becomes the current one again, in any continuation of any run, so whatever its socket still calls back changes nothing |
| `SessionTheorems.RunInvariant` | packages/client/src/client.ts:788-905 | The whole session invariant holds after every possible run from construction |
| `SessionRuns.StepKeeps` | packages/client/src/client.ts:2099-2202 | Every event keeps the session invariant and only extends the record of a run, and a query it reports on is still followed |
| `SessionTransitions.ApplyTransitionKeeps` | packages/client/src/client.ts:2204-2251 | A transition, accepted, skipped, answered with a reset request or too large to hold, keeps the invariant; what it reports is `SessionEffects.TransitionIsReported` |
| `SessionTransitions.RemoveSubKeeps` | packages/client/src/client.ts:2448-2462 | Removing a subscription keeps the invariant, also when sending the unsubscription loses the connection |
| `SessionTransitions.DischargeKeeps` | packages/client/src/client.ts:2434-2446 | Telling waiting mutations about a subscription that is gone or has moved keeps the invariant |
| `SessionTransitions.DischargeSettlesExactly` | packages/client/src/client.ts:2434-2446 | Of the mutations whose receipt has come it settles exactly those all of whose named subscriptions are gone or have reached the receipt, and as the receipt promised |
| `SessionCalls.OnSuspendKeeps` | packages/client/src/client.ts:1685-1724 | Suspension settles procedures, retires the connection and keeps the invariant |
| `SessionCalls.OnRefreshKeeps` | packages/client/src/client.ts:973-1032 | Presenting a credential, also over an earlier presentation, keeps the invariant |
| `SessionTheorems.AnswersAreBrought` | packages/client/src/client.ts:2283-2310 | Every answer and every server error a request ended with was brought by a frame of the current connection for that very request, of its kind, with that answer or code |
| `SessionEffects.ResultIsTheAnswer` | packages/client/src/client.ts:2283-2295 | In every run the result of a pending query or procedure ends it with exactly the answer carried, and nothing else |
| `SessionEffects.ErrorIsTheEnding` | packages/client/src/client.ts:2367-2371 | In every run an error for a pending request ends it with exactly the code carried, and nothing else |
| `SessionEffects.TransitionIsReported` | packages/client/src/client.ts:2204-2251 | In every run a transition onto the cursor held is confirmed unless a reset is still to come, one that starts from the cursor held and can be held reports its own news, and any other says nothing about the query |
| `SessionEffects.AbleMeansAllSent` | packages/client/src/client.ts:2528-2549 | A client that becomes able to send transmits, in ascending id, a frame from the cursor held for every subscription not there yet and a call for every request not there yet, ends the overdue ones, and then has everything outstanding on the connection |
| `SessionEffects.FramesAreVisible` | packages/client/src/client.ts:2099-2202 | All of that holds of every frame that may come, in every run |
| `SessionEffects.LiveEventIsReported` | packages/client/src/client.ts:2253-2281 | A live event is reported once, as a gap when a row does not come next, and a repeated position not at all |
| `SessionEffects.SubscriptionErrorIsTold` | packages/client/src/client.ts:2372-2379 | An error for a subscription is told to it; it then waits if the error is retryable and is gone otherwise |
| `SessionEffects.BadFrameFailsAll` | packages/client/src/client.ts:2099-2121 | A frame that may not come now or does not decode ends every request and subscription alike and leaves neither socket nor timer |
| `SessionEffects.ConnectionErrorEnds` | packages/client/src/client.ts:2344-2362 | A connection error that is not retryable ends everything, or blocks the client when it is about credentials |
| `SessionEffects.CallIsTaken` | packages/client/src/client.ts:1838-1908 | A call is taken on exactly when there is room and a procedure may be called, and transmitted at once if the client is able to send |
| `SessionEffects.WatchIsTaken` | packages/client/src/client.ts:1211-1270 | A subscription is taken on exactly when there is room, and asked for at once if the client is able to send |
| `SessionEffects.UnwatchIsTold` | packages/client/src/client.ts:2448-2462 | A subscription given up is gone, and the server is told if the client is able to send |
| `SessionEffects.DeadlineEnds` | packages/client/src/client.ts:2479-2501 | A request past its deadline ends with what is known of whether it ran, and a procedure on the connection is cancelled there |
| `SessionEffects.LossEndsOnlyInFlight` | packages/client/src/client.ts:2067-2097 | Losing the connection ends the procedures on it as indeterminate and nothing else, and schedules the next dial |
| `SessionEffects.ReconnectDials` | packages/client/src/client.ts:1994-2041 | A reconnect that is due dials unless the server asked to wait longer or no socket can be made |
| `SessionEffects.OpeningSaysHello` | packages/client/src/client.ts:2043-2065 | A connection that opens is greeted with the current credential, once |
| `SessionEffects.RefreshIsPresented` | packages/client/src/client.ts:973-1032 | A new credential is presented at once on a ready connection, under a new id |
| `SessionEffects.ClosingEndsAll` | packages/client/src/client.ts:1608-1665 | Closing ends every request, those never transmitted as certainly not run |
| `SessionResets.GapAsksForReset` | packages/client/src/client.ts:2383-2396 | A transition that does not start from the cursor held makes an able client ask for a reset from that cursor, or for the subscription anew when it holds none, once until the reset comes |
| `SessionResets.TransitionMovesTheCursor` | packages/client/src/client.ts:2204-2251 | A transition taken moves the cursor to its own and ends the wait for a reset; one onto the cursor held ends it only as a reset; one that comes while a reset is awaited and is none changes nothing; the subscription no longer waits for a retry |
| `SessionResets.OversizeIsDropped` | packages/client/src/client.ts:2398-2432 | A cursor there is no room for ends the subscription, told to the server and to its callback, which learns whether trying again can help |
| `SessionResets.StaysAwayAsAsked` | packages/client/src/client.ts:2343-2350 | A server that asks to stay away is obeyed for what it asks, thirty seconds at the most, and no longer |
| `SessionResets.ReservationIsTaken` | packages/client/src/client.ts:2788-2806 | A reservation is taken exactly when its frame fits and items and bytes leave room |
| `SessionResets.ReleaseUndoesReservation` | packages/client/src/client.ts:2807-2820 | Releasing a reservation gives back exactly what it took |
| `SessionPhases.PhasesRememberWelcomes` | packages/client/src/client.ts:1935-1960 | A client says reconnecting only if the server has welcomed it in this run, and connecting only if not |
| `SessionPauses.AbortEnds` | packages/client/src/client.ts:2503-2526 | Aborting ends a procedure with what is known of whether it ran and cancels it on the connection it is on; nothing else can be aborted |
| `SessionPauses.RetryResubscribes` | packages/client/src/client.ts:2561-2587 | A subscription whose wait is over is asked for again from the cursor it holds |
| `SessionPauses.PingIsSent` | packages/client/src/client.ts:2690-2701 | Only an open and ready connection is pinged, and only that is done |
| `SessionPauses.SuspensionIsExact` | packages/client/src/client.ts:1685-1724 | Suspending cancels the procedures on the connection in ascending id, ends every procedure with what is known of whether it ran, and keeps all other requests and every subscription |
| `SessionPauses.ResumeDials` | packages/client/src/client.ts:1770-1818 | Waking up dials, unless a credential's time is over, which blocks, or the server asked to wait |
| `SessionPauses.AttemptBlocks` | packages/client/src/client.ts:1820-1836 | A credential not answered in time blocks the client and ends nothing |
| `SessionClient.Client.constructor` | packages/client/src/client.ts:788-905 | A new client is the specified first state and begins a possible run |
| `SessionClient.Client.Handle` | packages/client/src/client.ts:2043-2202 | Whatever event comes, the object ends in the state of a possible run: every request accounted for once and its ending true of what was sent, counters equal to what is outstanding within the limits, one socket or one timer, callbacks in order; no ending already recorded changes; and a frame that may come shows at once what it must: the answer or error it carries as the ending, the transition it delivers as its report, and all that is outstanding on the wire when it makes the client able to send |
| `SessionClient.ReachableKeepsPromises` | packages/client/src/client.ts:788-905 | Every state the object can be in keeps those promises |
| `SessionClient.Client.FinishRequest` | packages/client/src/client.ts:2464-2477 | Finishes a pending request once, releasing its reservation; does nothing for a finished one |
| `SessionClient.Client.RejectAll` | packages/client/src/client.ts:2643-2643 | Every pending request is settled with the same error and all their reservations released |
| `SessionClient.Client.FailPermanently` | packages/client/src/client.ts:2632-2654 | Permanent failure settles requests, reports to and releases all subscriptions, and retires the connection, once |
| `SessionClient.Client.BlockAuthentication` | packages/client/src/client.ts:2604-2630 | A block settles requests, reports to all subscriptions and retires the connection, keeping the subscriptions |
| `SessionClient.Client.RetireConnection` | packages/client/src/client.ts:1739-1753 | The socket is detached and every live-event cursor forgotten, query cursors kept |
| `SessionClient.Client.HandleClose` | packages/client/src/client.ts:2067-2097 | Losing the socket settles only procedures sent on it and schedules a reconnect unless halted |
| `SessionClient.Client.FlushState` | packages/client/src/client.ts:2528-2549 | The loops over subscriptions and requests do what the flush of the specification does, whose transmissions `SessionEffects.AbleMeansAllSent` states |
| `SessionClient.Client.AdvanceConvergence` | packages/client/src/client.ts:2434-2446 | The loop over pending mutations does what the at-once specification says |
| `SessionClient.Client.RemoveSubscription` | packages/client/src/client.ts:2448-2462 | Removal releases the reservation, announces itself if it can and tells the waiting mutations |
| `SessionClient.Client.RetainCursor` | packages/client/src/client.ts:2398-2432 | A cursor whose resume frame does not fit removes the subscription; otherwise frame, size and byte counter move together |
| `SessionClient.Client.Obligations` | packages/client/src/client.ts:2327-2339 | The loop over a receipt's obligations yields the registered ones, those behind, and whether one is an event stream |
| `SessionClient.Client.ApplyMutationReceipt` | packages/client/src/client.ts:2312-2341 | A receipt settles its mutation at once or leaves it waiting on exactly the subscriptions behind |
| `SessionClient.Client.SuspendTransport` | packages/client/src/client.ts:1685-1724 | Suspension cancels and settles procedures, stops timers and retires the connection |
| `SessionClient.Client.CloseClient` | packages/client/src/client.ts:1608-1665 | Closing settles every request, releases every subscription and drops the socket, once |
| `Uuid.IdentifiersIncrease` | packages/client/src/client.ts:576-616 | Identifiers of one factory increase as strings for every sequence of clock readings and random draws, failing calls included |
| `Uuid.IdentifiersWellFormed` | packages/core/src/protocol.ts:451-457 | Each has the version and variant of RFC 9562 in place and gives back exactly the timestamp written |
| `Uuid.TextKeepsOrder` | packages/client/src/client.ts:598-603 | Fixed-width hexadecimal groups order texts as their timestamp and counter |
| `Uuid.FormatRoundTrip` | packages/core/src/protocol.ts:454-457 | Reading the timestamp out of a formatted identifier inverts formatting |
| `Uuid.ThrowsExactlyWhen` | packages/client/src/client.ts:582-595 | A call throws exactly for a clock or a needed random draw out of range, or when timestamps are exhausted |
| `Uuid.TimestampFollowsClock` | packages/client/src/client.ts:586-596 | The timestamp is never before the clock and is ahead only by standing still or one counter overflow |
| `Uuid.UuidV7Factory.Create` | packages/client/src/client.ts:582-604 | One call moves the factory as the run says, and leaves it untouched when it throws |
| `Uuid.UuidV7Factory.ReadRandomBits` | packages/client/src/client.ts:606-616 | Ten draws become one number; any draw outside its range gives none |
| `PairedErrorBound.FalseVerdictsAreRare` | bench/paired-statistics.ts:172-247 | For all samples, of all ways to swap base and head within pairs at most the share alpha lead to a regression or an improvement |
| `PairedErrorBound.VerdictsAreTheTails` | bench/paired-statistics.ts:152-166 | With no floor and no tied pair the swaps that lead to a verdict are exactly the two binomial tails of the rank |
| `PairedCounting.SignalByCounting` | bench/paired-statistics.ts:208-246 | The verdict without sorting: fewer than rank log ratios off one side of zero, and the median, found by counting, clears the floor |
| `PairedCounting.FiguresByCounting` | bench/paired-statistics.ts:181-219 | Median and interval percentages are those of the median and of the values rank from the bottom and from the top, each found by counting values no larger and no smaller; absent exactly when not measured |
| `PairedCounting.MedianByCounting` | bench/load-engine.ts:19-24 | The value computed on the sorted values has half of the values on either side, or lies halfway between the two that have |
| `PairedCounting.MedianIsUnique` | bench/load-engine.ts:19-24 | The counts leave one median only |
| `PairedCounting.SortedHasRank` | bench/paired-statistics.ts:207-209 | The value at a place of the sorted values is the one with that many values no larger and the rest no smaller |
| `PairedCounting.LogRatiosAreTheUsable` | bench/paired-statistics.ts:176-180 | The values compared are the log ratios of the usable pairs, each as often as it occurs |
| `PairedErrorBound.FewOffBound` | bench/paired-statistics.ts:144-152 | Swaps leaving at most k values off one side are at most as many as subsets with at most k members |
| `PairedStatistics.BinomialTailProbability` | bench/paired-statistics.ts:144-152 | The running coefficient and total give the exact tail of the fair binomial distribution |
| `PairedStatistics.NextCoefficient` | bench/paired-statistics.ts:148-148 | The update of the coefficient is the exact step to the next binomial coefficient |
| `PairedStatistics.MedianIntervalRank` | bench/paired-statistics.ts:161-166 | The rank returned is within the budget and no deeper one is; none means no rank is |
| `PairedStatistics.DeepestIsTheCutoff` | bench/paired-statistics.ts:154-166 | Ranks within the budget are exactly those up to the one returned |
| `PairedCounting.ComparePaired` | bench/paired-statistics.ts:172-247 | The comparison returned has every count, percentage, coverage and verdict that counting over the values as they came calls for |
| `PairedStatistics.OrderDoesNotMatter` | bench/paired-statistics.ts:207-218 | The comparison depends only on which samples there were, not on their order |
| `PairedStatistics.SortedKeepsMembers` | bench/load-engine.ts:19-24 | Sorting keeps every value as often as it occurred |
| `PaginatedWindow.WindowIsAPrefix` | packages/client-react/src/paginated-query-store.ts:282-332 | A window in success over pages of one table version is a prefix of the ordered rows, and is exhausted if and only if it is the whole table |
| `PaginatedWindow.WindowRowsAreDistinct` | packages/client-react/src/paginated-query-store.ts:132-164 | No row of the window repeats, and every row it misses comes after all it shows |
| `PaginatedWindow.RepairIsCoherent` | packages/client-react/src/paginated-query-store.ts:251-275 | One repair pass leaves a chain from the beginning in which each page after the proven prefix starts at its predecessor's cursor, no deeper than asked |
| `PaginatedWindow.RepairKeepsCoherent` | packages/client-react/src/paginated-query-store.ts:240-275 | A chain that is not contradicted loses no page and gains at most one |
| `PaginatedWindow.QuietPass` | packages/client-react/src/paginated-query-store.ts:221-238 | The pass caused by a page that fails while being subscribed finds nothing to repair |
| `PaginatedWindow.NothingBehindIsRepaired` | packages/client-react/src/paginated-query-store.ts:251-256 | A pass changes nothing behind the first page that is not proven, whatever stands there |
| `PaginatedWindow.PassLinksExactlyWhen` | packages/client-react/src/paginated-query-store.ts:251-275 | With k leading pages proven, after a pass every proven page is followed by the page it names if and only if a link among the first k was broken or no link from page k on was |
| `PaginatedWindow.BehindAnUnprovenPage` | packages/client-react/src/paginated-query-store.ts:251-256 | Listening, asking for three pages, losing the first and moving the second one's boundary leaves a window whose second page names another page than its third |
| `PaginatedWindow.HeldIsTheChainExactlyWhen` | packages/client-react/src/observation.ts:97-126 | The sources listened to stay exactly the chain if and only if no source let go of still stands in it without being opened again |
| `PaginatedWindow.CutsKeepExactlyWhen` | packages/client-react/src/paginated-query-store.ts:277-279 | They stay exactly the chain wherever it is cut if and only if its cursors are distinct |
| `PaginatedWindow.RepeatedCursorIsLost` | packages/client-react/src/observation.ts:113-126 | A page that names itself, in a window asked for three pages, ends with a page in the window that is no longer listened to |
| `PaginatedWindow.KeysetPagesGoForward` | packages/server/src/database/query/query.ts:531-566 | Pages of an ordered table, whichever version they were read from, name a later cursor than their own |
| `PaginatedWindow.RepairAscends` | packages/client-react/src/paginated-query-store.ts:251-275 | Over pages that go forward a pass keeps the cursors of the chain strictly increasing, hence distinct |
| `PaginatedWindow.AskingForMoreCanShrinkTheDepth` | packages/client-react/src/paginated-query-store.ts:200-201 | A run of the window in which asking for more, after its first boundary moved onto a page another window holds, lowers the depth that was asked for |
| `PaginatedWindow.PaginatedQueryEntry.Fold` | packages/client-react/src/paginated-query-store.ts:282-332 | The window shown reads as it must: all rows in order while every page shows one, stale with the first error when one of them is unavailable, and otherwise what the first page without data calls for |
| `PaginatedWindow.FoldReads` | packages/client-react/src/paginated-query-store.ts:282-332 | For every chain the first page that does not show a page decides: malformed data rejects the window, an error becomes the window's, an outage or a pending page ends the rows there; when all show one the window shows every row, and that it is exhausted exactly when the last names no next |
| `PaginatedWindow.ReadingIsUnique` | packages/client-react/src/paginated-query-store.ts:282-332 | That reading leaves nothing open: it determines the window |
| `PaginatedWindow.OutageKeepsItems` | packages/client-react/src/paginated-query-store.ts:290-297 | A window in success keeps its rows and its end through an outage of any of its pages, as stale |
| `PaginatedWindow.UnbrokenPass` | packages/client-react/src/paginated-query-store.ts:251-275 | A pass over links that all hold changes nothing, except that a chain proven throughout grows by the page its last one names while below the depth |
| `PaginatedWindow.BrokenPass` | packages/client-react/src/paginated-query-store.ts:251-275 | A pass over a broken link keeps the chain up to it, goes on with the page named there if any, and leaves no broken link |
| `PaginatedWindow.PaginatedQueryEntry.OpenPage` | packages/client-react/src/paginated-query-store.ts:226-239 | The page joins a coherent chain and its source is listened to; a subscription that fails at once leaves nothing to repair |
| `PaginatedWindow.PaginatedQueryEntry.Truncate` | packages/client-react/src/paginated-query-store.ts:277-279 | Cutting the chain stops listening to every source cut off, also one that still stands in what is left |
| `PaginatedWindow.PaginatedQueryEntry.Reconcile` | packages/client-react/src/paginated-query-store.ts:251-275 | The loop repairs the chain as one pass is specified to and folds it |
| `PaginatedWindow.PaginatedQueryEntry.LoadMore` | packages/client-react/src/paginated-query-store.ts:191-203 | The window grows by the page its last delivered page names, or does nothing, also when the new page fails at once over a chain that no longer holds; the depth asked for is kept exactly when the chain was at most one page short of it |
| `PaginatedWindow.PaginatedQueryEntry.Listen` | packages/client-react/src/observation.ts:113-126 | The first listener starts the chain at the beginning; later ones find it as it is |
| `PaginatedWindow.PaginatedQueryEntry.Release` | packages/client-react/src/observation.ts:142-152 | The deferred release stops every page unless demand came back |
| `PaginatedWindow.PaginatedQueryEntry.PageEvent` | packages/client-react/src/paginated-query-store.ts:217-219 | A change of a source listened to leaves the chain coherent, within depth and folded into the state; sources and chain stay the same thing for distinct cursors, so always for pages that go forward; a change of any other source is not heard |
| `Pagination.ReadPage` | packages/server/src/database/query/query.ts:531-566 | A page is the rows after its cursor without a gap, as many as the page size and the byte budget admit, and names a next cursor exactly when rows remain |
| `QueryFreshness.FreshnessIsSound` | packages/client-react/src/query-store.ts:140-171 | Against an honest server, in every joint run of client and entry, a snapshot that turns to success shows the server's value at the cursor its subscription then holds |
| `QueryFreshness.ShownIsServers` | packages/client-react/src/query-store.ts:140-171 | Data shown as a success is the server's value at the cursor held as soon as the current subscription has said anything |
| `QueryFreshness.AlwaysInStep` | packages/client-react/src/query-store.ts:106-127 | In every joint run the entry has heard exactly what the client delivered to its subscription, through restarts and refusals |
| `QueryStore.OnlyCallbacksFreshen` | packages/client-react/src/query-store.ts:148-171 | Only new data or a cursor confirmation of the subscription itself makes a snapshot fresh |
| `QueryStore.OutagesEndSuccess` | packages/client-react/src/query-store.ts:217-229 | Once the connection of a started entry leaves ready it shows no success, whatever else happens, until its subscription reports data or confirms it |
| `QueryStore.ConfirmationRestores` | packages/client-react/src/query-observation.ts:151-196 | However often a settled query cannot be reached, it keeps its data as stale, and a confirmation alone brings back exactly the success or application error it showed |
| `QueryStore.ErrorShown` | packages/client-react/src/query-observation.ts:132-196 | An outage shows the error just heard, or its own when an outcome was on show |
| `QueryStore.RefusalClears` | packages/client-react/src/query-observation.ts:139-146 | An authoritative refusal clears the data, and neither outage nor confirmation brings it back |
| `QueryStore.OutcomeIsShown` | packages/client-react/src/query-store.ts:139-153 | Data and application errors of the subscription are shown at once |
| `QueryStore.RestartsExactlyWhen` | packages/client-react/src/query-store.ts:175-215 | A query refused for lack of access subscribes anew exactly when an authentication other than the one it was refused under is accepted, unless the client was about to resubscribe it by itself or finished |
| `QueryStore.StoppedIsDeaf` | packages/client-react/src/query-store.ts:96-137 | A stopped entry keeps what it shows, whatever still comes, and started again has a new subscription and awaits no change |
| `QueryStore.BackedAlways` | packages/client-react/src/query-observation.ts:109-196 | What a snapshot shows, fresh or stale, is what its subscription last said once it has said anything |
| `QueryStore.StaysUpToDateExactlyWhen` | packages/client-react/src/query-store.ts:197-215 | A success that is what the subscription last said stays so, while shown, if and only if the signal neither starts the entry nor restarts it for an accepted change of principal |
| `QueryRestart.RestartCanKeepSuccess` | packages/client-react/src/query-store.ts:197-215 | A joint run of client and entry in which a restart for a new principal leaves the old principal's data on show as success, before the new subscription has said anything |
| `QueryStore.SamePrincipalIsEquality` | packages/client-react/src/query-store.ts:32-50 | The principal comparison is equality of principals, false without a rejected one |
| `QueryStore.QueryStoreEntry.Handle` | packages/client-react/src/query-store.ts:96-229 | As long as callbacks come as a client makes them, the object shows what was said; a success it turns to is what its subscription last said, and stays so exactly unless the signal subscribes anew |
| `Base64.DecodeIffEncoded` | packages/core/src/wire.ts:86-173 | The decoder accepts a text if and only if it is the encoder's output for the bytes it returns |
| `Base64.DecodeInvertsEncode` | packages/core/src/wire.ts:86-108 | Decoding inverts encoding for all bytes |
| `Base64.DecodedIsCanonical` | packages/core/src/wire.ts:117-173 | Whatever decodes has no second spelling: padding, trailing bits and foreign characters are refused |
| `Base64.CharIsTheAlphabet` | packages/core/src/wire.ts:43-43 | The characters are those of the alphabet of RFC 4648, each at its place |
| `Base64.CodeIsThePlace` | packages/core/src/wire.ts:79-83 | A character has a value exactly when it stands in the alphabet, and its value is its place |
| `Base64.BytesToBase64` | packages/core/src/wire.ts:86-108 | The group loop computes the encoding |
| `Base64.Base64ToBytes` | packages/core/src/wire.ts:117-173 | The decoding loops return the bytes the text encodes, or nothing when it encodes none |
| `Wire.RoundTrip` | packages/core/src/wire.ts:175-232 | Encoding throws exactly for unencodable values and is absent exactly for undefined; what is sent decodes to the value with undefined normalised away |
| `Wire.NoDollar` | packages/core/src/wire.ts:195-201 | An object without an own "$" can not be mistaken for an escape |
| `WireKey.KeyIsCanonical` | packages/core/src/wire.ts:286-302 | Where no object owns an undefined "$", two keys are equal if and only if the values are the same up to key order, dropped undefined fields and undefined slots read as null |
| `WireKey.SameKeyIff` | packages/core/src/wire.ts:286-302 | For all encodable values keys are equal if and only if the values are the same and their objects agree on owning "$" |
| `WireKey.UndefinedDollarBreaksTheKey` | packages/core/src/wire.ts:195-201 | Every value with an undefined "$" somewhere inside has a key different from that of its normalised form, which is the same value |
| `WireKey.SmallestBrokenKey` | packages/core/src/wire.ts:201-201 | An object whose only field is an undefined "$" and the empty object are the same value with different keys |
| `WireKey.SortedAlike` | packages/core/src/wire.ts:286-293 | Sorting two objects' members gives the same list if and only if every key stands for the same in both |
| `SseDecoder.ChunkingDoesNotMatter` | bench/client-sse-parser.prototype.ts:48-95 | Any two ways of cutting one stream give the same events and leftover as reading it at once |
| `SseDecoder.BoundaryStays` | bench/client-sse-parser.prototype.ts:67-72 | More input never moves an event boundary already seen, although LF and CRLF boundaries compete |
| `SseDecoder.OnlyTheLastThree` | bench/client-sse-parser.prototype.ts:72-75 | A boundary completed by new input begins in the last three characters before it |
| `SseDecoder.LineEndsDoNotMatter` | bench/client-sse-parser.prototype.ts:77-92 | A stream says the same with LF and with CRLF line ends |
| `SseRoundTrip.StreamReads` | bench/client-sse-parser.prototype.ts:64-95 | A stream of blocks of fields and comments is read back as what the blocks mean, in order, with whatever is unfinished left over |
| `SseRoundTrip.BlockReads` | bench/client-sse-parser.prototype.ts:77-92 | A block is read as one event with its data values joined by line ends and its last event name, or as nothing without data; comments and other fields say nothing |
| `SseRoundTrip.EnvelopesRead` | packages/core/src/sse.ts:16-33 | Envelopes as the server writes them, one data field each, are read back one event each |
| `SseDecoder.LegacyDecoder.PushAll` | bench/client-sse-parser.prototype.ts:48-95 | Chunks pushed one after the other fail exactly when one passes the limit, and otherwise give the events and leftover of the whole text read at once, however it was cut |
| `SseDecoder.LegacyDecoder.Drain` | bench/client-sse-parser.prototype.ts:64-95 | The drain loop emits the events of the buffer and leaves what is unfinished, counted exactly |
| `SseDecoder.LegacyDecoder.Push` | bench/client-sse-parser.prototype.ts:48-55 | A chunk within the limit is parsed after the leftover; past the limit only the byte count changes |
| `SseDecoder.LegacyDecoder.Finish` | bench/client-sse-parser.prototype.ts:57-62 | The end of the stream is an error exactly when an event is unfinished |
| `Ledger.ArrivalDoesNotMatter` | bench/ledger.ts:236-254 | Folding the same batches in any order gives the same ledger |
| `Ledger.FoldIsWinners` | bench/ledger.ts:224-254 | The ledger is, in order, the rows of each run's highest attempt that has any |
| `Ledger.FoldingAgainChangesNothing` | bench/ledger.ts:236-254 | Folding a batch again changes nothing |
| `Ledger.MergeBatch` | bench/ledger.ts:237-246 | One batch replaces earlier attempts of its run and yields to later ones |
| `Ledger.OrderIsUnique` | bench/ledger.ts:247-253 | An ordered ledger is determined by the rows it holds |
| `Ledger.MergeLedger` | bench/ledger.ts:236-254 | The loops over attempts, stale runs and rows compute the merge |
| `Ledger.LedgerRows` | bench/ledger.ts:110-165 | A run that reports a series twice or has more judged series than the cap is refused; otherwise its rows form a batch with distinct keys |
| `Ledger.JudgedIsFiled` | bench/ledger.ts:133-153 | Every series this branch can judge has a row with its verdict, under the run's own name, attempt and time |
| `Ledger.FiledIsJudged` | bench/ledger.ts:133-153 | Every row filed is that of such a series |
| `Ledger.AsManyFiledAsJudged` | bench/ledger.ts:157-159 | Rows filed are as many as series judged |
| `Handshakes.EvictionIsExact` | packages/realtime/src/hub.ts:1460-1468 | With a clock that does not go back, front eviction removes exactly the expired windows |
| `Handshakes.AnswersFollowAdmissions` | packages/realtime/src/hub.ts:1460-1501 | After any calls, an owner whose window is not over is admitted exactly while it has admitted fewer than its limit and is otherwise told how long it lasts, capped; any other owner exactly while fewer owners than the cap have such a window |
| `Handshakes.LimitsAreKept` | packages/realtime/src/hub.ts:1470-1500 | No window admits more than its limit and tracked owners never exceed their cap |
| `Handshakes.AtMostTwice` | packages/realtime/src/hub.ts:1460-1501 | Any half-open interval of one window's length admits at most twice the limit of one owner |
| `Handshakes.HandshakeLimiter.ConsumeHandshake` | packages/realtime/src/hub.ts:1460-1501 | One handshake evicts, counts, opens or refuses as specified |
| `ProcessTree.DescendantPids` | bench/process-tree.ts:99-116 | The worklist ends with exactly the processes reachable from the roots, whatever cycles the parents form |
| `ProcessTree.ProcessTreeMonitor.SampleNow` | bench/process-tree.ts:185-234 | A sample tracks exactly the reachable processes, and cumulative CPU time rises by exactly what they have used since they were last seen, through exits, reused ids and new parents |
| `ProcessTree.ProcessTreeMonitor.RetireLost` | bench/process-tree.ts:193-199 | Retiring a process that is gone or replaced moves its time without losing any |
| `ProcessTree.ProcessTreeMonitor.Track` | bench/process-tree.ts:209-220 | Every live process is tracked, and the total rises by exactly the time they have used |
| `ProcessTree.ProcessTreeMonitor.Update` | bench/process-tree.ts:193-220 | Each tracked process then has the time the table gives, and the start it was first seen with |
| `ProcessTree.SeenIsExact` | bench/process-tree.ts:211-219 | A process seen again has the table's time and its first start; a new one starts at its own time |
| `ProcessTree.ProcessTreeMonitor.SummarizeCpu` | bench/process-tree.ts:240-258 | A window's CPU time is the difference of the readings at its ends |
| `ProcessTree.ReadingsRise` | bench/process-tree.ts:278-286 | Interpolated readings never fall with time |
| `ProcessTree.ReadingIsLinear` | bench/process-tree.ts:278-286 | A reading lies on the line through the samples around it, and at a sample's own time is that sample's |
| `ProcessTree.ClampNeverActs` | bench/process-tree.ts:258-258 | The clamp at zero never acts |
| `ProcessTree.WindowsAddUp` | bench/process-tree.ts:240-286 | CPU times of adjacent windows add up to that of the window they make |

## Left out

- Credential sources, their pulls, retries and proactive refresh: external code; the client has a fixed credential.
- SSE fetching and acknowledgement, response readers, channels, realtime sessions and files: they appear only as opaque reservations of the session's budget.
- The stable-open timer, attempt counters and the exact retry delay: a delay is any value the platform draws.
- An abort signal that is already aborted when a procedure is called, and a mutation whose identifier cannot be made: the call is then not issued.
- Deferred release and registry of query entries: a query entry is modelled for one lifetime, the shared page sources of a window as snapshots that change on their own.
- Progress of a demanded reset: a reset that was asked for is not asked again on a new connection, so only safety is claimed.
- Arguments that cannot be encoded in a paginated query: each page would then have a private source.
- The column order, null handling and cursor text of server pagination: rows have one ordering key, and a cursor is the key of the last row.
- Native base64, JSON text, UTF-8 decoding of partial characters, negative zero, integer-like key order and an own `__proto__`: the codec is modelled on trees and characters; the event stream decoder receives whole characters.
- Literals other than canonical decimals inside a bigint escape, and an `"o"` escape whose payload is not an object: decoding them is treated as an error.
- Decoding an event's data into a message: the decoder's events are data and name.
- Schema, head commit and field checks of a ledger row, the metrics skipped, and its files: strings are compared by a total order that tells all strings apart.
- Resident-set percentiles and process-count peaks of a CPU window: plain order statistics of the samples inside it.
- Reading and parsing process tables, and the monitor's own timer and failure flag.
- Hub session reservations and everything else in the hub.
- React hooks, providers and rendering.
