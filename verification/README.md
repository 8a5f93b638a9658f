# Garuda, verified

A model of the trading engine's decision logic and of the portal's live state, with the
guarantees they are meant to give proved for every input, every run and every order of events.
Where the code does not give a guarantee its documentation promises, the exact condition under
which it does is proved instead.

| module | models |
|---|---|
| `Slicing`, `Sizing`, `EventDays` | capital into lots, lots scaled and capped, quantities into exchange-legal orders |
| `Sessions` | whose login session an account trades on: a bounded, cycle-checked walk |
| `Streams` | one order-update stream per account: start, reconcile, stop |
| `Alerts` | coalescing, throttling, and which alerts interrupt the operator |
| `Persistence` | the fingerprint cache in front of the trade store |
| `ApiClient` | single-flight token refresh and its queue of waiting requests |
| `SharedSocket` | one WebSocket shared by many subscribers, with backoff and sign-out |
| `LiveTypes`, `LiveStore` | REST snapshots behind watermarks, keyed updates on top |
| `Rounding`, `Pnl` | rounding to cents, aggregation, split and group-by summaries |
| `Sorting`, `PositionCompare`, `TradeOrder` | comparator sorts: reconciliation rows and the trade list |

Objects whose fields the program updates in place are classes. Each of their methods is tied to
a function from old state to new state (`Next`, `ReportOn`, `AfterConnect`, `StartAll`, ...), and
the theorems are about that function, step by step and over whole runs; most methods that only
take such a step have no row below. Sends, connects, saves
and publications are entries of a trace or fields that record them. JavaScript numbers, `Decimal`
and `Fraction` are exact reals, `Math.round(x)` is `floor(x + 0.5)`, and `localeCompare` is some
total order of strings.

Where the code falls short of what it, or its documentation, promises (each with an exact
condition, and a lemma at an input or a run from the start that shows it):

* A refused leg is told its capital affords no lot although the leg ratio took the lot, the scale
  was no reduction, or a cap of zero took what the scale had left (`Sizing.RefusalHonesty`,
  `Sizing.HalfLotHedgeBlamesCapital`). A leg ratio above one can spend more than the capital put
  to use (`Sizing.CapitalBudget`, `Sizing.DoubleLegOverspends`).
* A changed row whose write the store refused is remembered as saved and not written again while
  the book and the process stay as they are (`Persistence.RunCoherent`, `Persistence.NeverRetried`,
  `Persistence.RefusedWriteIsLost`); `save_trade` answers `False` and `flush` does not look. A refused
  write of a row that is already stored as it is loses nothing.
* A toast goes out although its alert was not stored, if there is no sink or the sink failed
  (`Alerts.ToastsDurableExactly`, `Alerts.ToastWithoutSink`); a warning under a key that was informational before shows
  no toast (`Alerts.WarningOverInfoIsSilent`).
* Requests waiting for a token refresh that fails are never settled
  (`ApiClient.AllSettledExactly`, `ApiClient.SecondCallerNeverHears`).
* A socket on its way out can be replaced while it still has its handlers
  (`SharedSocket.RunSingleExactly`, `SharedSocket.TwoReconnectsOverrun`). A socket that opens for
  nobody leaves channels marked active that were never sent on it, and whoever subscribes to one of
  them then is never served (`SharedSocket.RunServedExactly`, `SharedSocket.SkipNeedsOpenForNobody`,
  `SharedSocket.ReturningPageIsSkipped`).
* Signing out clears the stored token, and that, not a timer being cleared, is what keeps the
  provider silent: the delayed connect of `reconnect` is never cancelled, and opens a socket for a
  signed-out provider exactly if a token is stored again before it fires, by another tab or by a
  refresh that ends late (`SharedSocket.LogoutSilencesExactly`,
  `SharedSocket.DelayedConnectAfterLogout`).
* An older state snapshot overwrites newer positions, and an older positions response a newer state
  snapshot (`LiveStore.CrossPathExactly`, `LiveStore.CrossPathBackExactly`, `LiveStore.MixedPathsEnd`,
  `LiveStore.OlderSnapshotOverwrites`), although the store's own comment
  (`frontend/src/store/userLiveStore.ts:21-22`) says stale responses are discarded.
* The trade comparator goes round in a circle on some lists (`TradeOrder.ConsistentExactly`,
  `TradeOrder.ThreeTradesClash`).

Check everything with `dafny verify dfyconfig.toml --resource-limit 2000000` (Dafny 4.11).

## Model

| member | source | states |
|---|---|---|
| Slicing.SliceForFreezeLimit | backend/src/garuda/capital/sizing.py:44-78 | a refusal means no legal split of the quantity exists; a success is legal whole-lot orders within the freeze limit that add up to the quantity, all of the largest order the exchange takes but the last, and no legal split uses fewer |
| Slicing.FullThenRest | backend/src/garuda/capital/sizing.py:64-78 | full orders followed by the rest make the best split there is |
| Slicing.FewestOrders | backend/src/garuda/capital/sizing.py:72-78 | every legal split of the quantity has at least as many orders |
| Slicing.SplitBound | backend/src/garuda/capital/sizing.py:64-76 | no legal split carries more than the largest whole-lot order in each of its orders |
| Slicing.NoSplit | backend/src/garuda/capital/sizing.py:54-70 | an odd quantity, or a freeze limit below one lot, admits no legal split at all |
| Slicing.OneOrder | backend/src/garuda/capital/sizing.py:60-62 | a quantity the exchange takes whole is best sent whole |
| Sizing.Sizer.Size | backend/src/garuda/capital/sizing.py:90-160 | every refusal and its order; otherwise the lots, quantity, notional and best split, or no slices with the refusal that goes with the ratio and scale |
| Sizing.RequestChecked | backend/src/garuda/capital/allocation.py:32-39 | a request is refused for its price first, then for its capital's currency |
| Sizing.AllocatorAnswers | backend/src/garuda/capital/allocation.py:54-121 | a fixed count is answered as it is, capital always answers, and risk refuses exactly a stop in another currency |
| Sizing.NotionalScales | backend/src/garuda/capital/allocation.py:41-44 | worth is the price of one at multiplier one, in proportion to price, quantity and multiplier |
| Sizing.NegativeFromAWholeLot | backend/src/garuda/capital/allocation.py:87-92 | rounding is toward zero: negative capital gives a negative count exactly from a whole lot below |
| Sizing.CapTaken | backend/src/garuda/capital/sizing.py:84-130 | a cap is the most there can be and touches nothing below it |
| Sizing.CapitalBudget | backend/src/garuda/capital/allocation.py:71-92 | for every ratio, scale and cap, and capital of either sign: the position costs at most utilised capital times ratio and scale; it stays within the utilised capital when neither exceeds one, and in general exactly when the cap is within what was afforded or the ratio's whole lots times the scale come to less than one lot more; and unreduced, one lot more would not fit |
| Sizing.FitsExactly | backend/src/garuda/capital/sizing.py:115-130 | the lots sized are no more than those afforded exactly under that condition on the inputs |
| Sizing.FitsByRatio | backend/src/garuda/capital/sizing.py:178-189 | at full scale and without a cap the ratio alone decides it |
| Sizing.RiskBudget | backend/src/garuda/capital/allocation.py:95-121 | the same for what the position loses at its stop, against the fraction of capital risked; without a stop there is no position |
| Sizing.DoubleLegOverspends | backend/src/garuda/domain/intent.py:59-74 | a leg of ratio two costs more than any capital that affords one lot |
| Sizing.MoreCapitalMoreLots | backend/src/garuda/capital/sizing.py:115-130 | for every allocator, more capital and a larger scale never size down |
| Sizing.FlooringTwice | backend/src/garuda/capital/sizing.py:162-189 | flooring the ratio and then the scale gives up at most one lot against flooring once |
| Sizing.SizedMono | backend/src/garuda/capital/sizing.py:115-130 | ratio, scale and cap together are monotone in the lots afforded and in the scale |
| Sizing.SizedNotNegative | backend/src/garuda/capital/sizing.py:115-130 | lots stay between zero and what was afforded, and are what was afforded when nothing reduces them |
| Sizing.WholeUnits | backend/src/garuda/capital/allocation.py:87-92 | the floor of budget over cost is the most whole units the budget holds |
| Sizing.RefusalHonesty | backend/src/garuda/capital/sizing.py:132-151 | the wording of a refusal is wrong exactly when the capital afforded something and the ratio left less than a lot of it, or the scale was no reduction, or a zero cap took what the scale had left |
| Sizing.RefusalNames | backend/src/garuda/capital/sizing.py:132-151 | a leg the scale took is refused naming the lots the ratio left and the reason, exactly when lots were left and the scale is below one |
| Sizing.HalfLotHedgeBlamesCapital | backend/src/garuda/capital/sizing.py:132-151 | one affordable lot of a half-size leg is refused as capital affording none |
| EventDays.Resolution | backend/src/garuda/capital/event_days.py:96-115 | the strategy's last own figure for the date, else the last event-day figure, else full size |
| EventDays.ScaleIsThePercentage | backend/src/garuda/capital/event_days.py:117-124 | the scale is the percentage over a hundred: none of normal size sizes nothing, a full day sizes as any other |
| EventDays.IndexHoldsLast | backend/src/garuda/capital/event_days.py:96-105 | an index holds a key exactly when a row has it, and holds the last such row |
| EventDays.EventDayNeverSizesUp | backend/src/garuda/capital/event_days.py:107-124 | the scale lies in [0, 1] and no leg is sized above what an ordinary date gives |
| Sessions.HolderClassified | backend/src/garuda/brokers/sessions.py:219-236 | on every account graph: success exactly with the one account that logs in within four borrowings, and loop, missing account and too far exactly when the chain alone says so |
| Sessions.WalkClassified | backend/src/garuda/brokers/sessions.py:219-236 | the same from any point of the walk, over the accounts passed so far |
| Sessions.StaysInLoop | backend/src/garuda/brokers/sessions.py:224-229 | a chain that closes on itself never leaves the accounts it has passed and never reaches a login |
| Sessions.ChainRefusalsTell | backend/src/garuda/brokers/sessions.py:224-235 | a loop is reported as the chain that was passed, up to where it closes, and too long a chain with the account and the number passed |
| Sessions.ChainAnswers | backend/src/garuda/brokers/sessions.py:177-236 | exactly when an account is refused as unknown, as disabled, for a loop, for too long a chain, or for a missing link, from the configuration alone |
| Sessions.HolderAnswers | backend/src/garuda/brokers/sessions.py:183-217 | for an enabled account whose chain reaches a login within four borrowings: no session, an expired one and no key are each reported exactly when the holder is so, in that order, and there are credentials exactly when it has all three |
| Sessions.SessionResolver.SessionHolder | backend/src/garuda/brokers/sessions.py:219-236 | the loop ends on every graph with that classification |
| Sessions.SessionResolver.CredentialsFor | backend/src/garuda/brokers/sessions.py:177-217 | credentials or the first refusal in order: configured, enabled, chain, session, freshness, key |
| Sessions.BorrowedExactlyWhenNamed | backend/src/garuda/brokers/sessions.py:84-86 | credentials are borrowed exactly when the account names another's |
| Sessions.SharedHolderSharedFate | backend/src/garuda/brokers/sessions.py:177-217 | accounts reaching one holder succeed together, on one token and key, and each keeps its own client id, broker and route |
| Sessions.StreamingListed | backend/src/garuda/brokers/sessions.py:238-248 | the accounts to stream come in the table's order, none twice and none left out, and none of them is refused credentials for being unknown or switched off |
| Streams.NeighboursAlternate | backend/src/garuda/brokers/streams.py:129-180 | an account's neighbouring events alternate, and a close closes the stream the connect before it opened |
| Streams.FirstEventConnects | backend/src/garuda/brokers/streams.py:129-180 | an account's first event is a connect |
| Streams.OneMoreConnectThanClose | backend/src/garuda/brokers/streams.py:270-282 | connects exceed closes by one for an account with a stream and by none for any other |
| Streams.StartAllAdds | backend/src/garuda/brokers/streams.py:107-127 | a start adds exactly the accounts that could be opened, on new streams, and moves no running one |
| Streams.StartAllSound | backend/src/garuda/brokers/streams.py:107-180 | tasks and streams keep the same accounts, and the streams held are those the trace leaves open |
| Streams.StartAllConnects | backend/src/garuda/brokers/streams.py:107-127 | nothing happens in a start but connects of accounts without a stream |
| Streams.StartAllRecords | backend/src/garuda/brokers/streams.py:129-180 | an open stream clears its account's failures, a refused connection counts as one more, missing credentials do not count, each with its reason, and nobody else's health changes |
| Streams.StartedInOrder | backend/src/garuda/brokers/streams.py:114-127 | started accounts are reported in the order they were taken |
| Streams.ReportedOnce | backend/src/garuda/brokers/streams.py:107-127 | each eligible account is reported once: started exactly when it now runs, else unavailable with its reason |
| Streams.ReconcileEffect | backend/src/garuda/brokers/streams.py:257-268 | a reconciliation does not touch a running account, and what had stopped never keeps its old stream |
| Streams.RunningUntouched | backend/src/garuda/brokers/streams.py:257-268 | no event of a running account in the sweep or the start after it |
| Streams.BackoffGrows | backend/src/garuda/core/backoff.py:32-35 | the wait never shrinks as failures mount and never passes the maximum |
| Streams.BackoffMultiplies | backend/src/garuda/core/backoff.py:32-35 | the first wait is the initial one and each further failure multiplies it, up to the maximum |
| Streams.AccountStreamManager.Open | backend/src/garuda/brokers/streams.py:129-180 | a success opens a new stream; a failure opens none and is recorded |
| Streams.AccountStreamManager.Start | backend/src/garuda/brokers/streams.py:107-127 | the invariant, the new state, and the two reports |
| Streams.AccountStreamManager.Sweep | backend/src/garuda/brokers/streams.py:257-262 | exactly the streams whose tasks had ended are closed |
| Streams.AccountStreamManager.WorstFailures | backend/src/garuda/brokers/streams.py:263-267 | the most failures in a row of any account |
| Streams.AccountStreamManager.Reconcile | backend/src/garuda/brokers/streams.py:257-268 | sweep, then start; it waits only when nothing runs and something has failed |
| Streams.AccountStreamManager.Stop | backend/src/garuda/brokers/streams.py:284-289 | nothing runs, every connect ever made has been closed, and everyone is marked disconnected |
| Alerts.EveryRunFaithful | backend/src/garuda/alerts/manager.py:134-254 | over every run: a key's alert is the summary of its stored raises since its day was forgotten, it was toasted exactly for the interruptions of that history, throttled raises are an interval apart, and calls = raises + announced + pending |
| Alerts.StepKeepsFaith | backend/src/garuda/alerts/manager.py:134-254 | each call keeps that invariant |
| Alerts.SummaryMeans | backend/src/garuda/domain/alert.py:102-119 | the coalesced alert counts every raise, keeps the worst level, the latest wording and time, and the first time |
| Alerts.StormToasts | backend/src/garuda/alerts/manager.py:196-210 | N raises at one attention-demanding level interrupt once, and once more for each of 10, 100, 1000 reached |
| Alerts.AtMostFiveToasts | backend/src/garuda/alerts/manager.py:196-210 | no mixture of levels under one key interrupts more than five times |
| Alerts.RepeatInterruptsExactly | backend/src/garuda/alerts/manager.py:196-210 | any raise interrupts exactly when it is asked for or its key has been more than informational, and it is the first, a milestone, or the first critical |
| Alerts.DroppedExactly | backend/src/garuda/alerts/manager.py:144-194 | a report is dropped exactly when it is one of the routine trading forms, informational, and not asked for; otherwise it is raised as reported |
| Alerts.WarningOverInfoIsSilent | backend/src/garuda/alerts/manager.py:196-210 | a warning after an informational raise of its key shows no toast, though line 22 promises one |
| Alerts.AnnouncementReaches | backend/src/garuda/alerts/manager.py:212-237 | a pending count is spent at the next raise let through: the first alert then published carries it in its message, or nothing is published, exactly when that raise is not worth storing |
| Alerts.ThrottledExactly | backend/src/garuda/alerts/manager.py:227-237 | in every state a run reaches, a throttled call passes exactly when the throttle has let nothing through yet or not for an interval, taking along what was suppressed since, and is suppressed otherwise |
| Alerts.NoteTellsCount | backend/src/garuda/alerts/manager.py:233-236 | no two suppressed counts make the same message |
| Alerts.NoteKeepsMessage | backend/src/garuda/alerts/manager.py:233-236 | the wording stays in front, and with nothing suppressed there is no note |
| Alerts.ToastsDurableExactly | backend/src/garuda/alerts/manager.py:172-187 | every toast follows its own stored alert exactly when the sink took every alert that interrupted, which lines 27-28 promise always |
| Alerts.ToastWithoutSink | backend/src/garuda/alerts/manager.py:172-187 | one warning without a sink: its toast goes out unstored |
| Alerts.AlertManager.RaiseAlert | backend/src/garuda/alerts/manager.py:134-188 | the new desk, what was published, stored and toasted in order and in step with the journal, and the merged alert |
| Alerts.AlertManager.Throttled | backend/src/garuda/alerts/manager.py:212-237 | suppressed and counted within the interval, else raised with the count announced |
| Alerts.AlertManager.ForgetDay | backend/src/garuda/alerts/manager.py:244-254 | that day's alerts and every throttle are dropped, and how many alerts |
| Persistence.CoherentExactly | backend/src/garuda/composition/persistence.py:64-82 | a flush leaves every remembered fingerprint that of the stored row exactly when no refused write lost a row |
| Persistence.FlushedExactly | backend/src/garuda/composition/persistence.py:64-82 | the same for one table's loop of a flush, with its count |
| Persistence.ChangedOnDisk | backend/src/garuda/composition/persistence.py:64-82 | the count is at least the number that differed on disk, and exactly that when every listed row the store holds as it is has its id remembered |
| Persistence.NeverRetried | backend/src/garuda/composition/persistence.py:64-82 | after an uninterrupted sweep of a table further sweeps write nothing, whatever was lost |
| Persistence.FlushBooksExactly | backend/src/garuda/composition/persistence.py:64-82 | a flush of trades and signals gives a count exactly when no changed row's write raises; then the store agrees with the book on both exactly when no refused write lost a row, and the count is the number that had changed |
| Persistence.BooksNeverRetried | backend/src/garuda/composition/persistence.py:64-82 | a second flush of the same book writes nothing and changes nothing |
| Persistence.RaisedIsRetried | backend/src/garuda/composition/persistence.py:84-94 | a write that raised is repeated, and the next flush brings the store level with the book |
| Persistence.RaisedExactly | backend/src/garuda/composition/persistence.py:64-82 | a sweep is cut short exactly by a changed row whose write raises |
| Persistence.SweepDoes | backend/src/garuda/persistence/trade_store.py:57-92 | what a sweep does to each row: written, refused, or left as it was |
| Persistence.RunCoherent | backend/src/garuda/composition/persistence.py:52-112 | over every run of restores, archivings, flushes and book changes, whatever the store does with each write: every remembered fingerprint is at all times that of the stored row, exactly when no refused write lost a row, no restore read one as something else, and no archived trade was still remembered |
| Persistence.EventCoherentExactly | backend/src/garuda/composition/persistence.py:52-112 | the same for one event |
| Persistence.RefusedWriteIsLost | backend/src/garuda/persistence/trade_store.py:77-92 | a first write that is refused counts as written, is stored nowhere, and is not written again |
| Persistence.RestoredExactly | backend/src/garuda/composition/persistence.py:105-112 | a restore remembers exactly the rows that can be read, each as it reads |
| Persistence.RestoredBookIsNotRewritten | backend/src/garuda/composition/persistence.py:105-112 | after a restore that reads every row back, the first flush of that book writes nothing |
| Persistence.TradePersistence.FlushOnce | backend/src/garuda/composition/persistence.py:64-82 | trades then signals, the count, and nothing after a write that raises |
| ApiClient.RunSound | frontend/src/api/client.ts:149-203 | over every run at most one refresh is in flight, the queue holds each waiting request once, and is empty when no refresh is in flight |
| ApiClient.StepSound | frontend/src/api/client.ts:149-203 | each event keeps that, and the books of sends, waits and led refreshes |
| ApiClient.AnsweredExactly | frontend/src/api/client.ts:149-180 | what each answer does: resolved, rejected, queued or leading, exactly by the marks, the endpoint, the token and the flag, and nobody else moves |
| ApiClient.ResolvedExactly | frontend/src/api/client.ts:138-203 | over every run a caller gets a result exactly when the server once answered its request |
| ApiClient.RunStaysOut | frontend/src/api/client.ts:150-155 | over every run a sign-in request goes out once and neither waits for nor starts a refresh |
| ApiClient.FailureRedirectsOnce | frontend/src/api/client.ts:39-47 | the first refresh to fail clears the refresh token and starts the redirect, later ones find it started |
| ApiClient.EveryWaiterLeaves | frontend/src/api/client.ts:28-36 | the end of a refresh empties the queue: each waiter is sent again once on success and dropped on failure, and nothing else moves |
| ApiClient.StepDecreases | frontend/src/api/client.ts:149-203 | every response and every end of a refresh uses up that measure |
| ApiClient.RunsEnd | frontend/src/api/client.ts:149-203 | however the server answers, whatever tokens come and go and whenever requests are sent, responses and refreshes are bounded by a measure of the start and the number of requests |
| ApiClient.LeadsAtMostOnce | frontend/src/api/client.ts:176-180 | no request leads more than one refresh |
| ApiClient.StrandedExactly | frontend/src/api/client.ts:33-36 | requests are stranded exactly by a refresh failing while some wait |
| ApiClient.AllSettledExactly | frontend/src/api/client.ts:33-36 | at rest every caller has been answered exactly when no refresh failed over waiters |
| ApiClient.SecondCallerNeverHears | frontend/src/api/client.ts:190-201 | two requests expire together, the refresh fails, and the second caller's promise stays open |
| ApiClient.Interceptor.OnResponse | frontend/src/api/client.ts:149-180 | settled, rejected, queued or leading, as flags and marks decide |
| ApiClient.Interceptor.OnTokenRefreshed | frontend/src/api/client.ts:27-31 | each waiter is sent again exactly once and the queue is emptied |
| ApiClient.Interceptor.OnRefreshEnds | frontend/src/api/client.ts:182-202 | the leader and its waiters after success and after failure |
| SharedSocket.RunKept | frontend/src/context/WebSocketContext.tsx:177-347 | over every run, the current socket has its handlers, nothing is sent on a socket still connecting, and attempts stay within fifty |
| SharedSocket.StepKept | frontend/src/context/WebSocketContext.tsx:177-347 | each event keeps that |
| SharedSocket.RunSingleExactly | frontend/src/context/WebSocketContext.tsx:177-347 | throughout a run, handlers sit on the current socket alone exactly when no step runs `connect` over a socket on its way out |
| SharedSocket.TwoReconnectsOverrun | frontend/src/context/WebSocketContext.tsx:424-468 | a run from the start after which two sockets have live handlers |
| SharedSocket.RunSteady | frontend/src/context/WebSocketContext.tsx:177-347 | such a step needs a socket that left CONNECTING or OPEN before its close event |
| SharedSocket.SingleExactly | frontend/src/context/WebSocketContext.tsx:177-347 | in any state, a step keeps handlers on the current socket alone exactly when it does not run `connect` over a socket on its way out |
| SharedSocket.ConnectSingle | frontend/src/context/WebSocketContext.tsx:177-222 | the same for `connect` itself, whatever authentication its closure captured |
| SharedSocket.StepSteady | frontend/src/context/WebSocketContext.tsx:424-506 | each event but an early leaving of OPEN or CONNECTING keeps that |
| SharedSocket.RunServedExactly | frontend/src/context/WebSocketContext.tsx:222-246 | throughout every run, every subscriber's channels have been sent on the current socket whenever it is open, exactly when nobody subscribes on an open socket to a channel marked active that was never sent on it |
| SharedSocket.ServedExactly | frontend/src/context/WebSocketContext.tsx:374-383 | the same for one step, in any state a run reaches |
| SharedSocket.SkipNeedsOpenForNobody | frontend/src/context/WebSocketContext.tsx:236-240 | such a subscription needs an earlier open that found no channel subscribed and some still marked active |
| SharedSocket.ReturningPageIsSkipped | frontend/src/context/WebSocketContext.tsx:374-383 | a run from the start that ends in such a subscription |
| SharedSocket.RunCoversExactly | frontend/src/context/WebSocketContext.tsx:236-240 | throughout every run, what is subscribed is marked active and what is marked active has been sent whenever the socket is open, exactly when no socket of the run opens that way |
| SharedSocket.CoversExactly | frontend/src/context/WebSocketContext.tsx:236-240 | one step keeps the marks true of the open socket exactly when it is not such an open |
| SharedSocket.RetryAfterLeavingOpensForNobody | frontend/src/context/WebSocketContext.tsx:236-240 | a run from the start to such an open |
| SharedSocket.OpenForNobodyMissesSubscriber | frontend/src/context/WebSocketContext.tsx:375-383 | after such an open, the next subscriber to a marked channel never has it sent |
| SharedSocket.LogoutSilencesExactly | frontend/src/context/WebSocketContext.tsx:198-206 | after losing authentication, whatever happens until the next sign-in, no socket is live at any time exactly when no timer armed while signed in fires while a token is stored |
| SharedSocket.LogoutWithoutToken | frontend/src/hooks/useAuth.ts:76-83 | as long as nothing stores a token again, no socket is live, whatever timers are left |
| SharedSocket.DelayedConnectAfterLogout | frontend/src/context/WebSocketContext.tsx:464-467 | a run from the start in which the delayed connect makes a socket for a signed-out provider |
| SharedSocket.DelayDoublesToTheMaximum | frontend/src/context/WebSocketContext.tsx:292-296 | one second, doubling, and thirty seconds from the sixth attempt on |
| SharedSocket.ClosesExactly | frontend/src/context/WebSocketContext.tsx:260-323 | a closing arms a new timer, pending, and counts one attempt exactly when its code is not 4001, somebody is subscribed and fewer than fifty were made; 4001 marks the market closed and changes neither timers nor attempts |
| SharedSocket.RunNumbered | frontend/src/context/WebSocketContext.tsx:308-312 | over every run each timer armed is a new one |
| SharedSocket.OpensExactly | frontend/src/context/WebSocketContext.tsx:222-246 | an open with its handler starts the count afresh and clears every mark; without it nothing but the socket changes |
| SharedSocket.NewSocketExactly | frontend/src/context/WebSocketContext.tsx:177-222 | a step makes a socket, current and connecting, exactly when it is a subscription or sign-in that finds none in use, or a timer that finds none open, signed in, with a token, and nothing under way |
| SharedSocket.ResetsExactly | frontend/src/context/WebSocketContext.tsx:424-506 | reconnecting and losing authentication call off the timer last armed, let go of the socket and clear the count; reconnecting arms one delayed connect |
| SharedSocket.SpentExactly | frontend/src/context/WebSocketContext.tsx:309-312 | a timer that fires is spent, and the pending mark goes with a retry |
| SharedSocket.AuthExactly | frontend/src/context/WebSocketContext.tsx:470-506 | loading, signed in and signed out are what the auth store last said, and the stored token changes only by being stored, removed or signed away |
| SharedSocket.FailsExactly | frontend/src/context/WebSocketContext.tsx:325-347 | an error with its handler attached ends the connecting and nothing else |
| SharedSocket.SubscribersExactly | frontend/src/context/WebSocketContext.tsx:368-412 | subscribing and leaving change their own entry, and nothing else changes who is subscribed |
| SharedSocket.Provider.Connect | frontend/src/context/WebSocketContext.tsx:177-222 | its guards in order, the new socket, and a constructor that throws |
| SharedSocket.Provider.Subscribe | frontend/src/context/WebSocketContext.tsx:350-399 | registers, sends what is new on an open socket, or connects when nothing is under way |
| SharedSocket.Provider.OnSocketOpen | frontend/src/context/WebSocketContext.tsx:222-246 | counters reset and every subscribed channel sent, if the handler is still attached |
| SharedSocket.Provider.OnSocketClose | frontend/src/context/WebSocketContext.tsx:260-323 | no retry on 4001, a retry for remaining subscribers otherwise |
| SharedSocket.Provider.OnAuthChange | frontend/src/context/WebSocketContext.tsx:470-506 | nothing while the auth state loads; sign-out drops timer and socket; sign-in connects for waiting subscribers |
| LiveTypes.PositionKeyInjective | frontend/src/store/userLiveStore.ts:26-27 | keys tell broker, symbol, product and mode apart when no name holds the separator |
| LiveTypes.SymbolKeyInjective | frontend/src/utils/positionCompare.ts:52 | keys tell symbol and product apart when no symbol holds the separator |
| LiveTypes.SeparatorCollides | frontend/src/store/userLiveStore.ts:26-27 | with a separator in a symbol or product, different positions share a key |
| LiveStore.NewestSnapshotWins | frontend/src/store/userLiveStore.ts:108-126 | any interleaving of snapshots and updates ends as the rows of the newest snapshot under the updates that came after it |
| LiveStore.DeliveryOrderIrrelevant | frontend/src/store/userLiveStore.ts:108-126 | order and repeats of positions responses do not matter when their times are distinct |
| LiveStore.SwapExactly | frontend/src/store/userLiveStore.ts:108-126 | two responses can be swapped exactly when their times differ, their rows agree, or both are late |
| LiveStore.WatermarkOf | frontend/src/store/userLiveStore.ts:108-126 | the watermark is the greatest time delivered |
| LiveStore.CrossPathExactly | frontend/src/store/userLiveStore.ts:181-215 | a state snapshot of whatever age leaves newer positions alone exactly when it is stale on its own path, carries none, or carries the same |
| LiveStore.CrossPathBackExactly | frontend/src/store/userLiveStore.ts:108-126 | a positions response of whatever age leaves the positions of a newer state snapshot alone exactly when it is stale on its own path or carries the same |
| LiveStore.MixedPathsEnd | frontend/src/store/userLiveStore.ts:108-215 | any mixture of positions responses, state snapshots and updates ends as the rows of the last arrival that was fresh on its own path, under the updates after it |
| LiveStore.OlderSnapshotOverwrites | frontend/src/store/userLiveStore.ts:181-215 | positions of time two give way to a state snapshot of time one |
| LiveStore.LogGivesLastValues | frontend/src/store/userLiveStore.ts:227-246 | a log of updates leaves each known trade with the last value given for each field, and adds and removes none |
| LiveStore.FieldsEndAsGiven | frontend/src/store/userLiveStore.ts:227-246 | field by field, each of the eight takes its own last value and the rest of the trade stays as it was |
| LiveStore.ReplayChangesNothing | frontend/src/store/userLiveStore.ts:227-246 | replaying a whole log changes nothing |
| LiveStore.UpdatesCommute | frontend/src/store/userLiveStore.ts:227-246 | updates to different trades commute |
| LiveStore.PageHoldsLast | frontend/src/store/userLiveStore.ts:160-167 | rows written over a table leave each id its last row and touch no other id |
| LiveStore.PageAgain | frontend/src/store/userLiveStore.ts:160-167 | appending a page again changes nothing |
| LiveStore.TablesHoldLast | frontend/src/store/userLiveStore.ts:108-126 | a response's algo and broker tables hold, under each key of any of its brokers, the last row listed, and nothing else |
| LiveStore.TimesHoldLast | frontend/src/store/userLiveStore.ts:113-117 | a broker's time is the last that the response gives for it |
| LiveStore.TimesElsewhereKept | frontend/src/store/userLiveStore.ts:113-117 | a broker that the response does not name keeps its time |
| LiveStore.TradesOfAll | frontend/src/store/userLiveStore.ts:80-88 | the index holds every id that any broker lists, and no empty one |
| LiveStore.TradesHoldLast | frontend/src/store/userLiveStore.ts:80-88 | under it, the last row of the last broker that lists it |
| LiveStore.UserLiveStore.ApplyPositionsSnapshot | frontend/src/store/userLiveStore.ts:108-126 | a late response changes nothing, a newer one replaces both position maps |
| LiveStore.UserLiveStore.ApplyRestSnapshot | frontend/src/store/userLiveStore.ts:181-215 | trades, positions with their times, margins and capital are each replaced when the response carries them, behind its own watermark |
| LiveStore.UserLiveStore.ApplyActiveSnapshot | frontend/src/store/userLiveStore.ts:146-158 | finished trades stay, live ones are replaced |
| LiveStore.UserLiveStore.AppendCompletedPage | frontend/src/store/userLiveStore.ts:160-167 | the page is written over what is there |
| LiveStore.UserLiveStore.SetCancelled | frontend/src/store/userLiveStore.ts:169-179 | cancelled trades go, every other stays, and the given list is written over them |
| LiveStore.UserLiveStore.ApplyTradeUpdate | frontend/src/store/userLiveStore.ts:227-246 | merges into a known trade; answers whether the caller need not fetch it |
| LiveStore.UserLiveStore.Index | frontend/src/store/userLiveStore.ts:80-88 | the trades of all brokers by id |
| Rounding.RoundingTwice | frontend/src/utils/pnlEngine.ts:24 | rounding a part before adding costs at most a cent, and nothing when the part is whole cents |
| Rounding.RoundedSum | frontend/src/utils/pnlEngine.ts:24 | a rounded sum is within a cent of the sum of the roundings |
| Rounding.WholeAtMostOneApart | frontend/src/utils/pnlEngine.ts:24 | whole cents less than two apart are at most one apart |
| Rounding.RoundedIsWhole | frontend/src/utils/pnlEngine.ts:24 | rounding gives whole cents within half a cent |
| Pnl.SplitFeedMatchesWhole | frontend/src/utils/pnlEngine.ts:96-198 | tiles composed from the unfinished trades and the server's roll-ups are those of all trades: exactly but for charges and net, which are within a cent, and exactly there too when the live charges are whole cents; for all brokers or any one |
| Pnl.ServerSums | frontend/src/utils/pnlEngine.ts:157-172 | the roll-ups of all brokers, or of one, are the sums of the finished trades |
| Pnl.ModesAddUp | frontend/src/utils/pnlEngine.ts:96-146 | live plus paper is mixed: exactly in counts, staleness and unrealized, within a cent in realized and charges |
| Pnl.RowsConserve | frontend/src/utils/pnlEngine.ts:210-239 | strategy rows partition the mode's trades: counts and unrealized exactly, realized to half a cent a row |
| Pnl.KeysPartition | frontend/src/utils/pnlEngine.ts:210-239 | tallies by key add up to the tally of every trade with one of the keys |
| Pnl.TallyDivides | frontend/src/utils/pnlEngine.ts:96-146 | tallies of two halves add up to the tally of the whole |
| Pnl.UnrealizedTallyIsWhole | frontend/src/utils/pnlEngine.ts:38-52 | unrealized sums are whole cents, so rounding them again changes nothing |
| Pnl.ShortMirrorsLong | frontend/src/utils/pnlEngine.ts:38-52 | a short trade mirrors the long one at every price, to the cent |
| Pnl.OpenTradeGains | frontend/src/utils/pnlEngine.ts:38-52 | an open trade with a live price is worth, to the cent, the move since entry in its own direction times quantity and multiplier; a long never loses above its entry, nor a short below |
| Pnl.UnpricedTrade | frontend/src/utils/pnlEngine.ts:38-48 | nothing is unrealized on a finished, unfilled or entryless trade, and without a live price the server's last figure stands, marked stale |
| Pnl.AggregateMeans | frontend/src/utils/pnlEngine.ts:96-146 | the aggregate counts the mode's trades by state, sums what the finished ones made, what the others stand at and all charges, each rounded once; total and net are exact, and one stale price makes it stale |
| Pnl.AggregatePnl | frontend/src/utils/pnlEngine.ts:96-146 | the loop computes that aggregate |
| Pnl.AggregateServerSummary | frontend/src/utils/pnlEngine.ts:157-172 | the loop's sums over all brokers, or one |
| Pnl.StrategyRowMeans | frontend/src/utils/pnlEngine.ts:210-239 | a row counts its strategy's trades of the mode and those still on, and sums what they made and stand at |
| Pnl.StrategySummaries | frontend/src/utils/pnlEngine.ts:210-239 | the loop makes such a row per strategy, in order of first appearance |
| Sorting.SortSorts | frontend/src/utils/formatters.ts:207 | a sort by a consistent comparator is sorted |
| Sorting.SortPermutes | frontend/src/utils/positionCompare.ts:133 | a sort is a permutation, whatever the comparator |
| Sorting.SortKeepsTies | frontend/src/utils/formatters.ts:207 | elements the comparator cannot tell apart keep their order |
| PositionCompare.ComputeMismatches | frontend/src/utils/positionCompare.ts:54-140 | one row per key as the two sides give it, flagged first, then by symbol, level rows in key order |
| PositionCompare.EachKeyOnce | frontend/src/utils/positionCompare.ts:54-70 | each key of the live inputs appears exactly once and nothing else does |
| PositionCompare.RowSays | frontend/src/utils/positionCompare.ts:70-128 | each row says of either side whether its key is there and what its last live position gives, and draws differences and flags from these alone |
| PositionCompare.DifferencesConserve | frontend/src/utils/positionCompare.ts:70-80 | quantity differences add up to broker less algo less worthless, over the kept rows |
| PositionCompare.ExplainedRaisesNothing | frontend/src/utils/positionCompare.ts:99-108 | a row explained by worthless legs raises no flag |
| PositionCompare.OneSidedUnflaggedExactly | frontend/src/utils/positionCompare.ts:99-107 | a row on one side only goes unflagged exactly when worthless legs explain it |
| PositionCompare.PnlFlaggedExactly | frontend/src/utils/positionCompare.ts:82-108 | profit is flagged exactly when the difference passes a tenth of algo's, or algo has none and the broker some |
| PositionCompare.FlaggedFirst | frontend/src/utils/positionCompare.ts:132-145 | the flagged rows are exactly the first `mismatchCount` |
| PositionCompare.AllKeysOnce | frontend/src/utils/positionCompare.ts:57-66 | the keys looked at are those of either side, once each |
| PositionCompare.OrderConsistent | frontend/src/utils/positionCompare.ts:132-138 | the comparator of the rows is consistent on every list |
| TradeOrder.ConsistentExactly | frontend/src/utils/formatters.ts:207-249 | the comparator orders a list consistently exactly when no three of its trades clash |
| TradeOrder.ClashGoesRound | frontend/src/utils/formatters.ts:226-248 | two trades of a group with different symbols and an outsider level with both make it go round |
| TradeOrder.ThreeTradesClash | frontend/src/utils/formatters.ts:226-248 | such a list: two legs of a combo and a trade started beside them |
| TradeOrder.NoTiesClashFree | frontend/src/utils/formatters.ts:221-248 | without shared sort times across groups nothing clashes |
| TradeOrder.StrategiesInOrder | frontend/src/utils/formatters.ts:207-219 | strategies come in descending latest time, each in one piece |
| TradeOrder.StrategiesByName | frontend/src/utils/formatters.ts:211-219 | strategies of one latest time stand in the order of their names |
| TradeOrder.TimesDescend | frontend/src/utils/formatters.ts:237-248 | within a strategy and outside a group, later sort times come first, and directions stand in order at one time |
| TradeOrder.LegsBySymbol | frontend/src/utils/formatters.ts:226-235 | legs of a group stand by direction, then symbol |
| TradeOrder.WhatBinds | frontend/src/utils/formatters.ts:166-168 | a combo binds first, then the hedge, then the pair; a trade with none stands for itself |
| TradeOrder.GroupsInOnePiece | frontend/src/utils/formatters.ts:221-243 | without ties each correlation group is in one piece |
| TradeOrder.OnlyTiesSplitGroups | frontend/src/utils/formatters.ts:225-248 | an outsider stands inside a group only at its sort time and with a direction between |
| TradeOrder.TieSplitsGroupExactly | frontend/src/utils/formatters.ts:237-248 | and such an outsider does split it, exactly then |
| TradeOrder.LongBeforeShort | frontend/src/utils/formatters.ts:225-235 | in a group LONG comes before SHORT |
| TradeOrder.LatestIsGreatest | frontend/src/utils/formatters.ts:183-205 | a key's latest time is the greatest start among its trades, or zero |
| TradeOrder.LatestTimes | frontend/src/utils/formatters.ts:183-205 | one pass finds the latest start of every key |
| TradeOrder.SortTrades | frontend/src/utils/formatters.ts:180-250 | a permutation always; sorted, with level trades in their old order, when no trades clash |

## Left out

- TradeOrder.SortTrades: on a list whose trades clash only the permutation is promised, since the engine's answer to an inconsistent comparator is its own.
- Pnl.SplitFeedMatchesWhole: takes the server's roll-up to be the exact sums of the finished trades, one per broker; the server's own rounding is not part of this model.
- Floating-point error and `Decimal` context precision: amounts are exact reals.
- Wall-clock jumps backwards are covered in `Alerts` (the interval holds on any clock); elsewhere times are inputs.
- Session expiry: a session is expired when it was created before the day's cut-off, which is an input.
- Order of accounts in the stream sweep: dictionary order is not kept there.
- Readers that end, and other callers, while `start` or `reconcile` is waiting on a connection; counting of received events.
- Message texts, account labels and log lines, except the refusal a sized-to-nothing leg gets and the suppressed count in an alert.
- Checks on blank alert messages and entities, the order of `open_alerts`, and the event bus behind publish.
- What the book itself keeps on restore, changes of the book in the middle of a flush, and the `run_forever` loop; rows are stored and read back under their own ids.
- The summary and tick parts of the live store; `brokerPositionsAsOf` is written but not part of the convergence claim, because it merges across snapshots.
- `positionUnrealizedPnl`, `positionTotalPnl`, `sortTradeSignals` and the market-data account: easy members beside those modelled.
- The HTTP refresh call, response unwrapping and stored items other than the refresh token in the API client; the 403 branch.
- Message dispatch, subscriber callbacks, the token cookie and unmounting of the socket provider.
- A sign-out that leaves an unreadable token stored (the error path of the auth check) is a sign-out followed by a token being stored.
- React components, database migrations, broker HTTP, encryption and the command line.
