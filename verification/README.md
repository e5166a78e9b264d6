# Verified model of MAET's protocols and calculations

A Dafny model of the parts of this trading application where a mistake is hard to see: the live-feed
subscription protocol, the transactional outbox, the canonical indicators, candle building, rate
limiting, the two browser streams and their parser, the once-a-day job, the payoff-leg URL codec and the
restore checks. `dafny verify dfyconfig.toml` checks everything.

Protocols are state machines. A state holds the component's own fields and the world it talks to (far
ends of sockets, armed timers, open transactions, pending requests); a run is any sequence of enabled
events from the start, and the results hold in every state of every run. Code that updates fields is a
class whose methods change them in place, each proved equal to a step function of its machine; code that
fills arrays is a method with loops proved to leave the defined indicator at every index.

| files | subject |
|---|---|
| `FeedWorker`, `AngelOneWorker`, `SubscriptionRegistry`, `Orchestrator` | reference counts of three owners, the token set, and a feed socket that connects, opens, closes, is replaced or dropped |
| `Outbox`, `OutboxPublisher` | concurrent publishers, row locks, sends inside a transaction, crash or rollback anywhere |
| `Series`, `MovingAverages`, `Wilder`, `Channels`, `SuperTrend`, `IndicatorLoops` | what each indicator is, index by index, and the loops that compute it |
| `Candles`, `CandleWriter` | minute candles from a cumulative counter |
| `TokenBucket`, `LruStore` | the bucket, its LRU store and its Redis twin |
| `SseStream`, `SseClient`, `PaperStream`, `PaperStreamManager`, `MarketStream`, `MarketStreamManager`, `StreamUrl` | the incremental parser and the two reconnecting managers |
| `DailySchedule`, `DailyProcessor` | the daily job on any number of instances |
| `LegCodec`, `ExactDecimals`, `Migrations` | the leg codec and the restore checks |
| `Basics`, `IstClock`, `Text`, `NameOrder` | shared values, calendar days, strings, the order of names |

## Where the code differs from its own description

- `shared/indicators/canonical.ts:10-14` promises that index i uses only bars 0..i. +DI and -DI do not:
  because of the early return at line 348 they are missing until 2 * period bars exist, though defined
  from bar `period` on (`Wilder.DiLooksAhead`; exact condition in `Wilder.DiLookahead`).
- SuperTrend's close can be across its line, below it in an uptrend: between crossed bands, after a flat
  market even without a turn. Settings rule this out if and only if 2 * multiplier >= period, so the
  defaults, 10 and 3, do not (`SuperTrend.NeverAcrossExactly`, `SuperTrend.AcrossOnlyBetweenCrossedBands`).
- `src/hooks/use-market-quotes.ts:218-220` means to probe only failures the browser closed, but reads
  `readyState` after `close()`, so a network drop before the first open is probed as well
  (`MarketStream.NetworkDropIsProbed`; exact condition in `MarketStream.CommentHoldsUnlessDropped`).
- Unsubscribing removes the callback whatever else it subscribed to: it undoes subscribing if and only if
  the callback was not listening already (`MarketStream.UnsubscribeUndoes`, `MarketStream.UnsubscribeCanDeafen`).
- The parser counts a CRLF cut between chunks as two line breaks (`SseStream.CutInsideCrlf`).
- Twelve legs that pass the form's validation can exceed the URL's limit of 576 characters and are then
  dropped whole (`LegCodec.UrlCanDropLegs`).
- "At most once per date" for the daily job needs the gap between completion check and lock to be strictly
  less than lifetime minus run time, whatever the run time (`DailySchedule.EqualGapRunsTwice`), and the
  check to be answered before the completion marker expires (`DailySchedule.LateCheckRunsTwice`).
- A refused caller that returns after the reported delay is granted only if capacity is at least 1
  (`TokenBucket.RefusedThenGranted`, `TokenBucket.RedisRefusedThenGranted`); `positiveNumber` admits
  smaller capacities.

## Assumptions

- Prices, volumes and tokens are reals, `null` is `None`, times are integers in milliseconds; the square
  root is any function that is one.
- The feed worker's `start` is called only while stopped; each market release function is called once; a
  frame is delivered or lost, per frame, as the environment chooses.
- `connect` of the paper stream reports an error at most once and `getToken` does not
  reject. A browser moves a dropped event source to CONNECTING and a refused one to CLOSED; `close()`
  makes it CLOSED, and it is silent then.
- A publish that throws counts as not sent. Redis and the instances share one clock.
- Names are compared by one total order where the code mixes `<`, `sort()` and `localeCompare`.

## Model

| member | source | states |
|---|---|---|
| FeedWorker.OneLiveSocketPerUser | server/workers/angelone-ws.ts:80-216 | in every reachable state, under any order of calls, socket events (stale ones too) and timers: at most one live socket per user, never together with a pending reconnect; at most eleven attempts since the last open; while running every managed user has one or the other |
| FeedWorker.ProviderMirrorsTokens | server/workers/angelone-ws.ts:93-158 | on every open current socket that lost no frame the provider's subscribed set is exactly the user's tokens, across updates sent while connecting, logins, reconnects and drops; a connecting socket has been sent nothing |
| FeedWorker.StaleEventsChangeNothing | server/workers/angelone-ws.ts:147-216 | open, message, error and close of a replaced or dropped socket change nothing at all |
| FeedWorker.CloseReconnectsOrGivesUp | server/workers/angelone-ws.ts:147-206 | over every run, told from the events: the close of a live socket gives its user up, with exactly one auth_failed, if and only if ten of the user's sockets in a row closed unopened before it, since it was last managed or last had one open; else it arms one reconnect after 500 ms doubled for each of them, at most 30 s; and after any of them this socket never opened either |
| FeedWorker.HistoryTells | server/workers/angelone-ws.ts:80-216 | in every state of every run the users, sessions and tokens are those ordered by the calls, the attempt counters are the closes in a row that never opened, a live socket is taken for open exactly when it opened, and the worker runs exactly when last started |
| FeedWorker.FailuresAreReported | server/workers/angelone-ws.ts:159-215 | auth_failed is emitted exactly for a credential rejection or a 401 handshake on a live socket, or a close after ten unopened ones in a row, once, with that reason and for that user |
| FeedWorker.LossesAreReal | server/workers/angelone-ws.ts:218-234 | a socket has lost a frame only if the network did not deliver one |
| FeedWorker.StopKeeps | server/workers/angelone-ws.ts:88-91 | after stop there is no user, connection, timer or live socket |
| FeedWorker.StoppedCreatesNothing | server/workers/angelone-ws.ts:88-97 | while stopped no call, event or timer but start creates a socket |
| FeedWorker.NoConnectionAfterStop | server/workers/angelone-ws.ts:80-206 | over any run from a stop to the next start, however late the events, no connection is created |
| FeedWorker.RunsAreSafe | server/workers/angelone-ws.ts:67-216 | the whole invariant of users, connections, timers and far ends holds throughout every run |
| AngelOne.AngelOneWorker.SendSubscription | server/workers/angelone-ws.ts:218-234 | an empty token list sends nothing; otherwise one frame, which the provider applies unless it is lost |
| AngelOne.AngelOneWorker.Connect | server/workers/angelone-ws.ts:135-146 | the method updates the maps exactly as the state machine's connect step |
| AngelOne.AngelOneWorker.ManageUser | server/workers/angelone-ws.ts:93-97 | drops the user, stores the session with no attempts, connects unless stopped: the machine's manage step |
| AngelOne.AngelOneWorker.UpdateTokens | server/workers/angelone-ws.ts:99-111 | stores the new set; on an open socket unsubscribes what left before subscribing what came: the machine's update step |
| AngelOne.AngelOneWorker.DropUser | server/workers/angelone-ws.ts:113-124 | the machine's drop step: timer cleared, connection removed before its socket is closed |
| AngelOne.AngelOneWorker.Start | server/workers/angelone-ws.ts:80-86 | the loop over all users ends in the machine's start step for some order of them |
| AngelOne.AngelOneWorker.Stop | server/workers/angelone-ws.ts:88-91 | the loop over users and connections ends in the machine's stop step for some order covering them all |
| AngelOne.AngelOneWorker.OnOpen | server/workers/angelone-ws.ts:147-158 | the machine's open step: ignored unless current, attempts reset, all tokens subscribed |
| AngelOne.AngelOneWorker.OnMessage | server/workers/angelone-ws.ts:159-186 | the machine's message step: only a credential rejection on the current socket fails authentication |
| AngelOne.AngelOneWorker.OnError | server/workers/angelone-ws.ts:207-215 | the machine's error step: only a 401 handshake on the current socket fails authentication |
| AngelOne.AngelOneWorker.OnClose | server/workers/angelone-ws.ts:187-206 | the machine's close step |
| AngelOne.AngelOneWorker.OnTimer | server/workers/angelone-ws.ts:201-204 | the machine's reconnect step |
| SubscriptionRegistry.RefCountsAreExact | server/orchestrator.ts:163-186 | in every reachable state a symbol's count is its unreleased market subscriptions with multiplicity, plus one if alerts hold it, plus one if paper interest holds it, and no zero is stored |
| SubscriptionRegistry.ProviderHasCountedSymbols | server/orchestrator.ts:70-77 | end to end over every run: with an open feed socket that lost no frame and an unchanged catalog since the last sync, the provider is subscribed to exactly the tokens of the counted symbols, NSE listings before BSE ones |
| SubscriptionRegistry.StaleSinceChange | server/orchestrator.ts:70-77 | the catalog counts as changed only from a change to the next login or hydration |
| SubscriptionRegistry.CatalogIsLatest | server/orchestrator.ts:70-77 | over every run tokens are looked up in the catalog last loaded; a login hands its session and the counted symbols' tokens to the feed |
| SubscriptionRegistry.OpeningCounts | server/orchestrator.ts:320-323 | opening a stream adds to each symbol's count as often as its list names it, in any case, and touches no other owner |
| SubscriptionRegistry.ReleasingCounts | server/orchestrator.ts:324-328 | releasing a stream takes exactly that away again |
| SubscriptionRegistry.AlertsHoldTheActive | server/orchestrator.ts:163-186 | after the alerts are read they hold a symbol if and only if some active one upper-cases to it; every other owner's references stay |
| SubscriptionRegistry.PaperHoldsTheFirst | server/modules/paper-trading/interest-subscriptions.ts:169-220 | after paper interest is read it holds a symbol if and only if an NSE working order or position names it and fewer than the cap rank before it, working orders ahead of positions, each by its first row; every other owner's references stay |
| SubscriptionRegistry.ReleaseUndoesOpen | server/orchestrator.ts:320-329 | releasing a market subscription restores every count, for any symbol list with repeats and mixed case |
| SubscriptionRegistry.FollowKeeps | server/orchestrator.ts:166-182 | following a wanted list leaves exactly that set owned with one reference per symbol, and everybody else's references as they were |
| SubscriptionRegistry.ReleaseOwnedKeeps | server/orchestrator.ts:285-290 | after stopping, only market streams hold references |
| SubscriptionRegistry.StepKeeps | server/orchestrator.ts:159-329 | every subscription step and every feed event keeps counts exact and the worker's tokens equal to the counted symbols' tokens |
| Orchestration.Orchestrator.SubscribeSymbol | server/orchestrator.ts:300-307 | counts up; the feed is told exactly when the first reference appears |
| Orchestration.Orchestrator.UnsubscribeSymbol | server/orchestrator.ts:309-318 | counts down; the entry goes and the feed is told exactly when the last reference is released |
| Orchestration.Orchestrator.SubscribeMarketSymbols | server/orchestrator.ts:320-323 | the loop over the symbols is the registry's open step |
| Orchestration.Orchestrator.ReleaseMarketSymbols | server/orchestrator.ts:324-328 | the returned release function is the registry's close step |
| Orchestration.Orchestrator.ReconcileAlertSubscriptions | server/orchestrator.ts:163-186 | both loops together make alerts follow the upper-cased active symbols |
| Orchestration.Orchestrator.ApplyPaperInterest | server/modules/paper-trading/interest-subscriptions.ts:169-220 | paper interest follows its NSE symbols, working orders before positions, capped |
| Orchestration.Orchestrator.LoginAngelOne | server/orchestrator.ts:133-150 | a login hands the worker the tokens of the symbols counted at that moment |
| Outbox.LocksAreExclusive | server/workers/paper-outbox-publisher.ts:79-88 | over every interleaving of publishers with crashes and rollbacks no row is held by two open transactions |
| Outbox.DeliveriesAccountedFor | server/workers/paper-outbox-publisher.ts:79-131 | a row is PUBLISHED exactly when a committed transaction sent it; it was sent once for that commit plus once for each open or lost transaction that sent it |
| Outbox.CommitMarksAPrefix | server/workers/paper-outbox-publisher.ts:90-128 | a committed batch marks exactly a prefix of its claim, backs off at most the row after it by min(2^attempts, 300) s, and leaves every other row as it was |
| Outbox.NoRowIsLost | server/workers/paper-outbox-publisher.ts:79-131 | over any stretch of any run: a written row stays, attempts never fall, a PENDING row turns PUBLISHED if and only if a transaction that published it commits, and a PUBLISHED row never changes again |
| Outbox.StepKeepsRow | server/workers/paper-outbox-publisher.ts:79-131 | no single event of any publisher breaks this; only a commit of a transaction that published the row marks it |
| Outbox.LostLeavesRows | server/workers/paper-outbox-publisher.ts:79-131 | a transaction lost to a crash or rollback leaves every row as it was and frees its locks |
| Outbox.ClaimableExactly | server/workers/paper-outbox-publisher.ts:80-88 | in any store a row is in some enabled claim if and only if it is PENDING, its retry time, if any, is not in the future, and no open transaction holds it |
| Outbox.ClaimsAreOldest | server/workers/paper-outbox-publisher.ts:80-88 | a claim lists such rows oldest first, each once; it leaves one out only when full, and then none older than any it takes |
| Outbox.BackedOffRowsWait | server/workers/paper-outbox-publisher.ts:104-128 | over every run: a row backed off by a committed batch, its attempts grown to n, is in no claim of any publisher before 2^n seconds, at most 300, have passed since the batch began, and from then on, while PENDING and held by nobody, in some enabled claim |
| Outbox.BatchKeepsItsStart | server/workers/paper-outbox-publisher.ts:79-91 | over every run an open batch holds the rows it claimed and began when it claimed them |
| Outbox.RowsComeDue | server/workers/paper-outbox-publisher.ts:80-88 | a row can be taken as soon as it is written, and a PENDING one held by nobody once enough time passes |
| Outbox.UninterruptedBatch | server/workers/paper-outbox-publisher.ts:79-128 | a batch that runs alone ends in the rows and sends its specification names, wherever its publish throws |
| Outbox.PublishNext | server/workers/paper-outbox-publisher.ts:91-103 | the store after k publishes is reached one publish event at a time |
| Outbox.RunsKeep | server/workers/paper-outbox-publisher.ts:72-131 | the whole invariant of rows, open and committed transactions and sends holds throughout every run |
| OutboxPublishing.OutboxPublisher.ProcessOutboxBatch | server/workers/paper-outbox-publisher.ts:72-131 | the loop publishes in order up to the first throw, backs that row off, and marks exactly what it published; without Redis it changes nothing |
| Candles.VolumeIsConserved | server/workers/candle-writer.ts:43-106 | for every tick stream with flushes anywhere, the volume of all candles ever built (flushed, evicted or held) is the day's highest accepted counter summed over the IST days, minus the first accepted counter |
| Candles.BucketsFoldTheirTicks | server/workers/candle-writer.ts:60-97 | after every run the held buckets are at most 31, in ascending minutes, each the first, highest, lowest and last price of exactly its accepted ticks since the last flush, with the volume by which those ticks raised the day's highest counter |
| Candles.BucketsAreMinutes | server/workers/candle-writer.ts:71-96 | every tick of a held bucket lies in the bucket's own clock minute |
| Candles.AcceptsInOrder | server/workers/candle-writer.ts:43-57 | a tick is taken exactly when its time is readable and no earlier tick was later: an independent statement over the whole history |
| Candles.PeakIsMaximum | server/workers/candle-writer.ts:60-68 | the peak used above is the greatest counter among the day's accepted ticks, attained by one of them |
| IstClock.IstDayIs | server/domain/market/clock.ts:30-32 | a day in India runs for 24 hours from 18:30 UTC |
| CandleWriting.CandleWriter.OnTickReceived | server/workers/candle-writer.ts:43-97 | the in-place update equals the step the conservation law is proved about and touches no other symbol |
| CandleWriting.CandleWriter.FlushSymbol | server/workers/candle-writer.ts:100-106 | returns the held candles oldest first and keeps the counter, day and time |
| CandleWriting.EvictOldest | server/workers/candle-writer.ts:91-96 | the loop drops exactly the oldest buckets beyond 31 |
| TokenBucket.WindowBound | server/middleware/rate-limit.ts:98-119 | for a stored key and non-decreasing times, grants between any two requests are at most capacity plus the refill over that time |
| TokenBucket.AllGrantedExactly | server/middleware/rate-limit.ts:98-119 | requests for a new key in time order are all granted if and only if no stretch of them asks for more than the capacity plus the refill over its time |
| TokenBucket.RefusedThenGranted | server/middleware/rate-limit.ts:98-119 | in memory, a refused caller coming back at any time is granted if and only if capacity is at least 1 and the reported delay is over: it is the least whole number of milliseconds that will do |
| TokenBucket.AnswersAreGrants | server/middleware/rate-limit.ts:98-178 | both stores answer ok exactly for a grant; a grant carries no delay, a refusal a positive one |
| TokenBucket.RedisRefusedThenGranted | server/middleware/rate-limit.ts:73-178 | the same through Redis: the script's stored record, its floored milli-tokens in the delay, and the key expiring or not before the refusal and before the return |
| TokenBucket.RedisRetryExactly | server/middleware/rate-limit.ts:73-178 | through Redis there is a least delay after which the refused caller is granted, and not before; the reported one is no shorter and longer by less than 1 + 1 / refillPerSec milliseconds, what rounding up and flooring to thousandths cost |
| TokenBucket.TimeToLiveIsLeast | server/middleware/rate-limit.ts:142 | the time to live is one second more than the least that earns the whole capacity |
| TokenBucket.ExpiryIsUnobservable | server/middleware/rate-limit.ts:124-144 | whatever keys Redis expires once it may, the grants are those of a memory bucket that is never evicted |
| TokenBucket.ExpiredMeansFull | server/middleware/rate-limit.ts:142 | by the time a key may expire it has earned its whole capacity |
| LruStore.TakeKeepsValid | server/middleware/rate-limit.ts:98-118 | order and map agree and the store never exceeds maxKeys |
| LruStore.TouchedKeyStays | server/middleware/rate-limit.ts:98-118 | a touched key keeps its bucket while at most maxKeys - evictBatch other distinct keys are touched, so its next request sees the tokens it left |
| LruStore.OneMoreKeyEvicts | server/middleware/rate-limit.ts:98-118 | that bound is sharp for every configuration: a run from the empty store after which one other key more evicts a key just touched |
| LruStore.StoreWindowBound | server/middleware/rate-limit.ts:98-119 | over any run of requests for any keys, within any stretch one key's grants are at most its capacity plus the refill over that time, when at most maxKeys - evictBatch other keys come between two of its requests |
| LruStore.MemoryRateLimitStore.TakeToken | server/middleware/rate-limit.ts:98-119 | the in-place method is the store's step with the same answer |
| MovingAverages.SmaNoLookahead | shared/indicators/canonical.ts:48-70 | the SMA on a prefix equals the full series' SMA at every index, warm-up included |
| MovingAverages.EmaNoLookahead | shared/indicators/canonical.ts:76-102 | the EMA on a prefix equals the full series' EMA at every index, warm-up included |
| MovingAverages.EmaIsWeightedMean | shared/indicators/canonical.ts:82-99 | the recursion equals its closed form, a weighted sum of the prefix whose weights sum to one |
| MovingAverages.WeightsNonNegative | shared/indicators/canonical.ts:82-99 | those weights are non-negative |
| MovingAverages.EmaWithinPrefix | shared/indicators/canonical.ts:82-99 | the EMA lies between the least and the greatest value of its prefix |
| MovingAverages.AveragesLagLines | shared/indicators/canonical.ts:48-102 | on a straight line SMA and EMA are the line itself (period - 1) / 2 bars ago, exactly, at every bar: what the smoothing 2 / (period + 1) is for |
| MovingAverages.MacdOfLine | shared/indicators/canonical.ts:164-211 | on a straight line the MACD line is half the slope times slow minus fast |
| MovingAverages.WarmUp | shared/indicators/canonical.ts:48-211 | for any periods, from which bar on SMA, EMA, line, signal and histogram are there |
| MovingAverages.MacdIsAligned | shared/indicators/canonical.ts:183-208 | the line starts at max(fast, slow) - 1, signal and histogram at max(fast, slow) + signal - 2, and each signal is the EMA of exactly the line values up to that bar; the line is signal plus histogram |
| MovingAverages.MacdNoLookahead | shared/indicators/canonical.ts:164-211 | line, signal and histogram have no look-ahead |
| Wilder.RsiNoLookahead | shared/indicators/canonical.ts:108-158 | the RSI has no look-ahead |
| Wilder.RsiInRange | shared/indicators/canonical.ts:108-158 | wherever it is defined the RSI lies in [0, 100] |
| Wilder.RsiIsRelativeChange | shared/indicators/canonical.ts:108-158 | the RSI is 50 plus 50 times the average change over the average size of a change, both Wilder's, and 100 on a flat series |
| Wilder.AverageIsSlowEma | shared/indicators/canonical.ts:217-255 | Wilder's average over p bars is the EMA over 2p - 1 but for its seed: their difference shrinks by 1 - 1/p each bar |
| Wilder.TrueRangeIsExtent | shared/indicators/canonical.ts:229-240 | the true range is the extent of the bar together with the close before it |
| Wilder.AtrNoLookahead | shared/indicators/canonical.ts:217-255 | the ATR has no look-ahead |
| Wilder.AtrNonNegative | shared/indicators/canonical.ts:229-252 | on bars with low at most high the ATR is non-negative |
| Wilder.DiLookahead | shared/indicators/canonical.ts:348-350 | +DI and -DI on a prefix equal the full series' values exactly when both series are long enough for the early return, or the value is undefined anyway |
| Wilder.DiLooksAhead | shared/indicators/canonical.ts:348-350 | a four-bar series whose +DI at bar 2 appears only once bar 3 exists, against the file's zero-lookahead guarantee |
| Wilder.AdxNoLookahead | shared/indicators/canonical.ts:339-442 | the ADX itself has no look-ahead |
| Wilder.SmoothedFit | shared/indicators/canonical.ts:383-415 | smoothed +DM plus smoothed -DM stays at most smoothed TR through the recursion |
| Wilder.AdxInRange | shared/indicators/canonical.ts:394-439 | on bars with low <= close <= high, wherever defined, +DI and -DI are non-negative, together at most 100, and ADX lies in [0, 100] |
| Wilder.RisingMarket | shared/indicators/canonical.ts:370-415 | while every bar's low holds or falls by less than its high rises, -DI is 0 and +DI is the smoothed rises of the highs in percent of the smoothed true range, positive exactly when one it still feels occurred |
| Wilder.UpsideDown | shared/indicators/canonical.ts:339-442 | turning the market upside down exchanges +DI and -DI and keeps ADX |
| Wilder.DxIsImbalance | shared/indicators/canonical.ts:394-415 | the true range cancels: DX is the imbalance of the smoothed moves, in percent |
| Wilder.AdxIsAverage | shared/indicators/canonical.ts:417-439 | while every DX so far is defined ADX is Wilder's average of them |
| Wilder.SmoothedIsAverage | shared/indicators/canonical.ts:383-395 | the smoothed sums are the period times Wilder's averages |
| Wilder.WarmUp | shared/indicators/canonical.ts:108-255 | from which bar on RSI and ATR are there |
| Wilder.DirectionalWarmUp | shared/indicators/canonical.ts:339-442 | where +DI, -DI and ADX are there: a market that moved, a series of at least twice the period, and for ADX a first period of defined pairs |
| Channels.BandsNoLookahead | shared/indicators/canonical.ts:261-296 | Bollinger bands have no look-ahead |
| Channels.FewClosesOutside | shared/indicators/canonical.ts:278-293 | for any positive multiplier m the number of window closes strictly outside the bands times m squared is below the period |
| Channels.BandsAre | shared/indicators/canonical.ts:261-296 | the bands lie evenly about the SMA, apart by twice the multiplier times the standard deviation, whose square is the mean square less the squared mean |
| Channels.DonchianIsTight | shared/indicators/canonical.ts:302-333 | the channel bounds every high and low of the window and is attained, its middle halfway |
| Channels.PercentDIsMean | shared/indicators/canonical.ts:555-565 | %D is there from bar kPeriod + dPeriod - 2 on and is the mean of the last dPeriod values of %K, each at its own bar |
| Channels.PercentKGivesClose | shared/indicators/canonical.ts:540-553 | %K and the Donchian channel of its window give the close back; without any range it is 50 |
| Channels.WarmUp | shared/indicators/canonical.ts:261-553 | from which bar on the bands and %K are there |
| Channels.VwapIsWeightedMean | shared/indicators/canonical.ts:471-494 | the VWAP times three times the session's volume is the sum of (high + low + close) times volume, and it is there exactly when that volume is positive |
| Channels.DonchianNoLookahead | shared/indicators/canonical.ts:302-333 | Donchian channels have no look-ahead |
| Channels.StochasticNoLookahead | shared/indicators/canonical.ts:525-565 | %K and %D have no look-ahead |
| Channels.PercentKBounds | shared/indicators/canonical.ts:540-553 | on bars with low <= close <= high %K lies in [0, 100] |
| Channels.SessionIsOneDay | shared/indicators/canonical.ts:471-480 | the timed bars of a VWAP session share one IST day, and it began where the day changed |
| Channels.VwapNoLookahead | shared/indicators/canonical.ts:457-497 | the VWAP has no look-ahead |
| Channels.VwapWithinSession | shared/indicators/canonical.ts:471-494 | for non-negative volumes and proper bars the VWAP lies between its session's lowest low and highest high |
| SuperTrend.SuperTrendNoLookahead | shared/indicators/canonical.ts:625-713 | line and direction have no look-ahead |
| SuperTrend.LineIsItsBand | shared/indicators/canonical.ts:652-704 | the line is the lower band in an uptrend and the upper band in a downtrend; with differing bands the line tells the direction |
| SuperTrend.TestMeetsDirection | shared/indicators/canonical.ts:677-696 | the value-equality test and the stored direction give the same next state if and only if the previous bands differ, or the trend was down, or the close is on one side of both new bands |
| SuperTrend.RefinesCleanMachine | shared/indicators/canonical.ts:642-710 | while previous bands differ the code's run is the run of the machine that reads the stored direction |
| SuperTrend.TrendRun | shared/indicators/canonical.ts:671-707 | within one trend and while the bands differ, no close after the entry bar is across the line, and from any later bar on the line moves only the trend's way; the entry bar joins in when its own close is not across |
| SuperTrend.AcrossOnlyBetweenCrossedBands | shared/indicators/canonical.ts:671-696 | on every bar after the first, a close is across its line if and only if it lies strictly between bands that have crossed; if the previous bands differed, the trend then just turned |
| SuperTrend.NeverAcrossExactly | shared/indicators/canonical.ts:625-713 | for every period and multiplier: no close of any series with low <= close <= high is ever across its line if and only if 2 * multiplier >= period (or the settings define no line) |
| SuperTrend.NarrowBandsLoseCloses | shared/indicators/canonical.ts:652-696 | for every positive multiplier below half the period, such a series: flat candles, then a gap whose close is its low |
| SuperTrend.CloseCanBeAcross | shared/indicators/canonical.ts:671-696 | it also happens with differing bands, where the trend turns: two candles with their prices |
| SuperTrend.FirstBarBeside | shared/indicators/canonical.ts:658-669 | the first bar's close is never across its line |
| SuperTrend.SuperTrendScales | shared/indicators/canonical.ts:642-710 | scaling all prices by a positive factor scales the line and keeps every direction and every undefined value |
| IndicatorLoops.ComputeSMA | shared/indicators/canonical.ts:48-70 | the sliding sum is the mean of the last period values at every index |
| IndicatorLoops.ComputeEMA | shared/indicators/canonical.ts:76-102 | the running form fills exactly the EMA |
| IndicatorLoops.ComputeRSI | shared/indicators/canonical.ts:108-158 | the running averages fill exactly Wilder's RSI |
| IndicatorLoops.ComputeMACD | shared/indicators/canonical.ts:164-211 | filtering, smoothing and re-indexing put every signal and histogram value at its own bar |
| IndicatorLoops.ComputeATR | shared/indicators/canonical.ts:217-255 | the running form fills exactly Wilder's ATR |
| IndicatorLoops.ComputeBollingerBands | shared/indicators/canonical.ts:261-296 | all four arrays hold the bands of the window's mean and deviation |
| IndicatorLoops.ComputeDonchian | shared/indicators/canonical.ts:302-333 | the scans fill the window's extremes and their midpoint |
| IndicatorLoops.ComputeADX | shared/indicators/canonical.ts:339-442 | the running totals and the skipped undefined DX values fill exactly +DI, -DI and ADX |
| IndicatorLoops.ComputeVWAP | shared/indicators/canonical.ts:457-497 | the running totals are those of the session since the last IST day change |
| IndicatorLoops.ComputeStochastic | shared/indicators/canonical.ts:525-565 | %D is the SMA of %K at its own bar |
| IndicatorLoops.ComputeSuperTrend | shared/indicators/canonical.ts:625-713 | the four running variables are the two-band machine's state at every bar |
| SseStream.ChunksDoNotMatter | src/lib/paper-sse-client.ts:108-126 | any two ways of cutting the same text, no cut inside a CRLF, make the same callbacks as the text in one piece |
| SseStream.CutInsideCrlf | src/lib/paper-sse-client.ts:112-118 | a cut inside a CRLF goes unnoticed whatever follows if and only if no data line and no event name is pending there |
| SseStream.CutCrlfSplitsAnEvent | src/lib/paper-sse-client.ts:112-118 | a cut that does not: one event becomes two |
| SseStream.PrintThenParse | src/lib/paper-sse-client.ts:64-126 | printing any frames and cutting the text anywhere, the parser makes exactly the callbacks the frames mean |
| SseStream.RawTellsData | src/lib/paper-sse-client.ts:77-80 | an event's raw text determines its data lines |
| SseStream.PartialFrames | src/lib/paper-sse-client.ts:77-126 | the departures from section 9.2 of the WHATWG HTML Standard: an unterminated last line still closes its frame, the same line terminated is dropped, a line of white space ends a frame |
| SseStream.CommentsAreHeartbeats | src/lib/paper-sse-client.ts:69-76 | a comment leaves the open frame alone and is a heartbeat exactly when it says heartbeat or ping, in any case |
| SseStream.OtherLinesIgnored | src/lib/paper-sse-client.ts:69-106 | a line that is neither blank, a comment, event: nor data: is ignored |
| SseStream.FeedIsScan | src/lib/paper-sse-client.ts:112-120 | append, split, keep the rest is the same as reading the chunk character by character |
| SseClient.SseReader.ProcessLine | src/lib/paper-sse-client.ts:69-106 | the line handler on the mutable frame is the parser's line step |
| SseClient.SseReader.Feed | src/lib/paper-sse-client.ts:114-120 | one turn of the read loop is the parser's chunk step |
| SseClient.SseReader.ReadAll | src/lib/paper-sse-client.ts:108-126 | the whole loop makes the callbacks the results above are about |
| PaperStream.OneLiveConnection | src/lib/paper-stream-manager.ts:56-145 | in every reachable state at most one attempt is neither ended nor aborted, at most one retry is armed, and none beside an attempt |
| PaperStream.NeverIdleWithSubscribers | src/lib/paper-stream-manager.ts:56-119 | with subscribers there is an attempt or a retry, unless the last token was missing; then the session is watched and any lookup that finds another token opens |
| PaperStream.ClosesWhenUnused | src/lib/paper-stream-manager.ts:64-70 | without subscribers either the idle close is armed and its firing leaves nothing behind, or nothing is left already |
| PaperStream.StatusIsTruthful | src/lib/paper-stream-manager.ts:93-146 | every subscriber has been told the current status, and it is connected exactly while an active attempt has been confirmed by the server |
| PaperStream.HistoryTells | src/lib/paper-stream-manager.ts:56-146 | in every state of every run the subscribers, the token, the failures in a row and the confirmation of the current attempt are what the events say |
| PaperStream.TokenDecides | src/lib/paper-stream-manager.ts:78-88 | for the current attempt a non-empty token starts the stream; without one it is over, nothing retries and everybody is told so; either way it is kept |
| PaperStream.OnlySessionChangesLookUp | src/lib/paper-stream-manager.ts:113-115 | a session change with subscribers starts one lookup, and nothing else does |
| PaperStream.StaleCallbacksChangeNothing | src/lib/paper-stream-manager.ts:78-108 | token, event and error of an attempt that is not current change nothing |
| PaperStream.StepKeeps | src/lib/paper-stream-manager.ts:56-146 | every step keeps the invariant behind these results |
| PaperStreaming.PaperStreamManager.Subscribe | src/lib/paper-stream-manager.ts:56-63 | the method is the machine's subscribe step |
| PaperStreaming.PaperStreamManager.Unsubscribe | src/lib/paper-stream-manager.ts:64-70 | the returned function is the machine's unsubscribe step, harmless when called twice |
| PaperStreaming.PaperStreamManager.Open | src/lib/paper-stream-manager.ts:73-78 | open up to its first await |
| PaperStreaming.PaperStreamManager.TokenArrived | src/lib/paper-stream-manager.ts:78-88 | open from where the token arrives |
| PaperStreaming.PaperStreamManager.OnEvent | src/lib/paper-stream-manager.ts:93-100 | only the current attempt's CONNECTED event resets the backoff and reports |
| PaperStreaming.PaperStreamManager.OnError | src/lib/paper-stream-manager.ts:101-107 | an error of the current attempt schedules one retry while somebody listens |
| PaperStreaming.PaperStreamManager.OnSessionChanged | src/lib/paper-stream-manager.ts:113-115 | a session change starts a lookup only with subscribers |
| PaperStreaming.PaperStreamManager.LookupDone | src/lib/paper-stream-manager.ts:115-119 | a different token disconnects and reopens |
| PaperStreaming.PaperStreamManager.Disconnect | src/lib/paper-stream-manager.ts:121-128 | retry cancelled, attempt aborted, backoff reset, status reported |
| PaperStreaming.PaperStreamManager.Close | src/lib/paper-stream-manager.ts:130-135 | disconnects, stops watching and forgets the token |
| MarketStream.OneOpenSource | src/hooks/use-market-quotes.ts:115-236 | in every reachable state at most one source is open and one reconnect armed, and every status listener has been told the current status |
| MarketStream.NeverIdleWithListeners | src/hooks/use-market-quotes.ts:142-236 | with subscriptions and no reconnect armed, the stream is open for exactly their URL, or the server answered 400 for that URL, or a probe of it is out |
| MarketStream.ClosesWhenUnused | src/hooks/use-market-quotes.ts:157-167 | without subscriptions and no reconnect armed nothing is open |
| MarketStream.ProbedIffNeverOpened | src/hooks/use-market-quotes.ts:210-235 | in every reachable state, whether the browser dropped the network or refused the response, a probe is sent if and only if the source never opened and a backed-off reconnect is armed if and only if it had |
| MarketStream.CommentHoldsUnlessDropped | src/hooks/use-market-quotes.ts:218-220 | the comment's promise, a probe exactly for a response failure before opening, is kept if and only if the source had opened or the response was refused |
| MarketStream.NetworkDropIsProbed | src/hooks/use-market-quotes.ts:210-220 | a run in which a network drop before the first open is probed |
| MarketStream.UnsubscribeUndoes | src/hooks/use-market-quotes.ts:115-140 | unsubscribing restores the listeners, order numbers included, if and only if that callback was listening to none of the symbols before, and leaves no empty entry |
| MarketStream.UnsubscribeCanDeafen | src/hooks/use-market-quotes.ts:115-140 | a callback subscribed twice to one symbol hears nothing after unsubscribing once |
| MarketStream.StepKeeps | src/hooks/use-market-quotes.ts:115-266 | every step keeps the invariant behind these results |
| MarketStream.HistoryTells | src/hooks/use-market-quotes.ts:115-236 | in every state of every run who listens to what and since which subscription, who watches the status, the status, which sources opened and the failures in a row are what the events say |
| MarketStream.BackoffIsKept | src/hooks/use-market-quotes.ts:142-147 | a change of subscriptions keeps an armed reconnect while there are failures behind it, else replaces it by a new one |
| MarketStream.RejectedIsNotRetried | src/hooks/use-market-quotes.ts:157-185 | after a URL was answered 400, until another one is, no reconnect creates a source for it |
| StreamUrl.NewestPageWins | src/hooks/use-market-quotes.ts:238-262 | end to end, in every run of the manager with its own URL: from a subscription of at most 150 symbols until the next change, once no reconnect is armed any open source's URL is that of the selected symbols, all of the new ones among them |
| StreamUrl.SortAndSliceSelects | src/hooks/use-market-quotes.ts:244-249 | sorting by newest subscription then name and slicing gives the selection |
| StreamUrl.SortedIsSorted | src/hooks/use-market-quotes.ts:244-249 | every set of subscriptions has such a sorted list |
| StreamUrl.SelectionIsUnique | src/hooks/use-market-quotes.ts:244-249 | the selection is determined by the subscriptions alone |
| MarketStreaming.MarketStreamManager.Subscribe | src/hooks/use-market-quotes.ts:115-128 | the loop over the symbols is the machine's subscribe step |
| MarketStreaming.MarketStreamManager.Unsubscribe | src/hooks/use-market-quotes.ts:130-139 | the returned function's loop is the machine's unsubscribe step |
| MarketStreaming.MarketStreamManager.OnSubscriptionsChanged | src/hooks/use-market-quotes.ts:142-147 | a pending backoff is not shortened |
| MarketStreaming.MarketStreamManager.Reconnect | src/hooks/use-market-quotes.ts:157-185 | the machine's reconnect step with all its early returns |
| MarketStreaming.MarketStreamManager.OnError | src/hooks/use-market-quotes.ts:210-235 | the machine's error handling: closed first, then probed when the source never opened and its readyState reads CLOSED, else backed off |
| MarketStreaming.MarketStreamManager.OnProbed | src/hooks/use-market-quotes.ts:221-231 | the machine's probe step |
| DailySchedule.LockKeepsRunsApart | server/orchestrator.ts:101-103 | with a working Redis two runs for one date, on any instances, start at least the lock's lifetime apart, so runs no longer than that never overlap |
| DailySchedule.AtMostOneSuccess | server/workers/daily-processor-schedule.ts:50-76 | with a working Redis, when every successful run is marked within r of its start and its completion check was answered before any marker of the date expired and less than lifetime - r before its lock, a date succeeds at most once |
| DailySchedule.MarkedRunIsLast | server/workers/daily-processor-schedule.ts:56-71 | once a run is marked within r no later run of that date has such a check and such a lock |
| DailySchedule.EqualGapRunsTwice | server/workers/daily-processor-schedule.ts:56-62 | the bound on the gap is sharp for every r: a run with a working Redis, both successes of one date marked within r, and a gap of exactly lifetime - r |
| DailySchedule.LateCheckRunsTwice | server/orchestrator.ts:99-106 | the bound on the check is sharp: a run with a working Redis in which a check answered exactly when the marker expires lets a date succeed twice |
| DailySchedule.InstanceRunsNeverOverlap | server/workers/daily-processor-schedule.ts:51-76 | whatever Redis does, the runs of one instance never overlap |
| DailySchedule.TickDuringRunDoesNothing | server/workers/daily-processor-schedule.ts:51 | a tick during a run, in any reachable state, changes nothing |
| DailySchedule.NoRepeatInProcess | server/workers/daily-processor-schedule.ts:52-71 | even with Redis failing at any point, an instance that does not crash never repeats a date it completed |
| DailySchedule.RunsStartInTheEvening | server/workers/daily-processor-schedule.ts:51-52 | every run began with a tick between half past six and midnight in India, Monday to Friday, on no holiday |
| DailySchedule.EveningTickGoesOn | server/workers/daily-processor-schedule.ts:50-56 | in such an evening a tick goes to work unless its instance is busy, knows the date done, or still waits after a failure |
| DailySchedule.FailedRunsWait | server/workers/daily-processor-schedule.ts:64-69 | after a failed run an instance that does not crash waits two hours from its tick before a tick runs again, whatever Redis does |
| DailySchedule.MarkerIsRemembered | server/workers/daily-processor-schedule.ts:56-62 | a check that finds the marker ends the tick and is remembered; one that does not, or fails, goes on to the lock |
| DailyProcessor.DailyProcessorSchedule.Tick | server/workers/daily-processor-schedule.ts:50-55 | the checks before the first await are the instance's tick step |
| DailyProcessor.DailyProcessorSchedule.CheckAnswered | server/workers/daily-processor-schedule.ts:57-60 | completed dates are remembered; a failed check goes on |
| DailyProcessor.DailyProcessorSchedule.LockAnswered | server/workers/daily-processor-schedule.ts:61-62 | a held lock ends the tick; a failed command runs |
| DailyProcessor.DailyProcessorSchedule.RunEnded | server/workers/daily-processor-schedule.ts:64-71 | a failure waits out the lock's lifetime; a success is remembered before it is marked |
| LegCodec.RoundTrip | src/lib/payoff-lab-state.ts:124-155 | decode(encode(legs)) = legs if and only if there are at most twelve legs, all fields numeric drafts, no premium on a future |
| LegCodec.TextIs | src/lib/payoff-lab-state.ts:120-132 | the text of a leg is B or S, the instrument, strike, lots and premium, none on a future, with underscores between |
| LegCodec.DocumentedText | src/lib/payoff-lab-state.ts:119-132 | the example in the source's comment is the text of its two legs |
| LegCodec.DraftIs | src/lib/payoff-lab-state.ts:94 | a field is kept exactly when it is at most nine digits, or those, a point and at most four more |
| LegCodec.DecodingSettles | src/lib/payoff-lab-state.ts:134-155 | for every text, decoding, encoding and decoding again gives what the first decoding gave |
| LegCodec.UrlRoundTrip | src/lib/payoff-lab-state.ts:159-190 | through the URL the legs survive if and only if, besides, their text is at most 12 * 48 characters |
| LegCodec.UrlCanDropLegs | src/lib/payoff-lab-state.ts:110 | twelve legs that pass the form's validation (lines 248-262) and whose text is too long and is dropped whole |
| LegCodec.DecodedFit | src/lib/payoff-lab-state.ts:134-155 | every decoded text gives at most twelve legs with numeric fields |
| ExactDecimals.ReadInvertsPrint | server/scripts/verify-db-restore.ts:150-157 | toScaledUnits inverts printing any number of units with four decimals |
| ExactDecimals.CheckIsExact | server/scripts/verify-db-restore.ts:164-169 | on printed amounts the mismatch check compares exact integers |
| ExactDecimals.RoundingIsNoMismatch | server/scripts/verify-db-restore.ts:159-169 | entries each rounded to a nearest unit and cash rounded once never report a mismatch |
| Migrations.CleanExactly | server/scripts/verify-db-restore.ts:86-112 | with distinct names, all three lists are empty if and only if the log in time order is the sorted file list |
| Migrations.MissingAndUnknown | server/scripts/verify-db-restore.ts:87-90 | missing and unknown are exactly the two set differences, in order |
| Migrations.InOrderExactly | server/scripts/verify-db-restore.ts:92-104 | with the same names nothing is out of order if and only if the log in time order ascends |
| Migrations.SortAppliedIsSorting | server/scripts/verify-db-restore.ts:92-95 | the log is put in time order, ties by name, losing and inventing nothing |
| Migrations.OutOfOrder | server/scripts/verify-db-restore.ts:97-102 | the running maximum reports exactly the names applied after a greater one |
| Migrations.CompareMigrations | server/scripts/verify-db-restore.ts:86-106 | the three lists are the ones these results are about |

## Left out

- React components, routes, TanStack Query, HTTP handlers, configuration, logging and authentication.
- WebSocket, EventSource, Redis and PostgreSQL clients: abstract steps (open, close, send or fail; atomic set-if-absent with expiry; row locks).
- Feed packets, heartbeats and a socket factory that throws; the order of tokens within one frame.
- Daily re-login timers, health status and re-login backoff of the orchestrator; a login is an event.
- The refresh loop of paper interest (single flight, rerun, epoch): the rows it reads are an event.
- Publisher polling intervals; several batches of one process interleave like any others.
- Ticks whose text sorts differently from its instant: minutes and days are numbers, taken from the time.
- NaN, infinities and floating-point rounding; short and long field names of candles.
- ROC, average volume, rolling extremes, percent distance and the snapshot: they add only easy members.
- RedisRateLimitStore's fallback to memory while Redis is down, configuration and exempt paths.
- JSON.parse of event data (a function of the raw text modelled here) and an abort between two chunks.
- Backoff delays and jitter of both stream managers; query invalidation on outbox events; parsing, dispatch and merging of quotes.
- Percent-encoding and host of the stream URL, and the truncation warning; but for StreamUrl.NewestPageWins the manager's results hold for any URL that is a function of the subscriptions.
- In-process locks that replace Redis while it is unavailable: a failed command follows `guard`'s fallback.
- Contract fields, validation and storage of the payoff lab; the other restore checks.
- BigInt texts other than decimal digits (hexadecimal, inner spaces): read as not decimal.
- Migrations.CleanExactly: requires distinct recorded names, which the table's primary key gives; with repeats `Migrations.SameNames` and `Migrations.InOrderExactly` still hold. Times that do not parse are left out.
- DailySchedule.AtMostOneSuccess: needs every successful run's completion check answered before a marker of its date expires, and the gap to its lock bounded, neither of which the code enforces.
- Wilder.DiLookahead: a prefix shorter than 2 * period gives no +DI, as the code has it, so equality is an if-and-only-if and not unconditional.
