# Distributed benchmark platform: a verified model

The platform runs a contestant's trading engine in a sandbox, drives it with a fleet of bots,
measures what comes back, and ranks the result. This project models its four cores and proves
what they are meant to keep. `dafny verify dfyconfig.toml` checks everything.

**Two limit order books, one meaning.** `PriceTimeBook` is a reference book: each side a
sequence of orders by price, then arrival; `TimedQueue` is the order by price, then time stamp,
and says when that is the same. `SortedVectorBook` is the C++ sample engine, vectors and binary
search. `BookHeap`, `HeapBook` and `LazyHeapBook` are the Python one: heapq's push and pop, the
engine on values, and the class itself over shared, mutable order objects, with an id dictionary
and cancellation that only zeroes an order and leaves it in the heap as a *ghost*. The class is
proved to do what the value-level engine does, for any ids and clock readings.

What holds of every history of the Python engine is in `HeapSweeps`, `HeapHistories` (heaps
ordered, never crossed, shares conserved, honest answers), `DictionaryExact` and
`DictionaryHistories` (when exactly the dictionary holds the live orders, and that fresh ids
suffice). `HeapService` and `ServiceHistories` have whom it serves: a prefix of each side in
price-time order, however entries of equal price and time lie; only which of those comes first
may depend on more than the entries, and `PopOrder` says when. `LazyCancellation` shows ghosts
invisible to everything but one reported price. Distinct keys are needed only to compare with the
C++ engine: `HeapQueues` and `LazyQueueBook` turn heaps into its kind of queues, and
`EngineAgreement` shows both engines to agree, and to be the reference book when the clock also
runs forwards. `EngineReplay` feeds a history to both classes. `BookHistories` has the C++
engine's histories, `ArrivalOrder` when exactly it serves first in, first out, `BookLimits` the
histories on which promises break: stalled clock, reused id, price quoted from a ghost.

**Telemetry.** `Telemetry` has the counters of fleet and ingester and their classes.
`TelemetrySystem` is the whole of it interleaved: bots, ramp, bounded channel, ingester, ticks,
stop signal, context and close. The accounts are exact at every moment of every schedule, and
what is reported is what came in, window by window.

**Runs and submissions.** `Lifecycle` interleaves the API requests, database step by database
step, with the queue and the worker's pipeline, every call of which may fail. `LifecycleReach`
and `LostRuns` have what is not prevented, and exactly when it can happen; `SubmissionLaws` tells
a submission's status from its runs, `Reruns` which submissions can be benchmarked again.
`BenchmarkWorkers` and `SubmissionApi` are the worker and the handlers as programs, proved to make
the lifecycle's steps.

**Scores and ranks.** `Scoring` goes from persisted snapshots to the composite; `Leaderboard`
has the conditional upsert, the ranked view, what scoring a submission again does to its rank, and
the tables of the scoring service over any calls.

The clock is an input everywhere; a stamp also carries the number of its request, which tells orders
apart in proofs and which no engine looks at. Prices are integer cents; scores are reals.

## Where code and documentation disagree

The model follows the code.

- A submission's row is replaced on an equal composite too (`backend/services/scoring_service.go:195`);
  `docs/architecture.md:91` speaks of a better score. `Leaderboard.EqualRescoreDropsRank` shows the consequence.
- A failed push of a new run is logged with the remark that the worker will poll
  (`backend/api/submission_handler.go:350-352`); nothing polls, and the run stays queued in the table for good
  (`LostRuns.PushFailedLoses`, `LostRuns.MayBeTakenIff`).
- Deletion is meant to be refused while a benchmark is active (`backend/api/submission_handler.go:257`);
  only `running` is refused, not `building`, and check and deletion are two steps
  (`LifecycleReach.DeletionHitsRunningIff`).
- The Python engine's `fill_price` can be a cancelled order's price (`sample-trading-engine/src/main.py:72-73`).
- `uptime_pct` is described as the share of the run without errors (`backend/models/metric.go:42`); it is the
  share of reported windows with an acknowledgement.
- `windowPrioErr` is reported but never incremented, so snapshots carry no priority errors and correctness
  does not see them.
- The comment on C++ `insert_sorted` promises first in, first out at one price
  (`sample-trading-engine-cpp/src/main.cpp:139`); `ArrivalOrder.VectorsAreSpecIff` says when it is kept.

## Model

| member | source | states |
|---|---|---|
| `PriceTimeBook.SweepFillsDepth` | sample-trading-engine/src/main.py:69-78 | A taker receives min(quantity asked, quantity resting at acceptable prices), wherever it rests and ghosts notwithstanding; nothing when it asks for nothing or less |
| `PriceTimeBook.SweepTakesPrefix` | sample-trading-engine-cpp/src/main.cpp:73-86 | A sweep consumes exactly a prefix of the opposite queue at acceptable prices, at most one further order in part; it quotes the order touched last and stops hungry only at its limit |
| `PriceTimeBook.SweepReportsWorstPrice` | sample-trading-engine-cpp/src/main.cpp:75-77 | Without ghosts the quoted price is that of an order that traded, in full or in part, and no order that traded has a worse one; the starting price exactly when nothing traded |
| `PriceTimeBook.SweepPriceAcceptable` | sample-trading-engine/src/main.py:70-73 | The quoted price is the initial one or within the taker's limit |
| `PriceTimeBook.SweepLeavesSuffix` | sample-trading-engine-cpp/src/main.cpp:103-108 | What a sweep leaves is a suffix of the queue with every order's identity, price and time kept; only its head may have shrunk |
| `PriceTimeBook.SweepBalances` | sample-trading-engine-cpp/src/main.cpp:73-78 | What leaves the book in a sweep is what the taker receives |
| `PriceTimeBook.PriceTimePriority` | sample-trading-engine-cpp/src/main.cpp:73-78 | Once a taker has touched an order, every order ahead of it in the queue is gone, whatever ids they carry |
| `PriceTimeBook.PlaceAt` | sample-trading-engine-cpp/src/main.cpp:134-142 | A new order goes behind exactly the orders whose price is no worse |
| `PriceTimeBook.RemoveAt` | sample-trading-engine-cpp/src/main.cpp:116-124 | Cancelling takes out exactly the first order with the id |
| `SortedVectorBook.OrderBook.Match` | sample-trading-engine-cpp/src/main.cpp:73-78 | The matching loop, in place: front decremented or erased, result and remaining book are the sweep's |
| `SortedVectorBook.OrderBook.InsertSorted` | sample-trading-engine-cpp/src/main.cpp:134-142 | Binary search finds the first entry not before the new one in (price, time) and inserts there |
| `SortedVectorBook.OrderBook.EraseFrom` | sample-trading-engine-cpp/src/main.cpp:118-124 | The linear scan erases the first order with the id and tells whether there was one |
| `SortedVectorBook.OrderBook.DoLimit` | sample-trading-engine-cpp/src/main.cpp:67-95 | A limit order sweeps, rests its remainder, and is acknowledged filled, partial or accepted |
| `SortedVectorBook.OrderBook.DoMarket` | sample-trading-engine-cpp/src/main.cpp:98-113 | A market order sweeps and never rests; rejected when nothing traded |
| `SortedVectorBook.OrderBook.DoCancel` | sample-trading-engine-cpp/src/main.cpp:116-130 | Bids are searched before asks; cancelled or rejected |
| `SortedVectorBook.OrderBook.Process` | sample-trading-engine-cpp/src/main.cpp:47-59 | Any request does what the value-level engine step does and keeps the vectors sorted and live |
| `SortedVectorBook.EngineStepKeepsValid` | sample-trading-engine-cpp/src/main.cpp:61-142 | Every request keeps both vectors sorted by (price, time) and free of empty orders, whatever the clock does |
| `TimedQueue.InsertedAround` | sample-trading-engine-cpp/src/main.cpp:134-142 | Insertion at the lower bound keeps a vector sorted, whatever the clock reads |
| `TimedQueue.InsertedIsPlacedIff` | sample-trading-engine-cpp/src/main.cpp:136-140 | Insertion queues a new order behind everything at its price if and only if all of that is stamped strictly earlier |
| `BookHeap.PushKeepsHeap` | sample-trading-engine/src/main.py:83 | heappush keeps the heap ordered, ties or not |
| `BookHeap.PopKeepsHeap` | sample-trading-engine/src/main.py:77 | heappop, sinking to a leaf and rising again as heapq does, keeps the heap ordered |
| `BookHeap.HeapPush` | sample-trading-engine/src/main.py:83 | heappush adds exactly the entry |
| `BookHeap.HeapPop` | sample-trading-engine/src/main.py:77 | heappop removes exactly the root |
| `BookHeap.RootIsLeast` | sample-trading-engine/src/main.py:24-32 | No entry of a heap precedes its root in (priority price, time) |
| `PopOrder.PopOrderDeterminedIff` | sample-trading-engine/src/main.py:24-32 | The entries of a heap settle the order in which they are popped if and only if no two of them share price and time |
| `HeapSweeps.HeapSweepFills` | sample-trading-engine/src/main.py:69-78 | However ties are served, a sweep of a heap gives the taker min(quantity asked, quantity at acceptable prices) |
| `HeapSweeps.HeapSweepBalances` | sample-trading-engine/src/main.py:69-78 | What leaves the heap in a sweep is what the taker receives |
| `HeapSweeps.SweepSplits` | sample-trading-engine/src/main.py:75-78 | A sweep splits the entries into those popped and those that stay, one of them perhaps traded in part; and no entry that stays precedes a popped one in price and time |
| `HeapService.UnrolledSorted` | sample-trading-engine/src/main.py:24-32 | A heap gives up its entries by price, then time, however its ties lie |
| `HeapService.HeapSweepServes` | sample-trading-engine/src/main.py:69-78 | However ties lie, a sweep of the heap is the sweep of the queue it unrolls to: same quantities and price, what stays unrolls to what stays of the queue, and what is popped is the front of the queue in order |
| `HeapService.HeapSweepTakesPrefix` | sample-trading-engine/src/main.py:69-78 | So it consumes exactly a prefix in price-time order, pops exactly that, and trades at most the next entry in part |
| `HeapService.HeapPriority` | sample-trading-engine/src/main.py:69-78 | Once an entry has been traded with or popped, every entry preceding it in price and time has been popped and nothing of it stays; on any heap, ties or not |
| `ServiceHistories.TakesPrefix` | sample-trading-engine/src/main.py:69-78 | Over any history, whatever ids and clock readings, a taker consumes exactly a prefix of the opposite side in price-time order, at most one further entry in part |
| `ServiceHistories.TakesLivePrefix` | sample-trading-engine/src/main.py:69-78 | The same of the live orders: as the sweep of the book without ghosts, with the same quantities |
| `ServiceHistories.EarlierPoppedFirst` | sample-trading-engine/src/main.py:69-78 | Over any history, once a taker has touched an entry, every entry with a better price, or the same and an earlier time, is popped and nothing of it stays |
| `ServiceHistories.GhostsShowInQuoteIff` | sample-trading-engine/src/main.py:72-73 | Over any history the quoted price is that of the book without ghosts if and only if the taker wants no more than rests at acceptable prices or the last acceptable entry is priced as the last acceptable live one |
| `LazyHeapBook.HeapPushed` | sample-trading-engine/src/main.py:83 | heappush as a loop over shared objects: the objects are those of before and the new one, laid out as the value-level push lays out their values |
| `LazyHeapBook.HeapPopped` | sample-trading-engine/src/main.py:77 | heappop as loops over shared objects, likewise |
| `LazyHeapBook.OrderBook.FillRoot` | sample-trading-engine/src/main.py:70-75 | The root's remaining quantity drops in place; every other order and the other side keep their values |
| `LazyHeapBook.OrderBook.DropSpent` | sample-trading-engine/src/main.py:76-78 | A spent root, ghost or traded out, is popped and its id taken out of the dictionary; any other stays |
| `LazyHeapBook.OrderBook.TradeRoot` | sample-trading-engine/src/main.py:69-78 | One loop turn trades with the root in place and pops it when nothing is left, its id with it; the other side is untouched |
| `LazyHeapBook.OrderBook.Match` | sample-trading-engine/src/main.py:119-128 | The matching loop over heap, dictionary and shared orders ends, for any ids and clock readings, with both heaps, the dictionary, quantity and price the value-level sweep gives |
| `LazyHeapBook.OrderBook.Rest` | sample-trading-engine/src/main.py:80-84 | The remainder is pushed as a new object and entered under its id, whatever the clock reads |
| `LazyHeapBook.OrderBook.LimitOrder` | sample-trading-engine/src/main.py:62-111 | A limit order on heaps, dictionary and shared objects is one step of the value-level engine, for any id, price, quantity and clock reading |
| `LazyHeapBook.OrderBook.MarketOrder` | sample-trading-engine/src/main.py:113-136 | Likewise for a market order, which never rests |
| `LazyHeapBook.OrderBook.CancelOrder` | sample-trading-engine/src/main.py:138-145 | One order, and only it, is zeroed where it stands in its heap, and leaves the dictionary; the heaps are not reordered |
| `LazyHeapBook.OrderBook.ProcessOrder` | sample-trading-engine/src/main.py:44-60 | Any request does what the value-level engine does, with no condition on it |
| `LazyHeapBook.OrderBook.Process` | sample-trading-engine/src/main.py:44-145 | Any request on a sound book leaves it sound, both heaps ordered and no bid price reaching an ask price, the shares balanced, and its answer honest about the book |
| `LazyCancellation.SweepIgnoresGhosts` | sample-trading-engine/src/main.py:69-78 | A sweep over a queue with ghosts leaves the live orders, and fills the taker, as the sweep of the live orders alone; a taker served in full is also quoted the same price |
| `LazyCancellation.GhostsShowInPriceIff` | sample-trading-engine/src/main.py:72-73 | The quoted price differs from that of the live orders exactly when the taker wants more than rests at acceptable prices and the last acceptable entry is priced otherwise than the last acceptable live one |
| `LazyCancellation.InsertedAmongGhosts` | sample-trading-engine/src/main.py:82-83 | Queueing an order among ghosts is queueing it among the live orders |
| `LazyCancellation.ZeroedIsRemoved` | sample-trading-engine/src/main.py:142-143 | Zeroing an order in place removes it from the live ones |
| `LazyCancellation.LookupAgrees` | sample-trading-engine/src/main.py:141 | In an exact book the dictionary finds an id if and only if a search of the live orders does |
| `LazyCancellation.SweptStaysExact` | sample-trading-engine/src/main.py:75-78 | A sweep leaves the dictionary holding exactly the live orders |
| `LazyCancellation.CancelAgrees` | sample-trading-engine/src/main.py:138-145 | Lazy cancellation is cancellation on the live orders, same answer, and keeps the dictionary exact |
| `LazyCancellation.LazyStepAgrees` | sample-trading-engine/src/main.py:44-145 | From any exact book, every request, a limit order with an id and a stamp no entry carries, does to the live orders what the C++ engine does, answers alike, and keeps the book exact |
| `EngineAgreement.EngineStepIsStep` | sample-trading-engine-cpp/src/main.cpp:61-142 | On a book stamped in the past the vectors do exactly what the reference book does |
| `EngineAgreement.VectorBookIsSpecBook` | sample-trading-engine-cpp/src/main.cpp:47-142 | Over every history with a strictly increasing clock the vectors are the reference book and every acknowledgement is the same |
| `HeapQueues.StepMirrors` | sample-trading-engine/src/main.py:44-145 | While no two entries of a side share price and time, a request does to the heaps what it does to the queues they unroll to, and is answered the same |
| `EngineAgreement.HeapStateMirrors` | sample-trading-engine/src/main.py:35-145 | Over every history in which no two limit orders of one side and price read the same time, the heaps are the queues, whatever the ids |
| `EngineAgreement.HeapStateIsVectorBook` | sample-trading-engine/src/main.py:35-145 | With fresh ids too, a clock running backwards included, the live orders of those queues are the vectors and status and filled quantity agree |
| `EngineAgreement.HeapStateIsSpecBook` | sample-trading-engine/src/main.py:35-145 | With a strictly increasing clock they are the reference book's, and status and filled quantity are too |
| `EngineAgreement.EnginesAgree` | sample-trading-engine/src/main.py:62-145 | Over every such history the two engines answer with the same status and filled quantity and hold the same live orders in the same order of service |
| `ServiceHistories.QuotesAgreeIff` | sample-trading-engine/src/main.py:72-73 | Over such a history the two engines also quote the same price if and only if the taker wants no more than rests at acceptable prices or the last acceptable entry of the heap is priced as the last acceptable order of the vectors |
| `HeapHistories.HeapsNeverCross` | sample-trading-engine/src/main.py:67-101 | Over any history, whatever the ids and clock readings, both heaps stay ordered and no bid price, even of a ghost, reaches an ask price |
| `BookHistories.VectorsNeverCross` | sample-trading-engine-cpp/src/main.cpp:72-87 | No reachable C++ book is crossed |
| `BookHistories.SweepClears` | sample-trading-engine/src/main.py:69-70 | A taker left wanting has cleared everything at its limit or better |
| `BookHistories.VectorsConserve` | sample-trading-engine-cpp/src/main.cpp:67-130 | Over any history of the C++ engine: submitted = received by limit takers + traded by makers + cancelled + resting |
| `HeapHistories.HeapsConserve` | sample-trading-engine/src/main.py:62-145 | The same over any history of the Python engine, a cancellation counting what the order the dictionary named still had |
| `BookHistories.LedgersAgree` | sample-trading-engine/src/main.py:138-145 | With fresh ids, and no two limit orders of one side and price reading the same time, both engines keep equal books, cancelled quantity included |
| `ArrivalOrder.SpecInArrivalOrder` | sample-trading-engine-cpp/src/main.cpp:139 | The order that the comment promises, of the reference book: over any history each side is by price and, at one price, in order of arrival |
| `ArrivalOrder.VectorsAreSpecIff` | sample-trading-engine-cpp/src/main.cpp:134-142 | Over any history the vectors are the reference book throughout if and only if every order placed met only earlier-stamped orders at its price; and then every answer is the same |
| `ArrivalOrder.VectorsInStampOrder` | sample-trading-engine-cpp/src/main.cpp:134-142 | If no two limit orders of one side and price read the same time, equally priced orders stand by their stamps after any mix of inserts, fills and cancels, whatever the ids; with fresh ids no two orders of a side share one |
| `ArrivalOrder.EarlierTradesFirst` | sample-trading-engine-cpp/src/main.cpp:73-78 | Over any history, whatever ids and clock readings, once a taker has touched an order, every order of its side with a better price, or the same and an earlier time, is gone |
| `ArrivalOrder.FirstInTradesFirst` | sample-trading-engine-cpp/src/main.cpp:73-78 | As long as every order placed met only earlier-stamped orders at its price, the first to arrive at a price is gone before a later one is touched |
| `HeapHistories.HeapAcksHonest` | sample-trading-engine/src/main.py:103-110 | Every answer of the Python engine, after any history: filled quantity is min(wanted, quantity at acceptable prices); limit orders are filled, partial or accepted as that is all, some or none; a market order is called filled when anything traded; cancelled exactly when the dictionary had the id |
| `BookHistories.VectorAcksHonest` | sample-trading-engine-cpp/src/main.cpp:89-94 | The same of the C++ engine |
| `BookHistories.NoPriorityError` | backend/services/botfleet/worker.go:69-76 | Neither engine's answer to any request, from any book, is ever counted as a priority error |
| `BookHistories.PriorityErrorIff` | backend/services/botfleet/worker.go:69-76 | The check fires exactly when a limit order is answered at a price beyond its limit |
| `DictionaryExact.PlacementExactIff` | sample-trading-engine/src/main.py:80-84 | Placing an order keeps the dictionary holding exactly the live entries if and only if no live entry carries its id |
| `DictionaryExact.SweepExactIff` | sample-trading-engine/src/main.py:75-78 | A sweep keeps it so if and only if no entry it pops shares its id with a live entry that stays, on either side |
| `DictionaryExact.CancelExact` | sample-trading-engine/src/main.py:138-145 | A cancellation always keeps it so |
| `DictionaryHistories.StepExactIff` | sample-trading-engine/src/main.py:44-145 | A request keeps the dictionary exact if and only if it meets these conditions |
| `DictionaryHistories.AlwaysTagged` | sample-trading-engine/src/main.py:82-84 | Over any history each entry occurs once and no two carry the stamp of one request |
| `DictionaryHistories.DictionaryExactIff` | sample-trading-engine/src/main.py:35-145 | Over any history the dictionary is exact throughout if and only if every request met them |
| `DictionaryHistories.DictionaryAlwaysExact` | sample-trading-engine/src/main.py:35-145 | With fresh ids alone, whatever the clock, the dictionary holds exactly the live entries throughout, so every entry not in it is a ghost |
| `EngineReplay.Replay` | sample-trading-engine/src/main.py:35-145 | Both engine classes, new and fed the same history, reach its states and give its answers: the Python book sound and uncrossed, its dictionary exact with fresh ids, and with fresh keys too the same live orders and the same answers but for prices |
| `BookLimits.StalledClockOvertakes` | sample-trading-engine-cpp/src/main.cpp:139 | Two asks of one price and time: the vectors put the second first, against the arrival order; the heap does not |
| `BookLimits.TiesOvertake` | sample-trading-engine/src/main.py:24-32 | Four asks of one price and time, started from the empty book: once the first is served the third is next, so equal keys make no queue |
| `BookLimits.GhostQuoted` | sample-trading-engine/src/main.py:72-73 | A buyer that met only a cancelled ask is quoted its price though nothing traded |
| `BookLimits.ReuseReached` | sample-trading-engine/src/main.py:80-84 | A history that cancels an order and uses its id again reaches a ghost and a live order of one id |
| `BookLimits.ReusedIdCannotBeCancelled` | sample-trading-engine/src/main.py:76-78 | From there a trade pops the ghost and with it the id, and the live order can no longer be cancelled |
| `BookLimits.ReuseIsUnsafe` | sample-trading-engine/src/main.py:76-78 | That trade is the request that breaks the condition: the dictionary was exact before it |
| `Telemetry.IngestKeepsSound` | backend/services/telemetry_ingester.go:122-138 | Taking in a sample keeps totals = reported windows + current window, and sent = acked + fill errors |
| `Telemetry.FlushKeepsSound` | backend/services/telemetry_ingester.go:157-200 | A flush reports everything open; every snapshot has sent = acked + fill errors and no priority errors; the early return of an empty window loses nothing |
| `Telemetry.IngestHolds` | backend/services/telemetry_ingester.go:126-138 | The open window is counted sample by sample, and its histogram holds exactly the latencies of its successful samples within range |
| `Telemetry.FlushReports` | backend/services/telemetry_ingester.go:158-203 | A flush reports the window unless it is empty: its counts, and each quantile in milliseconds in its own column if any latency came in, zeroes if none; and opens a new one |
| `Telemetry.Channel.TrySend` | backend/services/botfleet/worker.go:79-84 | The non-blocking send: accepted below capacity, dropped otherwise |
| `Telemetry.Fleet.constructor` | backend/services/botfleet/fleet.go:65-72 | A new fleet has counted nothing and owns an open, empty channel of 100000 samples |
| `Telemetry.Fleet.SendOrder` | backend/services/botfleet/worker.go:46-85 | One order: counted as sent, then as acknowledged or failed, checked for a priority error, its sample offered |
| `Telemetry.TelemetryIngester.Ingest` | backend/services/telemetry_ingester.go:122-138 | Counters and histogram after one sample: those of a window with this sample more |
| `Telemetry.TelemetryIngester.Flush` | backend/services/telemetry_ingester.go:156-203 | Counters, histogram and reports after a flush: the window is reported as it was, unless empty, and nothing else is |
| `Telemetry.TelemetryIngester.DrainRemaining` | backend/services/telemetry_ingester.go:140-153 | Everything still in the channel is taken in, in order, and the channel is empty |
| `TelemetrySystem.RunKeeps` | backend/services/telemetry_ingester.go:82-113 | Every schedule of bots, ramp, channel, ticks, stop, context and close keeps the accounts of both sides, successes and failures apart, the channel's first-in-first-out, and the shutdown order |
| `TelemetrySystem.AccountsExact` | backend/services/botfleet/worker.go:46-85 | At every moment of every schedule: reported + open window = received; received + in the channel = accepted; accepted + dropped + carried by bots = orders begun |
| `TelemetrySystem.WindowsReported` | backend/services/telemetry_ingester.go:78-119 | On every schedule the flushes cut what was received into windows, in order and without a gap; each but an empty one is reported once, with its own counts and its own quantiles; the histogram holds exactly the latencies of the open one |
| `TelemetrySystem.LeaversSendNothing` | backend/services/botfleet/worker.go:29-44 | A bot whose connection fails, or that quits, does nothing more on any schedule |
| `TelemetrySystem.BotsWorkUntilCancelled` | backend/services/botfleet/fleet.go:141-160 | Until the fleet is cancelled the ramp loses no bot and no bot that has connected leaves |
| `TelemetrySystem.MispricesCounted` | backend/services/botfleet/worker.go:69-76 | The priority errors counted are exactly the successful answers at a price the order does not admit |
| `TelemetrySystem.RampEnds` | backend/services/botfleet/fleet.go:148-150 | Once the ramp has seen the cancellation no further bot is ever spawned |
| `TelemetrySystem.CanStopInOrder` | backend/workers/benchmark_worker.go:186-187 | From every reachable moment with nothing crashed or closed and the ingester listening, the intended stop is still possible: fleet, channel, ingester, no crash, every bot gone, all accepted samples reported |
| `TelemetrySystem.CanEndOnClose` | backend/services/telemetry_ingester.go:101-107 | A listening ingester whose channel is closed can take in what is left and end by itself |
| `TelemetrySystem.FinalAccounts` | backend/services/botfleet/fleet.go:112-128 | With ingester and bots finished: orders sent = reported + abandoned in the channel + dropped; reported acknowledgements fall short of the fleet's by no more than what was abandoned or dropped |
| `TelemetrySystem.NormalStopReportsAll` | backend/workers/benchmark_worker.go:186-187 | Ended by the stop signal or the closed channel, the reports are exactly what the channel accepted, and with all bots gone that is completed orders less drops |
| `TelemetrySystem.ContextExitLoses` | backend/services/telemetry_ingester.go:91-93 | An ingester that leaves by the context loses what the channel holds at that moment and what it accepts later, and nothing else; its reports are complete if and only if both are nothing |
| `TelemetrySystem.ContextExitCanLose` | backend/services/telemetry_ingester.go:91-93 | A run from the start on which an accepted sample is never reported |
| `TelemetrySystem.QuiescentCloseNeverCrashes` | backend/services/botfleet/fleet.go:112-119 | If the channel is closed only when all bots have gone, no schedule sends on a closed channel |
| `TelemetrySystem.CrashPossibleIff` | backend/services/botfleet/fleet.go:117-119 | With the channel closed, some schedule crashes if and only if a bot is left or still to be spawned |
| `TelemetrySystem.CrashReached` | backend/services/botfleet/fleet.go:112-119 | A run from the start that crashes so |
| `Lifecycle.ReliableRunKeeps` | backend/workers/benchmark_worker.go:49-217 | Every step of API requests, queue and worker, on a reliable database and without shutdown, keeps queue order, row links, run statuses and submission ownership |
| `Lifecycle.OneRunning` | backend/workers/benchmark_worker.go:91-93 | At most one benchmark run is running, and it is the worker's |
| `Lifecycle.BusySubmissionsOwned` | backend/workers/benchmark_worker.go:94-126 | A building or running submission belongs to the worker's current run, at a matching point of the pipeline |
| `SubmissionLaws.SubmissionFollowsRun` | backend/workers/benchmark_worker.go:83-217 | On every reliable run: a submission none of whose runs was taken is pending; once the worker is past the last of its runs taken, it is completed if and only if that run is, and failed if and only if that run is |
| `Lifecycle.TakenInOrderOnce` | backend/services/queue_service.go:30-50 | Whatever fails, runs are taken in the order they were enqueued and none twice |
| `Lifecycle.TakenRunsEnd` | backend/workers/benchmark_worker.go:83-217 | A run that was taken and still exists is completed or failed once the worker is past it |
| `Lifecycle.EndedForGood` | backend/workers/benchmark_worker.go:266-285 | A completed or failed status never changes again, database errors and shutdown included |
| `Lifecycle.DeadLettersAreFailures` | backend/workers/benchmark_worker.go:73-78 | Of the runs the worker has finished with, exactly the failed ones are in the dead letters |
| `Lifecycle.WorkAdvances` | backend/workers/benchmark_worker.go:83-217 | Every worker step, whatever fails, brings the end of the run nearer |
| `Lifecycle.ProcessingEnds` | backend/workers/benchmark_worker.go:83-217 | Whatever fails and whatever requests interleave, the worker is done with a run after at most twenty-one steps |
| `Lifecycle.EveryPathCleansUp` | backend/workers/benchmark_worker.go:109-206 | On every path, database errors and shutdown included: a launched container is torn down exactly once; a started fleet, then the ingester, stopped exactly once before that |
| `LifecycleReach.FailedThenBuilt` | backend/api/submission_handler.go:306-352 | A reliable run from the start to a failed submission that is then built again |
| `LifecycleReach.FailedIsRebuiltIff` | backend/api/submission_handler.go:306-352 | A failed submission may be built again if and only if a run of it is being inserted, waits to be pushed, is queued, or is being taken |
| `LifecycleReach.DeletedWhileRunning` | backend/api/submission_handler.go:254-287 | A reliable run from the start that deletes a running submission |
| `LifecycleReach.AtomicDeletionSpares` | backend/api/submission_handler.go:258-277 | If every check of a submission is directly followed by its deletion, it is never deleted while running, whatever fails |
| `LifecycleReach.DeletionHitsRunningIff` | backend/api/submission_handler.go:258-277 | From any state a reliable run reaches, with no further check, a submission may be deleted while running if and only if a deletion of it is past its check and it runs, may be triggered, or has a run pending |
| `LostRuns.PushFailedLoses` | backend/api/submission_handler.go:348-352 | A run from the start, with nothing failing but one push, to a run of a submission that is queued in the table and can never be taken |
| `LostRuns.LostForGood` | backend/api/submission_handler.go:348-352 | A run neither taken nor waiting to be pushed or in the queue is never taken and keeps the status queued, whatever comes and whatever fails |
| `LostRuns.MayBeTakenIff` | backend/api/submission_handler.go:348-352 | Whatever fails, a run not yet taken may still be taken if and only if it waits to be pushed or is in the queue |
| `Reruns.MayBuildNewIff` | backend/api/submission_handler.go:306-352 | From any state a reliable run reaches, with no run of it under way, a new run of a submission may be built if and only if it is pending, ready or completed, or not yet created |
| `Reruns.CanComplete` | backend/api/submission_handler.go:306-352 | Such a submission can be benchmarked to a completed run, and is then completed with no run under way, free to be benchmarked again |
| `Reruns.BenchmarkedTwice` | backend/api/submission_handler.go:306-352 | A reliable run from the start to two completed runs of one submission |
| `Reruns.RowsStay` | backend/migrations/002_create_metrics.sql:15 | Whatever fails, no submission or run that is gone comes back, and a run goes only with its submission |
| `Lifecycle.ShutdownLeavesRunning` | backend/workers/benchmark_worker.go:175-180 | A shutdown during the benchmark writes no status: run and submission stay marked running |
| `BenchmarkWorkers.BenchmarkWorker.LoadRunAndSubmission` | backend/workers/benchmark_worker.go:85-88 | Run and submission are found, or the run goes to failRun |
| `BenchmarkWorkers.BenchmarkWorker.FailRun` | backend/workers/benchmark_worker.go:266-279 | The run is marked failed, looked up, and its submission marked failed, each unless that call fails; as the lifecycle's failing steps |
| `BenchmarkWorkers.BenchmarkWorker.ProcessRun` | backend/workers/benchmark_worker.go:83-217 | For any outcome of every call, rows, effects and error are as the lifecycle's worker steps leave them; it errs if and only if a row is missing, loading, one of the first two marks, build, launch, health or fleet start fails, or the service shuts down; otherwise run and submission are completed, as far as those writes succeed |
| `BenchmarkWorkers.BenchmarkWorker.BuildAndRun` | backend/workers/benchmark_worker.go:99-117 | Build and launch: an error marks run and submission failed and leaves no container |
| `BenchmarkWorkers.BenchmarkWorker.RunInSandbox` | backend/workers/benchmark_worker.go:119-163 | The part with the container up: it errs if and only if health or fleet start fails or the service shuts down, the first two tearing down; otherwise both rows are completed |
| `BenchmarkWorkers.BenchmarkWorker.RunFleet` | backend/workers/benchmark_worker.go:126-163 | With the container healthy: the submission is marked running, an error of which is ignored; it errs if and only if the fleet does not start or the service shuts down |
| `BenchmarkWorkers.BenchmarkWorker.AwaitWindow` | backend/workers/benchmark_worker.go:175-183 | The select on the benchmark window and shutdown |
| `BenchmarkWorkers.BenchmarkWorker.Abandon` | backend/workers/benchmark_worker.go:176-180 | The shutdown branch: fleet, ingester, container, and an error |
| `BenchmarkWorkers.BenchmarkWorker.Conclude` | backend/workers/benchmark_worker.go:186-206 | Fleet, then ingester, then scoring, whose error is ignored, then tear-down |
| `BenchmarkWorkers.BenchmarkWorker.CompleteRun` | backend/workers/benchmark_worker.go:208-210 | The run is marked completed and then the submission completed, each unless its write fails |
| `BenchmarkWorkers.BenchmarkWorker.DequeueRun` | backend/services/queue_service.go:34-50 | The oldest run leaves the right end of the list; of an empty list nothing is taken |
| `BenchmarkWorkers.BenchmarkWorker.MoveToDeadLetter` | backend/services/queue_service.go:53-61 | A failed run id goes to the left end of the dead letters, unless the push fails |
| `BenchmarkWorkers.BenchmarkWorker.Turn` | backend/workers/benchmark_worker.go:60-78 | One turn of the loop: nothing changes if the list is empty; otherwise Dequeue and the worker steps of the lifecycle, whatever was launched or started cleaned up, an error to the dead letters |
| `SubmissionApi.SubmissionHandler.EnqueueRun` | backend/services/queue_service.go:30-32 | A run enters at the left end of the list |
| `SubmissionApi.SubmissionHandler.TriggerRun` | backend/api/submission_handler.go:300-358 | Which response, conflict exactly for an existing submission not pending, ready or completed; a created run is queued in the table and pushed at the left end, unless the push fails; an uninterrupted request is the lifecycle's check, insert and push |
| `SubmissionApi.SubmissionHandler.Delete` | backend/api/submission_handler.go:254-287 | Which response, and that an uninterrupted request is the lifecycle's check and deletion, runs included |
| `Scoring.PeakIsMaximum` | backend/services/scoring_service.go:74 | The peak is some window's throughput and no window exceeds it |
| `Scoring.AverageWithin` | backend/services/scoring_service.go:75-78 | An average lies in any range all windows keep to |
| `Scoring.AggregateOnScale` | backend/services/scoring_service.go:79-87 | For whichever of the ingester's snapshots were persisted: correctness = acked / sent, within 0 and 1; uptime within 0 and 100; zero without snapshots |
| `Scoring.AggregateOfNone` | backend/services/scoring_service.go:71-91 | Without snapshots every metric is zero |
| `Scoring.AggregateOfOne` | backend/services/scoring_service.go:71-91 | One snapshot shows through column by column: quantiles, acknowledgements a second, full uptime or none, the share of orders without an error |
| `Scoring.AggregateJoins` | backend/services/scoring_service.go:71-91 | Two lots of snapshots together: the greater peak, averages and uptime weighted by windows, correctness by orders sent |
| `Scoring.UptimeExtremes` | backend/services/scoring_service.go:79-82 | Uptime is 100 exactly when every window saw an acknowledgement and 0 exactly when none did |
| `Scoring.ClampsIdle` | backend/services/scoring_service.go:144-145 | For the ingester's snapshots correctness and stability are never clamped |
| `Scoring.CompositeFullIff` | backend/services/scoring_service.go:147-150 | The composite is 100 if and only if every score that carries weight is 100 |
| `Scoring.NormalRunCorrectness` | backend/services/scoring_service.go:83-87 | Correctness of a run stopped in the normal order is the share of successes among the samples the channel accepted, and without drops the fleet's acknowledged over sent |
| `Scoring.ScoreEndpoints` | backend/services/scoring_service.go:122-142 | Latency scores 100 exactly up to 1 ms and 0 exactly from 100 ms; throughput 0 exactly up to 100 per second and 100 exactly from 100000 |
| `Scoring.LatencyLogarithmic` | backend/services/scoring_service.go:130-134 | Anywhere on the scale a latency k times as long costs the same points, 50 log k |
| `Scoring.ThroughputLogarithmic` | backend/services/scoring_service.go:138-142 | Anywhere on the scale a throughput k times as high is worth the same points, 100 log k / 3 |
| `Scoring.HalfMarks` | backend/services/scoring_service.go:122-142 | 10 ms, and the square root of 100 times 100000 orders a second, score 50 |
| `Scoring.PointsWeighed` | backend/services/scoring_service.go:147-150 | A point of each score moves the composite by that score's weight |
| `Scoring.CompositeOnScale` | backend/services/scoring_service.go:144-150 | With non-negative weights that sum to one, all scores and the composite lie within 0 and 100 |
| `Scoring.LatencyMonotone` | backend/services/scoring_service.go:130-134 | A lower p99 never scores lower, across branch and clamp |
| `Scoring.ThroughputMonotone` | backend/services/scoring_service.go:138-142 | A higher peak never scores lower, across branch and clamp |
| `Scoring.DominanceScores` | backend/services/scoring_service.go:127-150 | A run at least as good on all four raw metrics never has the lower composite |
| `Scoring.SilenceScoresLatency` | backend/services/scoring_service.go:130-134 | An engine that never acknowledged an order has the full latency score and nothing else |
| `Leaderboard.RowIsBestRun` | backend/services/scoring_service.go:176-195 | After any history a submission has a row exactly when a run of it was scored since its last deletion; run, metrics, scores and time all come from one run, the single latest of those with the highest composite |
| `Leaderboard.CompositeNeverDrops` | backend/services/scoring_service.go:195 | A submission's composite never decreases while it exists |
| `Leaderboard.RowsConsistent` | backend/services/scoring_service.go:176-202 | No row ever mixes runs: scores and composite always follow from the metrics shown with them |
| `Leaderboard.AlwaysLinked` | backend/services/scoring_service.go:163-176 | Over any submissions, runs, snapshots, scorings, errors and deletions, every row stands under the team and language of its submission, for a run of that submission |
| `Leaderboard.RowsTraced` | backend/services/scoring_service.go:31-60 | Over any calls every row is the result of one scoring of its run: its time, metrics, scores and composite are that call's, from the snapshots persisted by then |
| `Leaderboard.LeaderboardIsBoard` | backend/services/scoring_service.go:183-195 | Over any calls the table is that of the scorings and deletions among them, so the row is the best run's |
| `Leaderboard.EarlierResultFirst` | backend/migrations/003_create_leaderboard.sql:30-34 | Of two rows with equal composites the one scored at the earlier time ranks first |
| `Leaderboard.RankingExists` | backend/migrations/003_create_leaderboard.sql:30-34 | The view always has an answer: all rows once, ordered by composite, then earlier time |
| `Leaderboard.RankWithin` | backend/migrations/003_create_leaderboard.sql:30-34 | Ranks are 1 to n; a row's rank lies between one more than the number of rows ahead and n less the number behind |
| `Leaderboard.UntiedRank` | backend/migrations/003_create_leaderboard.sql:32 | Without a tie on both keys the rank is one more than the number of rows ahead |
| `Leaderboard.OvertakenIff` | backend/services/scoring_service.go:183-195 | Rescoring adds rows ahead of a submission exactly when it loses a tie, and otherwise only takes some away |
| `Leaderboard.RescoringMayCostRankIff` | backend/services/scoring_service.go:183-195 | Whatever ties there are: some answers of the view show a worse rank after scoring again if and only if the composite stays and another row has it with a time between the old and the renewed or at one of them; all answers do if and only if such a time lies strictly between; a higher composite never costs a rank |
| `Leaderboard.RescoringCostsRankIff` | backend/services/scoring_service.go:183-195 | Where ranks are determined: scoring again worsens the rank if and only if the composite is equal and the renewed time falls behind a row level with it |
| `Leaderboard.EqualRescoreDropsRank` | backend/services/scoring_service.go:194-195 | Such a case: an equal second result drops the leader to second |
| `Leaderboard.DominanceRanks` | backend/migrations/003_create_leaderboard.sql:30-34 | A run at least as good on all raw metrics ranks lower only on equal composites, having been scored no earlier |
| `Leaderboard.ScoringService.UpsertLeaderboard` | backend/services/scoring_service.go:161-208 | The row that comes to stand: the old one if its composite is higher, else run, names of its submission, the four metrics, scores, composite and time, each in its column; no other row changes |
| `Leaderboard.ScoringService.ComputeAndStore` | backend/services/scoring_service.go:31-60 | Which part is stored on an error at each step, and, column by column, the row a success leaves |
| `Leaderboard.ScoringService.DeleteSubmission` | backend/migrations/003_create_leaderboard.sql:5-7 | A deleted submission's runs, snapshots, aggregates and row go with it, and nothing of any other |

## Left out

- EngineAgreement.EnginesAgree: leaves the quoted price out of the agreement, as the code's differs (`ServiceHistories.QuotesAgreeIff` says exactly when), and needs that no two limit orders of one side and price read the same time, as the engines then differ (`BookLimits.StalledClockOvertakes`).
- SortedVectorBook.OrderBook.Match: is one method for the three copies of the loop in the C++ source, and LazyHeapBook.OrderBook.Match one for the three in the Python source; a side and an optional limit stand for the differences.
- SortedVectorBook.OrderBook.InsertSorted: has the vectors as sequences, so moving elements within a buffer is not modelled; nor is C++ integer width, all quantities lying between 0 and the one submitted.
- LifecycleReach.DeletionHitsRunningIff: is about reliable runs, as is `LifecycleReach.FailedIsRebuiltIff`; a status write that fails lets other runs of statuses happen.
- Lifecycle.ReliableRunKeeps: assumes a worker whose database and queue calls do not err and no shutdown; sandbox, fleet and scoring may fail as they like, and a request's push. Order of taking, permanence of ended runs, lost runs, cleaning up and termination are proved without the assumption. The requests of the API are steps between which anything may happen; `SubmissionApi` has them uninterrupted.
- BenchmarkWorkers.BenchmarkWorker.ProcessRun: runs uninterrupted; interleaving with requests is `Lifecycle`'s. It is split over several methods, so that each proof stays small. The endless loop around it is `Turn`, one round of it; errors of the blocking dequeue, which change nothing, are left out.
- TelemetrySystem.RunKeeps: has Fleet.Start, rampUp, spawnWorker and Stop, Worker.Run and TelemetryIngester.Run as steps of one transition system, because goroutines have no Dafny form; the 500 ms pause in Stop becomes the condition that all bots have gone.
- Telemetry.TelemetryIngester.Flush: the latency histogram is a count of recorded values and whatever quantiles it answers with; persisting and publishing a snapshot, errors of both, are left out, and scoring takes any collection of genuine snapshots instead.
- Leaderboard.ScoringService.ComputeAndStore: the published leaderboard update is left out.
- Scoring.ScoreEndpoints: takes the logarithm as a parameter, strictly increasing, turning products into sums, and 1 at 10.
- Floating point: prices are cents, so rounding a fill price to two digits changes nothing; scores are exact reals.
- Order type, side and status strings are enumerations; JSON, defaults for missing fields and generated ids are left out.
- Locks: each engine request is atomic, as the engines' mutexes make it.
- HTTP, WebSocket, Docker, SQL and Redis clients, health probes, archives, uploads, pagination, configuration, logging, and the frontend.
- Stochastic prices and quantities of generated orders; only whole-cent prices matter here.
