# Order-book feed hook, modelled in Dafny

This project models the core of `useWebSocket`, the React hook of an order-book
UI. The hook subscribes to an exchange's `level2_batch` and `ticker` channels
for one product and turns the feed into store actions:

- a `snapshot` becomes, per side, a raw price-to-size map, a map bucketed by
  the `aggregate` price step, and a running total. Five actions follow in a
  fixed order: aggregated bids, aggregated asks, raw bids, raw asks, loading off.
- `l2update` changes are appended to a pending `changes` buffer. A 150 ms
  debounced call forwards the whole buffer as one `updateOrderBook` action and
  then empties it.
- every `ticker` message feeds three 500 ms debounced channels: largest ask,
  largest bid and the chart sample. Each channel keeps only the last value.
- the effect opens nothing for a null or empty product id. It sends one
  subscribe message when the socket opens. Its cleanup cancels all four
  debounced calls.

Files:

- `feed.dfy` (module `Feed`): decoded messages, the subscribe message and the dispatched actions.
- `bucketing.dfy` (module `Bucketing`): `floor(price / step) * step` on integer hundredths.
- `snapshot.dfy` (module `SnapshotFold`): the snapshot fold. It has specification
  functions (`RawMap`, `AggMap`, `Total`), the loop that computes them
  (`FoldSide`), the five-action handler and the lemmas.
- `debounce.dfy` (module `Debounce`): lodash's trailing-edge `debounce`, reduced
  to its state: the pending arguments of the latest call. Timer expiry is an
  explicit `Fire` step.
- `hook.dfy` (modules `OrderBookFeed`, `FeedScenarios`): the hook as a class
  with its phase, buffer, outbox and timers, and client scenarios proved from
  its contracts.

Conventions: prices are integers in hundredths, following the `toFixed(2)`
convention. The step is a positive integer in hundredths. For a positive
divisor Dafny's `/` rounds down, which is what `Math.floor` does. Sizes are
integers in a fixed-point unit. Ticker fields and l2update changes are passed
through untouched by the hook, so they stay text.

In several places the code does something other than what an order-book view
would normally do. In each case below the model follows the code:

- Sizes in one bucket are stored with `=` (lines 79 and 87). The last level in
  a bucket wins; sizes are not added. The aggregated action carries the raw
  total, which need not equal the sum of its buckets (`OverwriteInBucket`).
- A snapshot keeps levels of size zero in both maps (`RawMapKeys`).
- No level is validated or dropped.
- The flushed batch goes to the `updateOrderBook` reducer uninterpreted.
- Teardown cancels the flush but does not clear `changes`. That buffer is
  component state and the debounced functions are created once per component.
  After the product id changes, the next flush therefore carries the old
  product's unflushed changes ahead of the new ones (`StaleChangesAfterResubscribe`).
- The gate tests only the product id, not the URL.
- `aggregate` is not an effect dependency. The message handler keeps the step it
  captured when the effect ran, so `Start` takes the step as a parameter.

## Model

| member | source | states |
|---|---|---|
| `Bucketing.Bucket` | src/utils/useWebsocket.ts:76-78 | the bucket of a price is a multiple of the step, at most the price, and more than the price minus one step |
| `Bucketing.BucketUnique` | src/utils/useWebsocket.ts:76-78 | any multiple `q * step` whose interval `[q * step, q * step + step)` holds the price is its bucket, so the bounds determine the bucket |
| `Bucketing.BucketIdempotent` | src/utils/useWebsocket.ts:84-86 | bucketing a bucket price with the same step returns it unchanged |
| `Bucketing.BucketMonotone` | src/utils/useWebsocket.ts:76-78 | bucketing preserves the order of prices |
| `Bucketing.SameBucket` | src/utils/useWebsocket.ts:84-86 | two prices share a bucket exactly when their floor quotients by the step are equal |
| `SnapshotFold.RawMapKeys` | src/utils/useWebsocket.ts:80 | the raw map's keys are exactly the input prices, with zero sizes kept |
| `SnapshotFold.RawMapLastWins` | src/utils/useWebsocket.ts:88 | under each price the raw map holds the size of the last level with that price in list order |
| `SnapshotFold.AggMapKeys` | src/utils/useWebsocket.ts:76-79 | the aggregated map's keys are exactly the buckets of the input prices |
| `SnapshotFold.AggMapIsRawOfBucketed` | src/utils/useWebsocket.ts:84-88 | the aggregated map is the raw map of the level list with each price replaced by its bucket |
| `SnapshotFold.AggMapLastWins` | src/utils/useWebsocket.ts:87 | each bucket holds the size of the last level in list order that falls in it; sizes are overwritten, not added |
| `SnapshotFold.TotalIsMapSum` | src/utils/useWebsocket.ts:81 | with distinct prices the running total equals the sum of the raw map's values |
| `SnapshotFold.OverwriteInBucket` | src/utils/useWebsocket.ts:79 | bids 100.00 (size 2) and 100.50 (size 1) with step 1.00 give bucket 100.00 size 1 while the total is 3 |
| `SnapshotFold.FoldSide` | src/utils/useWebsocket.ts:75-82 | the loop over one side yields the raw map, the bucketed map and the sum of all sizes in list order, keyed by exactly the prices and their buckets |
| `SnapshotFold.HandleSnapshot` | src/utils/useWebsocket.ts:67-101 | a snapshot dispatches exactly the five snapshot actions built from both sides' folds |
| `SnapshotFold.SnapshotViews` | src/utils/useWebsocket.ts:92-100 | the five actions come in the order aggregated bids, aggregated asks, raw bids, raw asks, loading false; each side's aggregated and raw actions carry the same running total; the keys are the prices and buckets; with distinct prices the total is the raw map's sum |
| `Debounce.Debounced.constructor` | src/utils/useWebsocket.ts:42-47 | a fresh debounced function has no pending call |
| `Debounce.Debounced.Call` | src/utils/useWebsocket.ts:107 | a call arms the timer with the latest arguments, dropping earlier ones |
| `Debounce.Debounced.Fire` | src/utils/useWebsocket.ts:43-44 | on expiry the latest pending arguments are invoked once and nothing stays pending; with nothing pending nothing is invoked |
| `Debounce.Debounced.Cancel` | src/utils/useWebsocket.ts:127 | cancel drops the pending call without invoking it |
| `OrderBookFeed.Hook.constructor` | src/utils/useWebsocket.ts:22-47 | the hook starts idle with an empty buffer, nothing sent, nothing dispatched and no timer armed |
| `OrderBookFeed.Hook.Start` | src/utils/useWebsocket.ts:49-52 | a falsy product id changes nothing; otherwise a socket is created for that product and step |
| `OrderBookFeed.Hook.OnOpen` | src/utils/useWebsocket.ts:54-62 | opening sends exactly one subscribe message naming `level2_batch` and `ticker` and the product id |
| `OrderBookFeed.Hook.OnMessage` | src/utils/useWebsocket.ts:64-122 | a snapshot appends its five actions; an l2update appends its changes to the buffer and arms the flush with the whole buffer, dispatching nothing; a ticker replaces all three channels' pending values; any other type, or a socket that is not open, changes nothing |
| `OrderBookFeed.Hook.FireFlush` | src/utils/useWebsocket.ts:42-45 | an armed flush dispatches the current buffer once as `updateOrderBook` and empties it; an unarmed flush dispatches nothing; changes are flushed in arrival order, each once; the captured product and step stay as they were |
| `OrderBookFeed.Hook.FireAsk` | src/utils/useWebsocket.ts:32-35 | the ask channel dispatches its latest value once, or nothing if none is pending; the phase, captured product and step, buffer and change history stay as they were |
| `OrderBookFeed.Hook.FireBid` | src/utils/useWebsocket.ts:37-40 | the bid channel dispatches its latest value once, or nothing if none is pending; the phase, captured product and step, buffer and change history stay as they were |
| `OrderBookFeed.Hook.FireChart` | src/utils/useWebsocket.ts:27-30 | the chart channel dispatches its latest sample once, or nothing if none is pending; the phase, captured product and step, buffer and change history stay as they were |
| `OrderBookFeed.Hook.Teardown` | src/utils/useWebsocket.ts:124-130 | cleanup closes the run and cancels all four timers, keeping the buffer; a run the gate refused has no cleanup |
| `FeedScenarios.TickerBurstEmitsLastBidOnce` | src/utils/useWebsocket.ts:111-120 | three tickers within one window give one largest-bid action with the last ticker's bid |
| `FeedScenarios.NoEmissionAfterTeardown` | src/utils/useWebsocket.ts:124-130 | after teardown no flush or ticker action is dispatched and later messages change nothing |
| `FeedScenarios.BurstFlushesOnceInOrder` | src/utils/useWebsocket.ts:103-109 | two l2updates then expiry give one `updateOrderBook` with both change lists in order, and a second expiry gives nothing |
| `FeedScenarios.SnapshotAfterExpiryUsesCapturedStep` | src/utils/useWebsocket.ts:67-101 | after a ticker expiry and a flush, a snapshot is still folded with the step captured when the effect ran, and the received changes are exactly those dispatched |
| `FeedScenarios.StaleChangesAfterResubscribe` | src/utils/useWebsocket.ts:105-108 | changes left unflushed at teardown are flushed ahead of the next product's changes |
| `FeedScenarios.GateRefusesFalsyProduct` | src/utils/useWebsocket.ts:50 | with a null or empty product id nothing is sent or dispatched |
| `FeedScenarios.SubscribeOnOpen` | src/utils/useWebsocket.ts:55-61 | an enabled product gets exactly one subscribe message |

## Left out

- The WebSocket itself (creation, `close`, framing) and `JSON.parse`: messages arrive already decoded as `Feed.Message`. Only an open socket delivers messages, so messages before `onopen` or after cleanup do nothing.
- React `useState`, `useEffect`, `useCallback` and the Redux selectors and `dispatch`: a dispatched action is appended to `outbox`. The `setChanges` updater is taken to run at once, in arrival order; React's deferred and batched updater calls are not modelled.
- Wall-clock timing of lodash `debounce` (150 ms and 500 ms, and the reset of the timer on each call): expiry is an explicit `Fire` step, allowed whenever a call is pending. A stream of calls that never pauses, which postpones a lodash flush indefinitely, is not distinguished.
- Floating point: `parseFloat`, `Number`, `Math.floor` on binary fractions such as a 0.1 step, `toFixed` formatting, float rounding in the totals and `NaN` from non-numeric strings. Prices, sizes and the step are exact integers here, and input is taken to be well formed.
- Raw map keys and values are the exchange's strings in the source. The model keys by the price's value in hundredths and stores the numeric size, so two spellings of one price (`"100.5"` and `"100.50"`) are one key here and two in the source.
- The `updateOrderBook` reducer that applies a flushed batch to the book is not part of this model; the batch is forwarded uninterpreted.
- `OrderBookFeed.Hook.Start`: requires a positive step; a zero step gives `NaN` buckets in the source and a negative one is never configured.
- `OrderBookFeed.Hook.Start`: requires that no socket is live; React runs the previous run's cleanup before running the effect again.
- `Bucketing.Bucket`: requires a positive step, for the same reason as `Start`.
