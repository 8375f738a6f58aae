/** Decoded feed messages, the subscribe handshake and the events the hook
    dispatches to the store. JSON decoding and the socket itself are outside
    the model: a message arrives here already decoded. */
module Feed {

  datatype Option<T> = None | Some(value: T)

  /** One `[price, size]` level of a snapshot. The price is in hundredths
      (the `toFixed(2)` convention); the size is in a fixed-point unit. */
  datatype Level = Level(price: int, size: int)

  /** One `[side, price, size]` entry of an `l2update`. The hook never looks
      inside a change: it only buffers and forwards it, so the fields stay text. */
  datatype Change = Change(side: string, price: string, size: string)

  /** The `[price, size]` pair sent as the largest ask or bid. */
  datatype Order = Order(price: string, size: string)

  /** The `{ bid, ask, time }` sample sent to the chart. */
  datatype ChartSample = ChartSample(bid: string, ask: string, time: string)

  /** A decoded feed message, told apart by its `type` field. `Other`
      stands for every other type (subscriptions, heartbeat, error, ...). */
  datatype Message =
    | Snapshot(bids: seq<Level>, asks: seq<Level>)
    | L2Update(changes: seq<Change>)
    | Ticker(bestAsk: string, bestBid: string, bestBidSize: string, bestAskSize: string, time: string)
    | Other(kind: string)

  /** The one message the hook sends: the subscribe handshake. */
  datatype Outgoing = Subscribe(channels: seq<string>, productIds: seq<string>)

  const SubscribedChannels: seq<string> := ["level2_batch", "ticker"]

  /** Actions dispatched to the store, in the order they are dispatched. */
  datatype Event =
    | AggregatedBids(buckets: map<int, int>, total: int)
    | AggregatedAsks(buckets: map<int, int>, total: int)
    | AllBids(levels: map<int, int>, total: int)
    | AllAsks(levels: map<int, int>, total: int)
    | DataLoading(loading: bool)
    | UpdateOrderBook(batch: seq<Change>)
    | LargestAsk(order: Order)
    | LargestBid(order: Order)
    | ChartData(sample: ChartSample)
}
