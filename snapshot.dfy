/** The `snapshot` branch of the message handler: one pass over each side's
    levels builds the raw price-to-size map, the bucketed map and the running
    total, and five actions are then dispatched in a fixed order.

    The specification functions below are left folds over the level list, in
    list order, as the `forEach` loops run. */
module SnapshotFold {
  import opened Feed
  import opened Bucketing

  /** The prices that occur in a side's level list. */
  function Prices(levels: seq<Level>): set<int>
  {
    set l | l in levels :: l.price
  }

  /** The buckets that the prices of a side's level list fall in. */
  function BucketsOf(levels: seq<Level>, step: int): set<int>
    requires step > 0
  {
    set l | l in levels :: Bucket(l.price, step)
  }

  /** The raw map after the loop: each level's size stored under its price;
      a later level with the same price overwrites an earlier one. */
  function RawMap(levels: seq<Level>): map<int, int>
  {
    if |levels| == 0 then map[]
    else
      var n := |levels| - 1;
      RawMap(levels[..n])[levels[n].price := levels[n].size]
  }

  /** The bucketed map after the loop: each level's size stored under its
      bucket with a plain assignment, so a later level in the same bucket
      overwrites an earlier one. */
  function AggMap(levels: seq<Level>, step: int): map<int, int>
    requires step > 0
  {
    if |levels| == 0 then map[]
    else
      var n := |levels| - 1;
      AggMap(levels[..n], step)[Bucket(levels[n].price, step) := levels[n].size]
  }

  /** The running total: every level's size added in list order, duplicates included. */
  function Total(levels: seq<Level>): int
  {
    if |levels| == 0 then 0
    else
      var n := |levels| - 1;
      Total(levels[..n]) + levels[n].size
  }

  /** The level list with every price replaced by its bucket. */
  function Bucketed(levels: seq<Level>, step: int): (r: seq<Level>)
    requires step > 0
    ensures |r| == |levels|
  {
    seq(|levels|, k requires 0 <= k < |levels| => Level(Bucket(levels[k].price, step), levels[k].size))
  }

  ghost predicate DistinctPrices(levels: seq<Level>)
  {
    forall i, j :: 0 <= i < j < |levels| ==> levels[i].price != levels[j].price
  }

  /** The sum of a map's values. */
  ghost function MapSum(m: map<int, int>): int
    decreases |m|
  {
    if |m| == 0 then 0
    else
      HasKey(m);
      var k :| k in m;
      assert |m - {k}| < |m| by { assert m.Keys == (m - {k}).Keys + {k}; }
      m[k] + MapSum(m - {k})
  }

  lemma EmptyIfNoKeys(m: map<int, int>)
    requires forall k :: k !in m
    ensures |m| == 0
  {
    assert forall k :: k in m.Keys <==> k in {};
    assert m.Keys == {};
  }

  lemma HasKey(m: map<int, int>)
    requires |m| > 0
    ensures exists k :: k in m
  {
    if forall k :: k !in m {
      EmptyIfNoKeys(m);
      assert false;
    }
  }

  /** The raw map has exactly the input prices as keys: no level is dropped,
      zero sizes included. */
  lemma {:induction false} RawMapKeys(levels: seq<Level>)
    ensures RawMap(levels).Keys == Prices(levels)
  {
    if |levels| > 0 {
      var n := |levels| - 1;
      RawMapKeys(levels[..n]);
      assert levels == levels[..n] + [levels[n]];
      assert Prices(levels) == Prices(levels[..n]) + {levels[n].price};
    }
  }

  /** The raw map holds, under each price, the size of the last level with that price. */
  lemma {:induction false} RawMapLastWins(levels: seq<Level>, i: int)
    requires 0 <= i < |levels|
    requires forall j :: i < j < |levels| ==> levels[j].price != levels[i].price
    ensures levels[i].price in RawMap(levels)
    ensures RawMap(levels)[levels[i].price] == levels[i].size
  {
    var n := |levels| - 1;
    if i < n {
      RawMapLastWins(levels[..n], i);
    }
  }

  /** The bucketed map has exactly the buckets of the input prices as keys. */
  lemma {:induction false} AggMapKeys(levels: seq<Level>, step: int)
    requires step > 0
    ensures AggMap(levels, step).Keys == BucketsOf(levels, step)
  {
    if |levels| > 0 {
      var n := |levels| - 1;
      AggMapKeys(levels[..n], step);
      assert levels == levels[..n] + [levels[n]];
      assert BucketsOf(levels, step) == BucketsOf(levels[..n], step) + {Bucket(levels[n].price, step)};
    }
  }

  /** The bucketed map is the raw map of the bucketed level list: bucketing
      stores sizes exactly as the raw map does, keyed by bucket instead of price. */
  lemma {:induction false} AggMapIsRawOfBucketed(levels: seq<Level>, step: int)
    requires step > 0
    ensures AggMap(levels, step) == RawMap(Bucketed(levels, step))
  {
    if |levels| > 0 {
      var n := |levels| - 1;
      AggMapIsRawOfBucketed(levels[..n], step);
      assert Bucketed(levels, step)[..n] == Bucketed(levels[..n], step);
    }
  }

  /** Each bucket holds the size of the last level that falls in it: sizes in
      one bucket are overwritten, not added. */
  lemma AggMapLastWins(levels: seq<Level>, step: int, i: int)
    requires step > 0
    requires 0 <= i < |levels|
    requires forall j :: i < j < |levels| ==> Bucket(levels[j].price, step) != Bucket(levels[i].price, step)
    ensures Bucket(levels[i].price, step) in AggMap(levels, step)
    ensures AggMap(levels, step)[Bucket(levels[i].price, step)] == levels[i].size
  {
    AggMapIsRawOfBucketed(levels, step);
    RawMapLastWins(Bucketed(levels, step), i);
  }

  /** One unfolding of `MapSum`: the key it picks, whose value plus the sum
      of the rest is the whole sum. */
  lemma MapSumPick(m: map<int, int>) returns (j: int)
    requires |m| > 0
    ensures j in m && MapSum(m) == m[j] + MapSum(m - {j})
  {
    HasKey(m);
    j :| j in m && MapSum(m) == m[j] + MapSum(m - {j});
  }

  lemma RemoveKeySize(m: map<int, int>, k: int)
    requires k in m
    ensures |m - {k}| == |m| - 1
  {
    assert m.Keys == (m - {k}).Keys + {k};
  }

  lemma {:induction false} MapSumRemove(m: map<int, int>, k: int)
    requires k in m
    ensures MapSum(m) == m[k] + MapSum(m - {k})
    decreases |m|
  {
    var j := MapSumPick(m);
    if j != k {
      RemoveKeySize(m, j);
      RemoveKeySize(m, k);
      MapSumRemove(m - {j}, k);
      MapSumRemove(m - {k}, j);
      assert m - {j} - {k} == m - {k} - {j};
    }
  }

  lemma MapSumInsert(m: map<int, int>, k: int, v: int)
    requires k !in m
    ensures MapSum(m[k := v]) == v + MapSum(m)
  {
    MapSumRemove(m[k := v], k);
    assert m[k := v] - {k} == m;
  }

  /** A price of the last level does not occur earlier when prices are distinct. */
  lemma LastPriceIsNew(levels: seq<Level>)
    requires |levels| > 0 && DistinctPrices(levels)
    ensures levels[|levels| - 1].price !in Prices(levels[..|levels| - 1])
    ensures DistinctPrices(levels[..|levels| - 1])
  {
    var n := |levels| - 1;
    forall l | l in levels[..n] ensures l.price != levels[n].price {
      var i :| 0 <= i < n && levels[..n][i] == l;
    }
  }

  /** With distinct prices the running total is the sum of the raw map's values;
      with repeated prices it counts every occurrence, the map only the last. */
  lemma {:induction false} TotalIsMapSum(levels: seq<Level>)
    requires DistinctPrices(levels)
    ensures Total(levels) == MapSum(RawMap(levels))
  {
    if |levels| > 0 {
      var n := |levels| - 1;
      LastPriceIsNew(levels);
      TotalIsMapSum(levels[..n]);
      RawMapKeys(levels[..n]);
      MapSumInsert(RawMap(levels[..n]), levels[n].price, levels[n].size);
    }
  }

  /** The `forEach` loop over one side: stores each level in the bucketed and
      the raw map and adds its size to the total. */
  method FoldSide(levels: seq<Level>, step: int) returns (raw: map<int, int>, agg: map<int, int>, total: int)
    requires step > 0
    ensures raw == RawMap(levels) && agg == AggMap(levels, step) && total == Total(levels)
    ensures raw.Keys == Prices(levels) && agg.Keys == BucketsOf(levels, step)
  {
    raw, agg, total := map[], map[], 0;
    var i := 0;
    while i < |levels|
      invariant 0 <= i <= |levels|
      invariant raw == RawMap(levels[..i])
      invariant agg == AggMap(levels[..i], step)
      invariant total == Total(levels[..i])
    {
      var level := levels[i];
      assert levels[..i + 1][..i] == levels[..i];
      agg := agg[Bucket(level.price, step) := level.size];
      raw := raw[level.price := level.size];
      total := total + level.size;
      i := i + 1;
    }
    assert levels[..i] == levels;
    RawMapKeys(levels);
    AggMapKeys(levels, step);
  }

  /** The five actions a snapshot dispatches, in dispatch order. */
  function SnapshotEvents(bids: seq<Level>, asks: seq<Level>, step: int): seq<Event>
    requires step > 0
  {
    [ AggregatedBids(AggMap(bids, step), Total(bids)),
      AggregatedAsks(AggMap(asks, step), Total(asks)),
      AllBids(RawMap(bids), Total(bids)),
      AllAsks(RawMap(asks), Total(asks)),
      DataLoading(false) ]
  }

  /** The whole `snapshot` branch: fold both sides, then dispatch. */
  method HandleSnapshot(bids: seq<Level>, asks: seq<Level>, step: int) returns (events: seq<Event>)
    requires step > 0
    ensures events == SnapshotEvents(bids, asks, step)
  {
    var bidsData, aggregatedBidsData, bidsTotal := FoldSide(bids, step);
    var asksData, aggregatedAsksData, asksTotal := FoldSide(asks, step);
    events := [
      AggregatedBids(aggregatedBidsData, bidsTotal),
      AggregatedAsks(aggregatedAsksData, asksTotal),
      AllBids(bidsData, bidsTotal),
      AllAsks(asksData, asksTotal),
      DataLoading(false)
    ];
  }

  /** What the five snapshot actions carry: the raw views keyed by exactly the
      input prices, the aggregated views keyed by exactly their buckets, every
      view of a side carrying that side's running total (so the aggregated view
      shows the raw total), and loading switched off last. With distinct prices
      the totals are the sums of the raw views. */
  lemma SnapshotViews(bids: seq<Level>, asks: seq<Level>, step: int)
    requires step > 0
    ensures var e := SnapshotEvents(bids, asks, step);
      && |e| == 5
      && e[0].AggregatedBids? && e[1].AggregatedAsks? && e[2].AllBids? && e[3].AllAsks?
      && e[4] == DataLoading(false)
      && e[2].levels.Keys == Prices(bids) && e[3].levels.Keys == Prices(asks)
      && e[0].buckets.Keys == BucketsOf(bids, step) && e[1].buckets.Keys == BucketsOf(asks, step)
      && e[0].total == e[2].total == Total(bids)
      && e[1].total == e[3].total == Total(asks)
      && (DistinctPrices(bids) ==> e[2].total == MapSum(e[2].levels))
      && (DistinctPrices(asks) ==> e[3].total == MapSum(e[3].levels))
  {
    RawMapKeys(bids);
    RawMapKeys(asks);
    AggMapKeys(bids, step);
    AggMapKeys(asks, step);
    if DistinctPrices(bids) {
      TotalIsMapSum(bids);
    }
    if DistinctPrices(asks) {
      TotalIsMapSum(asks);
    }
  }

  /** Two bids 100.00 (size 2) and 100.50 (size 1) with a step of 1.00: both
      fall in bucket 100.00, which keeps the later size 1, while the
      aggregated view still carries the total 3. */
  lemma OverwriteInBucket()
    ensures var bids := [Level(10000, 2), Level(10050, 1)];
      && AggMap(bids, 100) == map[10000 := 1]
      && Total(bids) == 3
      && RawMap(bids) == map[10000 := 2, 10050 := 1]
  {
    var bids := [Level(10000, 2), Level(10050, 1)];
    assert bids[..1][..0] == [];
    assert Bucket(10000, 100) == 10000 && Bucket(10050, 100) == 10000;
  }
}
