/** The `useWebSocket` hook: the connection gate, the subscribe handshake, the
    message dispatch and the teardown, with the four debounced functions it
    creates once per component (ask, bid, chart sample, order-book changes).

    The component outlives a single effect run: the `changes` buffer and the
    debounced functions persist when `product_id` changes, while the socket,
    its handlers and the captured `aggregate` step belong to one effect run.
    Dispatching an action to the store is modelled as appending it to
    `outbox`; sending on the socket as appending to `sent`. */
module OrderBookFeed {
  import opened Feed
  import opened Debounce
  import opened SnapshotFold

  /** Where the current effect run stands. `Idle`: no socket (never started,
      or the gate refused the product id). `Connecting`: socket created, not yet
      open. `Open`: subscribed and receiving. `Closed`: torn down. */
  datatype Phase = Idle | Connecting | Open | Closed

  /** The gate: a null or empty product id is falsy and opens nothing. */
  predicate Enabled(productId: Option<string>)
  {
    productId.Some? && productId.value != ""
  }

  class Hook {
    var phase: Phase
    var productId: string
    /** The `aggregate` step captured by the running effect's message handler. */
    var step: int
    /** Messages sent on the socket. */
    var sent: seq<Outgoing>
    /** Actions dispatched to the store, in order. */
    var outbox: seq<Event>
    /** The `changes` state: l2update changes received since the last flush. */
    var changes: seq<Change>
    /** Every change ever received, and every change ever flushed, in order. */
    ghost var received: seq<Change>
    ghost var flushed: seq<Change>

    const flushTimer: Debounced<seq<Change>>
    const askTimer: Debounced<Order>
    const bidTimer: Debounced<Order>
    const chartTimer: Debounced<ChartSample>

    /** No debounced call is pending. */
    ghost predicate Quiet()
      reads this, flushTimer, askTimer, bidTimer, chartTimer
    {
      flushTimer.pending == None && askTimer.pending == None &&
      bidTimer.pending == None && chartTimer.pending == None
    }

    ghost predicate Valid()
      reads this, flushTimer, askTimer, bidTimer, chartTimer
    {
      && askTimer != bidTimer
      // the flush timer, when armed, holds the whole buffer
      && (flushTimer.pending.Some? ==> flushTimer.pending.value == changes)
      // no change is lost, duplicated or reordered between arrival and flush
      && flushed + changes == received
      // timers are armed only while subscribed
      && (phase != Open ==> Quiet())
      && (phase != Idle ==> step > 0)
    }

    constructor ()
      ensures Valid() && Quiet()
      ensures phase == Idle && sent == [] && outbox == [] && changes == []
      ensures received == [] && flushed == []
      ensures fresh(flushTimer) && fresh(askTimer) && fresh(bidTimer) && fresh(chartTimer)
    {
      phase, productId, step := Idle, "", 0;
      sent, outbox, changes := [], [], [];
      received, flushed := [], [];
      flushTimer := new Debounced();
      askTimer := new Debounced();
      bidTimer := new Debounced();
      chartTimer := new Debounced();
    }

    /** One run of the effect. React runs the previous run's cleanup first, so
        no socket is live. A falsy product id returns at once; otherwise a socket
        is created and the handlers capture the product id and the step. */
    method Start(id: Option<string>, aggregate: int)
      requires Valid() && (phase == Idle || phase == Closed)
      requires aggregate > 0
      modifies this
      ensures Valid()
      ensures !Enabled(id) ==> unchanged(this)
      ensures Enabled(id) ==> phase == Connecting && productId == id.value && step == aggregate
      ensures sent == old(sent) && outbox == old(outbox) && changes == old(changes)
      ensures received == old(received) && flushed == old(flushed)
    {
      if !Enabled(id) {
        return;
      }
      phase, productId, step := Connecting, id.value, aggregate;
    }

    /** `onopen`: send the one subscribe message. */
    method OnOpen()
      requires Valid()
      modifies this
      ensures Valid()
      ensures old(phase) == Connecting ==>
        && phase == Open
        && sent == old(sent) + [Subscribe(SubscribedChannels, [productId])]
        && productId == old(productId) && step == old(step)
        && outbox == old(outbox) && changes == old(changes)
        && received == old(received) && flushed == old(flushed)
      ensures old(phase) != Connecting ==> unchanged(this)
    {
      if phase != Connecting {
        return;
      }
      phase := Open;
      sent := sent + [Subscribe(SubscribedChannels, [productId])];
    }

    /** `onmessage`: dispatch on the message type. Only an open socket
        delivers messages. */
    method OnMessage(m: Message)
      requires Valid()
      modifies this, flushTimer, askTimer, bidTimer, chartTimer
      ensures Valid()
      ensures phase == old(phase) && productId == old(productId) && step == old(step) && sent == old(sent)
      ensures flushed == old(flushed)
      ensures !(old(phase) == Open && m.L2Update?) ==> received == old(received)
      ensures old(phase) != Open || m.Other? ==>
        unchanged(this, flushTimer, askTimer, bidTimer, chartTimer)
      ensures old(phase) == Open && m.Snapshot? ==>
        && outbox == old(outbox) + SnapshotEvents(m.bids, m.asks, step)
        && changes == old(changes)
        && unchanged(flushTimer, askTimer, bidTimer, chartTimer)
      ensures old(phase) == Open && m.L2Update? ==>
        && changes == old(changes) + m.changes
        && received == old(received) + m.changes
        && flushTimer.pending == Some(changes)
        && outbox == old(outbox)
        && unchanged(askTimer, bidTimer, chartTimer)
      ensures old(phase) == Open && m.Ticker? ==>
        && askTimer.pending == Some(Order(m.bestAsk, m.bestAskSize))
        && bidTimer.pending == Some(Order(m.bestBid, m.bestBidSize))
        && chartTimer.pending == Some(ChartSample(m.bestBid, m.bestAsk, m.time))
        && outbox == old(outbox) && changes == old(changes)
        && unchanged(flushTimer)
    {
      if phase != Open {
        return;
      }
      match m
      case Snapshot(bids, asks) =>
        var events := HandleSnapshot(bids, asks, step);
        outbox := outbox + events;
      case L2Update(cs) =>
        changes := changes + cs;
        received := received + cs;
        flushTimer.Call(changes);
      case Ticker(bestAsk, bestBid, bestBidSize, bestAskSize, time) =>
        askTimer.Call(Order(bestAsk, bestAskSize));
        bidTimer.Call(Order(bestBid, bestBidSize));
        chartTimer.Call(ChartSample(bestBid, bestAsk, time));
      case Other(_) =>
    }

    /** The flush timer expires: the buffered changes are dispatched once as
        one `updateOrderBook` action and the callback empties the buffer. */
    method FireFlush()
      requires Valid()
      modifies this, flushTimer
      ensures Valid()
      ensures old(flushTimer.pending).Some? ==>
        && outbox == old(outbox) + [UpdateOrderBook(old(changes))]
        && changes == []
        && flushed == old(flushed) + old(changes)
      ensures old(flushTimer.pending) == None ==>
        outbox == old(outbox) && changes == old(changes) && flushed == old(flushed)
      ensures flushTimer.pending == None
      ensures old(phase) != Open ==> outbox == old(outbox)
      ensures phase == old(phase) && sent == old(sent) && received == old(received)
      ensures productId == old(productId) && step == old(step)
    {
      var batch := flushTimer.Fire();
      if batch.Some? {
        outbox := outbox + [UpdateOrderBook(batch.value)];
        flushed := flushed + changes;
        changes := [];
      }
    }

    /** The ask timer expires: the latest ask is dispatched once. */
    method FireAsk()
      requires Valid()
      modifies this, askTimer
      ensures Valid()
      ensures outbox == old(outbox) + (if old(askTimer.pending).Some? then [LargestAsk(old(askTimer.pending).value)] else [])
      ensures askTimer.pending == None
      ensures old(phase) != Open ==> outbox == old(outbox)
      ensures phase == old(phase) && changes == old(changes) && sent == old(sent)
      ensures productId == old(productId) && step == old(step)
      ensures received == old(received) && flushed == old(flushed)
    {
      var order := askTimer.Fire();
      if order.Some? {
        outbox := outbox + [LargestAsk(order.value)];
      }
    }

    /** The bid timer expires: the latest bid is dispatched once. */
    method FireBid()
      requires Valid()
      modifies this, bidTimer
      ensures Valid()
      ensures outbox == old(outbox) + (if old(bidTimer.pending).Some? then [LargestBid(old(bidTimer.pending).value)] else [])
      ensures bidTimer.pending == None
      ensures old(phase) != Open ==> outbox == old(outbox)
      ensures phase == old(phase) && changes == old(changes) && sent == old(sent)
      ensures productId == old(productId) && step == old(step)
      ensures received == old(received) && flushed == old(flushed)
    {
      var order := bidTimer.Fire();
      if order.Some? {
        outbox := outbox + [LargestBid(order.value)];
      }
    }

    /** The chart timer expires: the latest chart sample is dispatched once. */
    method FireChart()
      requires Valid()
      modifies this, chartTimer
      ensures Valid()
      ensures outbox == old(outbox) + (if old(chartTimer.pending).Some? then [ChartData(old(chartTimer.pending).value)] else [])
      ensures chartTimer.pending == None
      ensures old(phase) != Open ==> outbox == old(outbox)
      ensures phase == old(phase) && changes == old(changes) && sent == old(sent)
      ensures productId == old(productId) && step == old(step)
      ensures received == old(received) && flushed == old(flushed)
    {
      var sample := chartTimer.Fire();
      if sample.Some? {
        outbox := outbox + [ChartData(sample.value)];
      }
    }

    /** The effect's cleanup: close the socket and cancel all four debounced
        calls. The `changes` buffer is component state and is left as it is.
        A run that the gate refused registered no cleanup. */
    method Teardown()
      requires Valid()
      modifies this, flushTimer, askTimer, bidTimer, chartTimer
      ensures Valid()
      ensures old(phase) == Connecting || old(phase) == Open ==> phase == Closed && Quiet()
      ensures old(phase) == Idle || old(phase) == Closed ==>
        unchanged(this, flushTimer, askTimer, bidTimer, chartTimer)
      ensures outbox == old(outbox) && sent == old(sent) && changes == old(changes)
      ensures productId == old(productId) && step == old(step)
      ensures received == old(received) && flushed == old(flushed)
    {
      if phase == Idle || phase == Closed {
        return;
      }
      phase := Closed;
      chartTimer.Cancel();
      flushTimer.Cancel();
      askTimer.Cancel();
      bidTimer.Cancel();
    }
  }
}

/** Scenarios that follow from the hook's contracts alone, as a caller sees them. */
module FeedScenarios {
  import opened Feed
  import opened OrderBookFeed
  import SnapshotFold

  /** Three ticker messages before the bid timer expires: one `setLargestBid`
      carrying the last message's bid, and nothing on a second expiry. */
  method TickerBurstEmitsLastBidOnce(t1: Message, t2: Message, t3: Message) returns (emitted: seq<Event>)
    requires t1.Ticker? && t2.Ticker? && t3.Ticker?
    ensures emitted == [LargestBid(Order(t3.bestBid, t3.bestBidSize))]
  {
    var hook := new Hook();
    hook.Start(Some("BTC-USD"), 1);
    hook.OnOpen();
    hook.OnMessage(t1);
    hook.OnMessage(t2);
    hook.OnMessage(t3);
    hook.FireBid();
    hook.FireBid();
    emitted := hook.outbox;
  }

  /** Changes and a ticker arrive, then the effect is torn down: when the
      timers would have expired, nothing is dispatched. */
  method NoEmissionAfterTeardown(cs: seq<Change>, t: Message) returns (emitted: seq<Event>)
    requires t.Ticker?
    ensures emitted == []
  {
    var hook := new Hook();
    hook.Start(Some("BTC-USD"), 1);
    hook.OnOpen();
    hook.OnMessage(L2Update(cs));
    hook.OnMessage(t);
    hook.Teardown();
    hook.FireFlush();
    hook.FireAsk();
    hook.FireBid();
    hook.FireChart();
    hook.OnMessage(L2Update(cs));
    emitted := hook.outbox;
  }

  /** Two l2update messages, then one flush: one `updateOrderBook` with both
      change lists in arrival order; a second expiry dispatches nothing. */
  method BurstFlushesOnceInOrder(c1: seq<Change>, c2: seq<Change>) returns (emitted: seq<Event>)
    ensures emitted == [UpdateOrderBook(c1 + c2)]
  {
    var hook := new Hook();
    hook.Start(Some("BTC-USD"), 1);
    hook.OnOpen();
    hook.OnMessage(L2Update(c1));
    assert hook.changes == c1;
    hook.OnMessage(L2Update(c2));
    hook.FireFlush();
    hook.FireFlush();
    emitted := hook.outbox;
  }

  /** A timer expiring between messages does not disturb what the handler
      captured: a later snapshot is still folded with the step of this run,
      and every received change is accounted for as flushed or buffered. */
  method SnapshotAfterExpiryUsesCapturedStep(t: Message, cs: seq<Change>, bids: seq<Level>, asks: seq<Level>)
    returns (emitted: seq<Event>, ghost received: seq<Change>)
    requires t.Ticker?
    ensures emitted ==
      [LargestBid(Order(t.bestBid, t.bestBidSize)), UpdateOrderBook(cs)] + SnapshotFold.SnapshotEvents(bids, asks, 100)
    ensures received == cs
  {
    var hook := new Hook();
    hook.Start(Some("BTC-USD"), 100);
    hook.OnOpen();
    hook.OnMessage(t);
    hook.FireBid();
    hook.OnMessage(L2Update(cs));
    assert hook.changes == cs && hook.received == cs;
    hook.FireFlush();
    hook.OnMessage(Snapshot(bids, asks));
    emitted, received := hook.outbox, hook.received;
  }

  /** Teardown cancels the flush but keeps the `changes` buffer, so after the
      product id changes, the first flush for the new product also carries the
      changes received for the old one, ahead of its own. */
  method StaleChangesAfterResubscribe(c1: seq<Change>, c2: seq<Change>) returns (emitted: seq<Event>)
    ensures emitted == [UpdateOrderBook(c1 + c2)]
  {
    var hook := new Hook();
    hook.Start(Some("BTC-USD"), 1);
    hook.OnOpen();
    hook.OnMessage(L2Update(c1));
    assert hook.changes == c1;
    hook.Teardown();
    hook.Start(Some("ETH-USD"), 1);
    hook.OnOpen();
    hook.OnMessage(L2Update(c2));
    hook.FireFlush();
    emitted := hook.outbox;
  }

  /** A null or empty product id opens nothing: `onopen` and messages then
      have no effect. */
  method GateRefusesFalsyProduct(id: Option<string>, m: Message) returns (sent: seq<Outgoing>, emitted: seq<Event>)
    requires !Enabled(id)
    ensures sent == [] && emitted == []
  {
    var hook := new Hook();
    hook.Start(id, 1);
    hook.OnOpen();
    hook.OnMessage(m);
    sent, emitted := hook.sent, hook.outbox;
  }

  /** Opening the socket for an enabled product sends exactly one subscribe
      message naming both channels and the product. */
  method SubscribeOnOpen(id: string) returns (sent: seq<Outgoing>)
    requires id != ""
    ensures sent == [Subscribe(["level2_batch", "ticker"], [id])]
  {
    var hook := new Hook();
    hook.Start(Some(id), 1);
    hook.OnOpen();
    hook.OnOpen();
    sent := hook.sent;
  }
}
