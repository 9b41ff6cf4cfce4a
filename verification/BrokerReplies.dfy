/** What the broker's replies do: the meaning of every word it may report, the whole effect of a reply
    that is accepted, and the honest replies that always are. */
module BrokerReplies {
  import opened Sums
  import opened BrokerBook
  import opened BrokerReservations

  /** No broker will fill it any more. */
  predicate Closed(o: Order) {
    o.status.Filled? || o.status.Canceled? || o.status.Rejected?
  }

  const CANCELED_WORDS: set<string> := {"cancelled", "canceled", "voided", "partially_filled_rest_cancelled"}

  const REJECTED_WORDS: set<string> := {"rejected", "failed"}

  const OPEN_WORDS: set<string> := {"queued", "unconfirmed", "confirmed", "new"}

  const OTHER_WORDS: set<string> := {"filled", "pending_cancelled", "partially_filled"}

  const WORDS: set<string> := OTHER_WORDS + CANCELED_WORDS + REJECTED_WORDS + OPEN_WORDS

  /** What a word makes of an order that was out. An outstanding cancellation hides that the order
      still is. */
  predicate Means(word: string, was: Status, after: Status) {
    && word in WORDS
    && (word == "filled" ==> after.Filled?)
    && (word in CANCELED_WORDS ==> after.Canceled?)
    && (word in REJECTED_WORDS ==> after.Rejected?)
    && (word == "pending_cancelled" ==> after.CancelPending?)
    && (word in OPEN_WORDS ==> if was.CancelPending? then after.CancelPending? else after.Open?)
    && (word == "partially_filled" ==> if was.CancelPending? then after.CancelPending? else after.Partial?)
  }

  /** An accepted reply leaves an order that was out as its word says, and no other word is accepted. */
  lemma ReportedStates(b: Book, id: OrderId, s: Snapshot, asset: AssetClass)
    requires id in b.orders && !Closed(b.orders[id]) && ApplySnapshot(b, id, s, asset).Ok?
    ensures id in ApplySnapshot(b, id, s, asset).value.orders
    ensures Means(s.state, b.orders[id].status, ApplySnapshot(b, id, s, asset).value.orders[id].status)
  {
    var r := Read(s, asset).value;
    ReadStatus(s, asset);
    ReadingStatus(b, id, s, r);
    KnownWords(s.state);
    MeansBehind(s.state, b.orders[id].status, r.status);
  }

  lemma ReadStatus(s: Snapshot, asset: AssetClass)
    requires Read(s, asset).Ok?
    ensures StatusNamed(s.state) == Some(Read(s, asset).value.status)
  {
  }

  lemma ReadingStatus(b: Book, id: OrderId, s: Snapshot, r: Reading)
    requires ApplyReading(b, id, s, r).Ok?
    ensures id in b.orders && id in ApplyReading(b, id, s, r).value.orders
    ensures ApplyReading(b, id, s, r).value.orders[id].status == NextStatus(b.orders[id].status, r.status)
  {
  }

  lemma MeansBehind(word: string, was: Status, named: Status)
    requires Means(word, Submitting, named)
    ensures Means(word, was, NextStatus(was, named))
  {
  }

  /** The words of the vocabulary, and no others, are read, each as one status. */
  lemma KnownWords(word: string)
    ensures StatusNamed(word).Some? <==> word in WORDS
    ensures word in WORDS ==> Means(word, Submitting, StatusNamed(word).value)
  {
  }

  // ---------------------------------------------------------------- the effect of an accepted reply

  function PositionNamed(id: OrderId, o: Order): PositionId {
    if o.intent.positionId == "" then id else o.intent.positionId
  }

  function HeldOf(b: Book, p: PositionId): real {
    if p in b.holdings then b.holdings[p].quantity else 0.0
  }

  /** The order row tells what the reply says, one event is logged, and nothing of another order
      changes. */
  lemma ReplyRow(b: Book, id: OrderId, s: Snapshot, asset: AssetClass)
    requires ApplySnapshot(b, id, s, asset).Ok?
    ensures id in b.orders
    ensures var b' := ApplySnapshot(b, id, s, asset).value;
            && id in b'.orders && b'.orders == b.orders[id := b'.orders[id]]
            && var o, o' := b.orders[id], b'.orders[id];
               && s.cumulative == Number(o'.filled) && o'.brokerId == s.id
               && o.filled <= o'.filled <= o.quantity && o.notional <= o'.notional && o.fees <= o'.fees
               && o' == o.(brokerId := o'.brokerId, status := o'.status, filled := o'.filled, notional := o'.notional,
                           fees := o'.fees)
               && b'.events == b.events + [Event(id, o'.status, o'.filled)]
  {
  }

  /** A reply that brings no new quantity moves no money and no table but the order's and the log. */
  lemma ReplyWithoutFill(b: Book, id: OrderId, s: Snapshot, asset: AssetClass)
    requires ApplySnapshot(b, id, s, asset).Ok?
    ensures var b' := ApplySnapshot(b, id, s, asset).value;
            id in b.orders && id in b'.orders && b'.orders[id].filled == b.orders[id].filled ==>
              && b'.orders[id].notional == b.orders[id].notional && b'.orders[id].fees == b.orders[id].fees
              && b'.positions == b.positions && b'.holdings == b.holdings && b'.trades == b.trades
              && b'.strategies == b.strategies
  {
  }

  /** A reply that brings new quantity books it: the holding moves by it, up for a buy and down for a
      sell, a buy leaves its position open and a sell leaves it open exactly while something remains,
      and one trade of the difference is recorded for the order's own strategy. */
  lemma ReplyWithFill(b: Book, id: OrderId, s: Snapshot, asset: AssetClass)
    requires ApplySnapshot(b, id, s, asset).Ok? && id in b.orders
    requires s.cumulative.Number? && s.cumulative.value != b.orders[id].filled
    ensures var b', o := ApplySnapshot(b, id, s, asset).value, b.orders[id];
            var p, added := PositionNamed(id, o), s.cumulative.value - o.filled;
            && added > 0.0
            && p in b'.positions && p in b'.holdings
            && b'.positions == b.positions[p := b'.positions[p]] && b'.holdings == b.holdings[p := b'.holdings[p]]
            && b'.positions[p].strategy == o.strategy
            && (o.intent.side.Buy? ==>
                  HeldOf(b', p) == HeldOf(b, p) + added && b'.positions[p].open)
            && (o.intent.side.Sell? ==>
                  && HeldOf(b', p) == HeldOf(b, p) - added >= 0.0
                  && (b'.positions[p].open <==> HeldOf(b', p) > 0.0)
                  && p in b.holdings && b'.holdings[p].unitCost == b.holdings[p].unitCost)
    ensures var b', o := ApplySnapshot(b, id, s, asset).value, b.orders[id];
            var key := (id, s.cumulative.value);
            && id in b'.orders && key !in b.trades && key in b'.trades && b'.trades == b.trades[key := b'.trades[key]]
            && var t, o' := b'.trades[key], b'.orders[id];
               && t.strategy == o.strategy && t.positionId == PositionNamed(id, o)
               && t.quantity == o'.filled - o.filled && t.gross == o'.notional - o.notional
               && t.fees == o'.fees - o.fees
               && t.positionId in b'.holdings && (t.pnl.Some? <==> o.intent.side.Sell?)
               && (t.pnl.Some? ==>
                     t.pnl.value == t.gross - t.fees - t.quantity * b'.holdings[t.positionId].unitCost)
  {
    FillNumbers(b, id, s, asset);
    var o, r := b.orders[id], Read(s, asset).value;
    FillTrade(b, id, o, NewPart(o, r), r.quantity);
  }

  lemma FillTrade(b: Book, id: OrderId, o: Order, f: Fill, upTo: real)
    requires f.quantity != 0.0 && FillRefusal(b, id, o, f, upTo).None?
    ensures var b', p := BookFill(b, id, o, f, upTo), PositionNamed(id, o);
            && (id, upTo) !in b.trades && p in b'.holdings
            && (id, upTo) in b'.trades && b'.trades == b.trades[(id, upTo) := b'.trades[(id, upTo)]]
            && var t := b'.trades[(id, upTo)];
               && t.strategy == o.strategy && t.positionId == p
               && t.quantity == f.quantity && t.gross == f.gross && t.fees == f.fees
               && (t.pnl.Some? <==> o.intent.side.Sell?)
               && (t.pnl.Some? ==> t.pnl.value == f.gross - f.fees - f.quantity * b'.holdings[p].unitCost)
  {
    var p := PositionNamed(id, o);
    assert p == PositionOf(id, o);
    var held := HeldAt(b, p, o.strategy);
    assert o.intent.side.Sell? ==> Realized(held, f) == f.gross - f.fees - f.quantity * held.unitCost;
  }

  lemma FillNumbers(b: Book, id: OrderId, s: Snapshot, asset: AssetClass)
    requires ApplySnapshot(b, id, s, asset).Ok? && id in b.orders
    requires s.cumulative.Number? && s.cumulative.value != b.orders[id].filled
    ensures var o, r := b.orders[id], Read(s, asset);
            && r.Ok? && r.value.quantity == s.cumulative.value > o.filled
            && NewPart(o, r.value).quantity > 0.0
            && FillRefusal(b, id, o, NewPart(o, r.value), r.value.quantity).None?
            && ApplySnapshot(b, id, s, asset).value
               == Recorded(BookFill(b, id, o, NewPart(o, r.value), r.value.quantity), id, OrderAfter(o, s, r.value))
  {
  }

  // ---------------------------------------------------------------- honest replies are booked

  /** The reply is about this order. */
  predicate Concerns(s: Snapshot, id: OrderId, o: Order) {
    && s.side == Some(o.intent.side) && (s.symbol.Some? ==> s.symbol.value == o.intent.symbol)
    && (s.refId == "" || s.refId == id || s.refId == o.approvalId)
    && (o.brokerId != "" ==> s.id == o.brokerId)
  }

  /** Cumulative amounts that go on from what the order has: quantity up to its whole, and money only
      with new quantity. */
  predicate GoesOn(o: Order, quantity: real, gross: real, fees: real) {
    && o.filled <= quantity <= o.quantity && o.fees <= fees
    && (if quantity == o.filled then gross == o.notional && fees == o.fees else gross > o.notional)
  }

  /** On a sound book an honest reply about an order that is out is accepted, and the order then tells
      its amounts. */
  lemma HonestReadingBooked(b: Book, id: OrderId, s: Snapshot, r: Reading)
    requires Sound(b) && id in b.orders && !Closed(b.orders[id])
    requires Concerns(s, id, b.orders[id]) && GoesOn(b.orders[id], r.quantity, r.gross, r.fees)
    requires r.status.Filled? ==> r.quantity > 0.0
    ensures ApplyReading(b, id, s, r).Ok?
  {
    var o := b.orders[id];
    var f := NewPart(o, r);
    if f.quantity != 0.0 {
      PendingFillUnblamed(b, id, f);
      PositiveRatio(f.gross, f.quantity);
    }
  }

  lemma PositiveRatio(gross: real, quantity: real)
    requires gross > 0.0 && quantity > 0.0
    ensures gross / quantity > 0.0
  {
  }

  /** An honest reply for an equity order. */
  lemma EquityReplyBooked(b: Book, id: OrderId, s: Snapshot, quantity: real, price: real, fees: real)
    requires Sound(b) && id in b.orders && !Closed(b.orders[id]) && Concerns(s, id, b.orders[id])
    requires s.state in WORDS && (s.state == "filled" ==> quantity > 0.0)
    requires s.cumulative == Number(quantity) && s.averagePrice == Number(price) && quantity >= 0.0 && price > 0.0
    requires fees >= 0.0 && (s.fees == Number(fees) || (s.fees.Absent? && fees == 0.0))
    requires GoesOn(b.orders[id], quantity, quantity * price, fees)
    ensures ApplySnapshot(b, id, s, Equity).Ok?
    ensures id in ApplySnapshot(b, id, s, Equity).value.orders
    ensures var o' := ApplySnapshot(b, id, s, Equity).value.orders[id];
            o'.filled == quantity && o'.notional == quantity * price && o'.fees == fees
  {
    KnownWords(s.state);
    var r := Reading(StatusNamed(s.state).value, quantity, quantity * price, fees);
    EquityRead(s, r.status, quantity, price, fees);
    HonestReadingBooked(b, id, s, r);
    AcceptedAmounts(b, id, s, r);
  }

  lemma EquityRead(s: Snapshot, status: Status, quantity: real, price: real, fees: real)
    requires StatusNamed(s.state) == Some(status)
    requires s.cumulative == Number(quantity) && s.averagePrice == Number(price) && quantity >= 0.0 && price > 0.0
    requires fees >= 0.0 && (s.fees == Number(fees) || (s.fees.Absent? && fees == 0.0))
    ensures Read(s, Equity) == Ok(Reading(status, quantity, quantity * price, fees))
  {
    if quantity == 0.0 {
      NothingTimes(price);
      EquityReadNothing(s, status, fees);
    } else {
      EquityReadSome(s, status, fees);
      SameProduct(s.cumulative.value, s.averagePrice.value, quantity, price);
    }
  }

  lemma EquityReadSome(s: Snapshot, status: Status, fees: real)
    requires StatusNamed(s.state) == Some(status)
    requires s.cumulative.Number? && s.averagePrice.Number? && s.cumulative.value > 0.0 && s.averagePrice.value > 0.0
    requires fees >= 0.0 && (s.fees == Number(fees) || (s.fees.Absent? && fees == 0.0))
    ensures Read(s, Equity)
            == Ok(Reading(status, s.cumulative.value, Product(s.cumulative.value, s.averagePrice.value), fees))
  {
  }

  lemma SameProduct(x: real, y: real, x': real, y': real)
    requires x == x' && y == y'
    ensures x * y == x' * y'
  {
  }

  lemma EquityReadNothing(s: Snapshot, status: Status, fees: real)
    requires StatusNamed(s.state) == Some(status) && s.cumulative == Number(0.0)
    requires fees >= 0.0 && (s.fees == Number(fees) || (s.fees.Absent? && fees == 0.0))
    ensures Read(s, Equity) == Ok(Reading(status, 0.0, 0.0, fees))
  {
  }

  lemma NothingTimes(price: real)
    ensures 0.0 * price == 0.0
  {
  }

  lemma AcceptedAmounts(b: Book, id: OrderId, s: Snapshot, r: Reading)
    requires ApplyReading(b, id, s, r).Ok?
    ensures id in b.orders && id in ApplyReading(b, id, s, r).value.orders
    ensures var o' := ApplyReading(b, id, s, r).value.orders[id];
            o'.filled == r.quantity && o'.notional == r.gross && o'.fees == r.fees
  {
  }

  /** An honest reply for a crypto order: its net notional is what it costs or brings. */
  lemma CryptoReplyBooked(b: Book, id: OrderId, s: Snapshot, quantity: real, gross: real, fees: real)
    requires Sound(b) && id in b.orders && !Closed(b.orders[id]) && Concerns(s, id, b.orders[id])
    requires s.state in WORDS && quantity > 0.0 && fees >= 0.0
    requires s.cumulative == Number(quantity) && s.averagePrice.Number? && s.averagePrice.value > 0.0
    requires s.roundedNotional == Number(gross)
             || (s.roundedNotional.Absent? && gross == quantity * s.averagePrice.value)
    requires s.netNotional == Number(if b.orders[id].intent.side.Buy? then gross + fees else gross - fees)
    requires GoesOn(b.orders[id], quantity, gross, fees)
    ensures ApplySnapshot(b, id, s, Crypto).Ok?
    ensures id in ApplySnapshot(b, id, s, Crypto).value.orders
    ensures var o' := ApplySnapshot(b, id, s, Crypto).value.orders[id];
            o'.filled == quantity && o'.notional == gross && o'.fees == fees
  {
    KnownWords(s.state);
    var r := Reading(StatusNamed(s.state).value, quantity, gross, fees);
    CryptoRead(s, r.status, b.orders[id].intent.side, quantity, gross, fees);
    HonestReadingBooked(b, id, s, r);
    AcceptedAmounts(b, id, s, r);
  }

  lemma CryptoRead(s: Snapshot, status: Status, side: Side, quantity: real, gross: real, fees: real)
    requires StatusNamed(s.state) == Some(status) && s.side == Some(side) && quantity > 0.0 && fees >= 0.0
    requires s.cumulative == Number(quantity) && s.averagePrice.Number? && s.averagePrice.value > 0.0
    requires s.roundedNotional == Number(gross)
             || (s.roundedNotional.Absent? && gross == quantity * s.averagePrice.value)
    requires s.netNotional == Number(if side.Buy? then gross + fees else gross - fees)
    ensures Read(s, Crypto) == Ok(Reading(status, quantity, gross, fees))
  {
  }
}
