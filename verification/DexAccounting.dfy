/** The swap journal under any interleaving of reconcilers, and exactly where `confirmed` and its
    settlement are lost. */
module DexAccounting {
  import opened Sums
  import opened BrokerBook
  import opened DexBook

  // ---------------------------------------------------------------- every interleaving

  predicate HoldingKept(b: DexRows, p: PositionId)
    requires p in b.holdings
  {
    && p in b.positions && b.positions[p].strategy == b.holdings[p].strategy
    && b.holdings[p].quantity >= 0.0 && (b.positions[p].open <==> b.holdings[p].quantity > 0.0)
  }

  predicate TradeKept(b: DexRows, id: OrderId)
    requires id in b.trades
  {
    && id in b.orders && b.orders[id].strategy == b.trades[id].strategy && b.orders[id].action == b.trades[id].action
    && Proven(b.trades[id].swap)
  }

  predicate DexSound(b: DexRows) {
    && (forall p | p in b.holdings :: HoldingKept(b, p))
    && (forall id | id in b.trades :: TradeKept(b, id))
  }

  predicate Extends(later: map<OrderId, DexTrade>, earlier: map<OrderId, DexTrade>) {
    forall id | id in earlier :: id in later && later[id] == earlier[id]
  }

  lemma FillSound(b: DexRows, id: OrderId, context: Context, swap: Swap, feesKnown: bool)
    requires DexSound(b) && Proven(swap)
    ensures DexSound(ApplyFill(b, id, context, swap, feesKnown))
    ensures Extends(ApplyFill(b, id, context, swap, feesKnown).trades, b.trades)
  {
    var b' := ApplyFill(b, id, context, swap, feesKnown);
    if Fillable(b, id, swap) {
      assert b.orders[id].position in b.holdings ==> HoldingKept(b, b.orders[id].position);
      forall p | p in b'.holdings ensures HoldingKept(b', p) {
        assert p in b.holdings ==> HoldingKept(b, p);
      }
      forall j | j in b'.trades ensures TradeKept(b', j) {
        assert j in b.trades ==> TradeKept(b, j);
      }
    }
  }

  lemma StepSound(b: DexRows, step: DexStep)
    requires DexSound(b)
    ensures DexSound(DexNext(b, step)) && Extends(DexNext(b, step).trades, b.trades)
  {
    if step.FillStep? && step.reader in b.read && Proven(step.swap) {
      FillSound(b, b.read[step.reader].id, b.read[step.reader].context, step.swap, step.feesKnown);
    } else {
      OtherStep(b, step);
      var b' := DexNext(b, step);
      forall p | p in b'.holdings ensures HoldingKept(b', p) {
        assert HoldingKept(b, p);
      }
      forall j | j in b'.trades ensures TradeKept(b', j) {
        assert TradeKept(b, j);
      }
    }
  }

  /** Only a fill touches positions, holdings or trades. */
  lemma OtherStep(b: DexRows, step: DexStep)
    requires !(step.FillStep? && step.reader in b.read && Proven(step.swap))
    ensures OnlyOrdersMove(b, DexNext(b, step))
  {
    match step
    case DexReserveStep(r) => ReserveMoves(b, r);
    case DexWriteStep(reader, patch) =>
      if reader in b.read {
        WriteMoves(b, b.read[reader].id, b.read[reader].context, patch);
      }
    case FeeOnlyStep(id, complete) => FeeOnlyMoves(b, id, complete);
    case DexReadStep(_, _) =>
    case FillStep(_, _, _) =>
    case DexCommitStep(_, _) =>
    case DexAllocateStep(_) =>
    case DexLifecycleStep(_, _, _) =>
  }

  lemma ReserveMoves(b: DexRows, r: DexRequest)
    ensures OnlyOrdersMove(b, DexReserve(b, r))
  {
  }

  lemma WriteMoves(b: DexRows, id: OrderId, context: Context, patch: Patch)
    ensures OnlyOrdersMove(b, DexWrite(b, id, context, patch))
  {
  }

  lemma FeeOnlyMoves(b: DexRows, id: OrderId, complete: bool)
    ensures OnlyOrdersMove(b, FeeOnly(b, id, complete))
  {
  }

  predicate OnlyOrdersMove(b: DexRows, b': DexRows) {
    && b'.positions == b.positions && b'.holdings == b.holdings && b'.trades == b.trades
    && forall j | j in b.orders :: j in b'.orders && SameOrder(b.orders[j], b'.orders[j])
  }

  /** The columns an order keeps for life. */
  predicate SameOrder(o: DexOrder, o': DexOrder) {
    && o'.strategy == o.strategy && o'.key == o.key && o'.action == o.action && o'.position == o.position
    && o'.expected == o.expected
  }

  /** However reconcilers interleave, each order's fill is booked at most once and never
      rewritten, and no holding goes negative. */
  lemma {:induction false} FillsBookedOnce(b: DexRows, steps: seq<DexStep>)
    requires DexSound(b)
    ensures DexSound(DexRun(b, steps)) && Extends(DexRun(b, steps).trades, b.trades)
    decreases |steps|
  {
    if steps != [] {
      StepSound(b, steps[0]);
      FillsBookedOnce(DexNext(b, steps[0]), steps[1..]);
    }
  }

  /** Orders of one strategy have different intent keys, and unfinished ones different positions
      and at most one entry among them. */
  predicate OrdersDistinct(b: DexRows) {
    forall i, j | i in b.orders && j in b.orders && i != j && b.orders[i].strategy == b.orders[j].strategy ::
      && b.orders[i].key != b.orders[j].key
      && (Unfinished(b.orders[i].status) && Unfinished(b.orders[j].status) ==>
            && b.orders[i].position != b.orders[j].position
            && !(b.orders[i].action.Enter? && b.orders[j].action.Enter?))
  }

  lemma StepDistinct(b: DexRows, step: DexStep)
    requires OrdersDistinct(b)
    ensures OrdersDistinct(DexNext(b, step))
  {
    match step
    case DexReserveStep(r) => ReserveDistinct(b, r);
    case DexWriteStep(reader, patch) =>
      if reader in b.read {
        WriteDistinct(b, b.read[reader].id, b.read[reader].context, patch);
      }
    case FillStep(reader, swap, feesKnown) =>
      if reader in b.read {
        FillDistinct(b, b.read[reader].id, b.read[reader].context, swap, feesKnown);
      }
    case FeeOnlyStep(id, complete) => FeeOnlyDistinct(b, id, complete);
    case DexReadStep(_, _) =>
    case DexCommitStep(_, _) =>
    case DexAllocateStep(_) =>
    case DexLifecycleStep(_, _, _) =>
  }

  lemma FeeOnlyDistinct(b: DexRows, id: OrderId, complete: bool)
    requires OrdersDistinct(b)
    ensures OrdersDistinct(FeeOnly(b, id, complete))
  {
  }

  lemma ReserveDistinct(b: DexRows, r: DexRequest)
    requires OrdersDistinct(b)
    ensures OrdersDistinct(DexReserve(b, r))
  {
    if DexReservable(b, r) {
      assert forall j | j in b.orders && b.orders[j].strategy == r.strategy ::
          b.orders[j].key != r.key && !ClashesPending(b.orders[j], r);
    }
  }

  lemma WriteDistinct(b: DexRows, id: OrderId, context: Context, patch: Patch)
    requires OrdersDistinct(b)
    ensures OrdersDistinct(DexWrite(b, id, context, patch))
  {
  }

  lemma FillDistinct(b: DexRows, id: OrderId, context: Context, swap: Swap, feesKnown: bool)
    requires OrdersDistinct(b)
    ensures OrdersDistinct(ApplyFill(b, id, context, swap, feesKnown))
  {
  }

  /** However an evaluation is retried, an intent is ordered once, and a strategy never has two
      swaps out for one position or two entries out at all. */
  lemma {:induction false} SwapsOrderedOnce(b: DexRows, steps: seq<DexStep>)
    requires OrdersDistinct(b)
    ensures OrdersDistinct(DexRun(b, steps))
    decreases |steps|
  {
    if steps != [] {
      StepDistinct(b, steps[0]);
      SwapsOrderedOnce(DexNext(b, steps[0]), steps[1..]);
    }
  }

  // ---------------------------------------------------------------- when `confirmed` stands

  predicate SameSettlement(c: Context, c': Context) {
    c'.fill == c.fill && c'.complete == c.complete
  }

  predicate Settles(c: Context, t: DexTrade) {
    c.fill == Some(t.swap) && c.complete == t.complete
  }

  /** An order is confirmed exactly when its fill is booked, and its context then tells that fill
      and its fees. */
  predicate Settled(b: DexRows) {
    forall id | id in b.orders ::
      && (b.orders[id].status.Confirmed? <==> id in b.trades)
      && (id in b.trades ==> Settles(b.orders[id].context, b.trades[id]))
  }

  /** What a step read before is still so where it matters: a fee record meets an order that is not
      confirmed, and a context written back to a confirmed order tells its fill and fees. */
  predicate StepCurrent(b: DexRows, step: DexStep) {
    match step
    case FeeOnlyStep(id, _) => id in b.orders ==> !b.orders[id].status.Confirmed?
    case DexWriteStep(reader, _) => reader in b.read ==> ReadCurrent(b, reader)
    case _ => true
  }

  predicate ReadCurrent(b: DexRows, reader: ReaderId)
    requires reader in b.read
  {
    var id := b.read[reader].id;
    id in b.orders && b.orders[id].status.Confirmed? ==> SameSettlement(b.orders[id].context, b.read[reader].context)
  }

  predicate AllCurrent(b: DexRows, steps: seq<DexStep>)
    decreases |steps|
  {
    steps == [] || (StepCurrent(b, steps[0]) && AllCurrent(DexNext(b, steps[0]), steps[1..]))
  }

  /** A step that writes this order's context: a fill, a fee record or another update. */
  predicate Touches(b: DexRows, step: DexStep, id: OrderId) {
    match step
    case FeeOnlyStep(j, _) => j == id
    case FillStep(reader, _, _) => reader in b.read && b.read[reader].id == id
    case DexWriteStep(reader, _) => reader in b.read && b.read[reader].id == id
    case _ => false
  }

  predicate NoneTouches(b: DexRows, steps: seq<DexStep>, id: OrderId, reader: ReaderId)
    decreases |steps|
  {
    steps == [] ||
    (&& !Touches(b, steps[0], id) && !(steps[0].DexReadStep? && steps[0].reader == reader)
     && NoneTouches(DexNext(b, steps[0]), steps[1..], id, reader))
  }

  lemma UntouchedStep(b: DexRows, step: DexStep, id: OrderId, reader: ReaderId)
    requires reader in b.read && b.read[reader].id == id && id in b.orders
             && b.read[reader].context == b.orders[id].context
    requires !Touches(b, step, id) && !(step.DexReadStep? && step.reader == reader)
    ensures var b' := DexNext(b, step);
            && reader in b'.read && b'.read[reader] == b.read[reader]
            && id in b'.orders && b'.orders[id] == b.orders[id]
  {
  }

  /** A context is current as long as nothing committed to its order since it was read. */
  lemma {:induction false} UntouchedReadIsCurrent(b: DexRows, steps: seq<DexStep>, id: OrderId, reader: ReaderId)
    requires reader in b.read && b.read[reader].id == id && id in b.orders
             && b.read[reader].context == b.orders[id].context
    requires NoneTouches(b, steps, id, reader)
    ensures reader in DexRun(b, steps).read && ReadCurrent(DexRun(b, steps), reader)
    decreases |steps|
  {
    if steps != [] {
      UntouchedStep(b, steps[0], id, reader);
      UntouchedReadIsCurrent(DexNext(b, steps[0]), steps[1..], id, reader);
    }
  }

  predicate ConfirmationsKept(b: DexRows, b': DexRows) {
    forall id | id in b.orders && b.orders[id].status.Confirmed? :: id in b'.orders && b'.orders[id].status.Confirmed?
  }

  /** One order row is rewritten and no trade is booked. */
  lemma RowSettled(b: DexRows, id: OrderId, o: DexOrder, b': DexRows)
    requires Settled(b) && id in b.orders && b'.orders == b.orders[id := o] && b'.trades == b.trades
    requires o.status.Confirmed? <==> b.orders[id].status.Confirmed?
    requires o.status.Confirmed? ==> SameSettlement(b.orders[id].context, o.context)
    ensures Settled(b') && ConfirmationsKept(b, b')
  {
  }

  lemma FillSettled(b: DexRows, id: OrderId, context: Context, swap: Swap, feesKnown: bool)
    requires Settled(b)
    ensures Settled(ApplyFill(b, id, context, swap, feesKnown))
    ensures ConfirmationsKept(b, ApplyFill(b, id, context, swap, feesKnown))
  {
  }

  lemma FeeOnlySettled(b: DexRows, id: OrderId, complete: bool)
    requires Settled(b) && (id in b.orders ==> !b.orders[id].status.Confirmed?)
    ensures var b' := FeeOnly(b, id, complete); Settled(b') && ConfirmationsKept(b, b')
  {
    if id in b.orders && !b.orders[id].status.FeesOnly? {
      var b' := FeeOnly(b, id, complete);
      RowSettled(b, id, b'.orders[id], b');
    }
  }

  lemma WriteSettled(b: DexRows, id: OrderId, context: Context, patch: Patch)
    requires Settled(b)
    requires id in b.orders && b.orders[id].status.Confirmed? ==> SameSettlement(b.orders[id].context, context)
    ensures var b' := DexWrite(b, id, context, patch); Settled(b') && ConfirmationsKept(b, b')
  {
    if Writable(b, id, context, patch) {
      RowSettled(b, id, Patched(b.orders[id], context, patch), DexWrite(b, id, context, patch));
    }
  }

  lemma ReserveSettled(b: DexRows, r: DexRequest)
    requires DexSound(b) && Settled(b)
    ensures var b' := DexReserve(b, r); Settled(b') && ConfirmationsKept(b, b')
  {
    if r.id in b.trades {
      assert TradeKept(b, r.id);
    }
  }

  lemma StepSettled(b: DexRows, step: DexStep)
    requires DexSound(b) && Settled(b) && StepCurrent(b, step)
    ensures Settled(DexNext(b, step)) && ConfirmationsKept(b, DexNext(b, step))
  {
    match step
    case FillStep(reader, swap, feesKnown) =>
      if reader in b.read {
        FillSettled(b, b.read[reader].id, b.read[reader].context, swap, feesKnown);
      }
    case FeeOnlyStep(id, complete) => FeeOnlySettled(b, id, complete);
    case DexWriteStep(reader, patch) =>
      if reader in b.read {
        WriteSettled(b, b.read[reader].id, b.read[reader].context, patch);
      }
    case DexReserveStep(r) => ReserveSettled(b, r);
    case DexReadStep(_, _) =>
    case DexCommitStep(_, _) =>
    case DexAllocateStep(_) =>
    case DexLifecycleStep(_, _, _) =>
  }

  /** Recording fees only checks that they were not recorded before. It keeps confirmations and
      bookings in step exactly when the order was not confirmed in the meantime. */
  lemma FeeOnlySettledExactly(b: DexRows, id: OrderId, complete: bool)
    requires DexSound(b) && Settled(b) && id in b.orders
    ensures Settled(FeeOnly(b, id, complete)) <==> !b.orders[id].status.Confirmed?
  {
    if b.orders[id].status.Confirmed? {
      assert id in FeeOnly(b, id, complete).trades && FeeOnly(b, id, complete).orders[id].status.FeesOnly?;
    } else {
      StepSettled(b, FeeOnlyStep(id, complete));
    }
  }

  /** An update writes back the whole context it read. An accepted one keeps orders settled exactly
      when its order is not confirmed, or the context read tells the order's fill and fees. */
  lemma ContextWriteSettledExactly(b: DexRows, reader: ReaderId, patch: Patch)
    requires DexSound(b) && Settled(b) && reader in b.read
    requires Writable(b, b.read[reader].id, b.read[reader].context, patch)
    ensures Settled(DexNext(b, DexWriteStep(reader, patch))) <==> ReadCurrent(b, reader)
  {
    var id, b' := b.read[reader].id, DexNext(b, DexWriteStep(reader, patch));
    if ReadCurrent(b, reader) {
      StepSettled(b, DexWriteStep(reader, patch));
    } else {
      assert id in b'.trades && Settles(b.orders[id].context, b.trades[id]);
      assert !SameSettlement(b.orders[id].context, b'.orders[id].context);
      assert !Settles(b'.orders[id].context, b'.trades[id]);
    }
  }

  // ---------------------------------------------------------------- the accounting identity

  function DexFlow(o: DexOrder): real {
    if !o.status.Confirmed? || o.context.fill.None? then 0.0
    else if o.action.Enter? then -o.context.fill.value.spent else o.context.fill.value.received
  }

  ghost function DexFlows(orders: map<OrderId, DexOrder>, sid: StrategyId): map<OrderId, real> {
    map id | id in orders :: if orders[id].strategy == sid then DexFlow(orders[id]) else 0.0
  }

  function DexCost(h: DexHolding): real {
    h.quantity * h.unitCost
  }

  ghost function DexCosts(holdings: map<PositionId, DexHolding>, sid: StrategyId): map<PositionId, real> {
    map p | p in holdings :: if holdings[p].strategy == sid then DexCost(holdings[p]) else 0.0
  }

  function DexPnl(t: DexTrade): real {
    if t.pnl.Some? then t.pnl.value else 0.0
  }

  ghost function DexPnls(trades: map<OrderId, DexTrade>, sid: StrategyId): map<OrderId, real> {
    map id | id in trades :: if trades[id].strategy == sid then DexPnl(trades[id]) else 0.0
  }

  predicate FinanciallyComplete(b: DexRows, sid: StrategyId) {
    forall id | id in b.trades && b.trades[id].strategy == sid :: b.trades[id].complete
  }

  ghost predicate DexBalancedFor(b: DexRows, sid: StrategyId) {
    FinanciallyComplete(b, sid) ==>
      Total(DexFlows(b.orders, sid)) + Total(DexCosts(b.holdings, sid)) == Total(DexPnls(b.trades, sid))
  }

  lemma DexFlowsSet(orders: map<OrderId, DexOrder>, id: OrderId, o: DexOrder, sid: StrategyId)
    ensures Total(DexFlows(orders[id := o], sid)) == Total(DexFlows(orders, sid))
              - (if id in orders && orders[id].strategy == sid then DexFlow(orders[id]) else 0.0)
              + (if o.strategy == sid then DexFlow(o) else 0.0)
  {
    var v := if o.strategy == sid then DexFlow(o) else 0.0;
    assert DexFlows(orders[id := o], sid) == DexFlows(orders, sid)[id := v];
    TotalSet(DexFlows(orders, sid), id, v);
  }

  lemma DexCostsSet(holdings: map<PositionId, DexHolding>, p: PositionId, h: DexHolding, sid: StrategyId)
    ensures Total(DexCosts(holdings[p := h], sid)) == Total(DexCosts(holdings, sid))
              - (if p in holdings && holdings[p].strategy == sid then DexCost(holdings[p]) else 0.0)
              + (if h.strategy == sid then DexCost(h) else 0.0)
  {
    var v := if h.strategy == sid then DexCost(h) else 0.0;
    assert DexCosts(holdings[p := h], sid) == DexCosts(holdings, sid)[p := v];
    TotalSet(DexCosts(holdings, sid), p, v);
  }

  lemma DexPnlsSet(trades: map<OrderId, DexTrade>, id: OrderId, t: DexTrade, sid: StrategyId)
    requires id !in trades
    ensures Total(DexPnls(trades[id := t], sid))
            == Total(DexPnls(trades, sid)) + (if t.strategy == sid then DexPnl(t) else 0.0)
  {
    var v := if t.strategy == sid then DexPnl(t) else 0.0;
    assert DexPnls(trades[id := t], sid) == DexPnls(trades, sid)[id := v];
    TotalSet(DexPnls(trades, sid), id, v);
  }

  /** A complete fill moves cash, cost and profit of its own strategy so that they cancel. */
  lemma FillConserves(b: DexRows, id: OrderId, context: Context, swap: Swap, feesKnown: bool)
    requires DexSound(b) && Fillable(b, id, swap) && Proven(swap)
    requires ApplyFill(b, id, context, swap, feesKnown).trades[id].complete
    ensures var o, b' := b.orders[id], ApplyFill(b, id, context, swap, feesKnown);
            var was := if o.position in b.holdings then DexCost(b.holdings[o.position]) else 0.0;
            DexFlow(b'.orders[id]) + DexCost(b'.holdings[o.position]) == was + DexPnl(b'.trades[id])
  {
    var o := b.orders[id];
    var qty, cash := Quantity(o.action, swap), Cash(o.action, swap);
    if o.action.Enter? {
      PriceTimesQuantity(cash, qty);
    } else {
      TakenAtCost(b.holdings[o.position], qty);
    }
  }

  lemma PriceTimesQuantity(cash: real, quantity: real)
    requires quantity != 0.0
    ensures quantity * (cash / quantity) == cash
  {
  }

  lemma TakenAtCost(h: DexHolding, quantity: real)
    ensures (h.quantity - quantity) * h.unitCost == h.quantity * h.unitCost - quantity * h.unitCost
  {
  }

  lemma FillBalances(b: DexRows, id: OrderId, context: Context, swap: Swap, feesKnown: bool, sid: StrategyId)
    requires DexSound(b) && Proven(swap) && DexBalancedFor(b, sid)
    ensures DexBalancedFor(ApplyFill(b, id, context, swap, feesKnown), sid)
  {
    var b' := ApplyFill(b, id, context, swap, feesKnown);
    if Fillable(b, id, swap) && FinanciallyComplete(b', sid) {
      var o := b.orders[id];
      forall j | j in b.trades && b.trades[j].strategy == sid ensures b.trades[j].complete {
        assert j in b'.trades && b'.trades[j] == b.trades[j];
      }
      DexFlowsSet(b.orders, id, b'.orders[id], sid);
      DexCostsSet(b.holdings, o.position, b'.holdings[o.position], sid);
      DexPnlsSet(b.trades, id, b'.trades[id], sid);
      if o.strategy == sid {
        FillConserves(b, id, context, swap, feesKnown);
      }
    }
  }

  /** Rewriting one order that moves no cash keeps the balance. */
  lemma OrderWritten(b: DexRows, id: OrderId, o: DexOrder, b': DexRows, sid: StrategyId)
    requires DexBalancedFor(b, sid) && b'.orders == b.orders[id := o]
    requires b'.holdings == b.holdings && b'.trades == b.trades
    requires if id in b.orders then o.strategy == b.orders[id].strategy && DexFlow(o) == DexFlow(b.orders[id])
             else DexFlow(o) == 0.0
    ensures DexBalancedFor(b', sid)
  {
    DexFlowsSet(b.orders, id, o, sid);
  }

  lemma ReserveBalances(b: DexRows, r: DexRequest, sid: StrategyId)
    requires DexBalancedFor(b, sid)
    ensures DexBalancedFor(DexReserve(b, r), sid)
  {
    if DexReservable(b, r) {
      OrderWritten(b, r.id, ReservedOrder(r), DexReserve(b, r), sid);
    }
  }

  lemma WriteBalances(b: DexRows, id: OrderId, context: Context, patch: Patch, sid: StrategyId)
    requires DexBalancedFor(b, sid)
    requires id in b.orders && b.orders[id].status.Confirmed? ==> SameSettlement(b.orders[id].context, context)
    ensures DexBalancedFor(DexWrite(b, id, context, patch), sid)
  {
    if Writable(b, id, context, patch) {
      OrderWritten(b, id, Patched(b.orders[id], context, patch), DexWrite(b, id, context, patch), sid);
    }
  }

  lemma FeeOnlyBalances(b: DexRows, id: OrderId, complete: bool, sid: StrategyId)
    requires DexBalancedFor(b, sid) && (id in b.orders ==> !b.orders[id].status.Confirmed?)
    ensures DexBalancedFor(FeeOnly(b, id, complete), sid)
  {
    var b' := FeeOnly(b, id, complete);
    if id in b.orders && !b.orders[id].status.FeesOnly? {
      OrderWritten(b, id, b'.orders[id], b', sid);
    }
  }

  lemma StepBalances(b: DexRows, step: DexStep, sid: StrategyId)
    requires DexSound(b) && StepCurrent(b, step) && DexBalancedFor(b, sid)
    ensures DexBalancedFor(DexNext(b, step), sid)
  {
    match step
    case FillStep(reader, swap, feesKnown) =>
      if reader in b.read && Proven(swap) {
        FillBalances(b, b.read[reader].id, b.read[reader].context, swap, feesKnown, sid);
      }
    case DexReserveStep(r) => ReserveBalances(b, r, sid);
    case DexWriteStep(reader, patch) =>
      if reader in b.read {
        WriteBalances(b, b.read[reader].id, b.read[reader].context, patch, sid);
      }
    case FeeOnlyStep(id, complete) => FeeOnlyBalances(b, id, complete, sid);
    case DexReadStep(_, _) =>
    case DexCommitStep(_, _) =>
    case DexAllocateStep(_) =>
    case DexLifecycleStep(_, _, _) =>
  }

  /** While what steps read is still so, `confirmed` stands with its settlement, and as long as
      every fill of a strategy is financially complete its cash and the cost of its holdings make
      up capital and profit. */
  lemma {:induction false} CurrentRunBalances(b: DexRows, steps: seq<DexStep>, sid: StrategyId)
    requires DexSound(b) && Settled(b) && AllCurrent(b, steps) && DexBalancedFor(b, sid)
    ensures var b' := DexRun(b, steps);
            DexSound(b') && Settled(b') && DexBalancedFor(b', sid) && ConfirmationsKept(b, b')
    decreases |steps|
  {
    if steps != [] {
      StepSound(b, steps[0]);
      StepSettled(b, steps[0]);
      StepBalances(b, steps[0], sid);
      CurrentRunBalances(DexNext(b, steps[0]), steps[1..], sid);
    }
  }

  lemma DexFreshBalances(b: DexRows, sid: StrategyId)
    requires DexFresh(b)
    ensures DexSound(b) && Settled(b) && DexBalancedFor(b, sid)
  {
    TotalZero(DexFlows(b.orders, sid));
    TotalZero(DexCosts(b.holdings, sid));
    TotalZero(DexPnls(b.trades, sid));
  }
}
