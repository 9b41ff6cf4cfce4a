/** The book balances after every run, and a fill is booked the same however it is chunked. */
module BrokerAccounting {
  import opened Sums
  import opened BrokerBook

  /** The cash one order has moved so far. */
  function Flow(o: Order): real {
    (if o.intent.side.Buy? then -o.notional else o.notional) - o.fees
  }

  ghost function Flows(orders: map<OrderId, Order>, sid: StrategyId): map<OrderId, real> {
    map id | id in orders :: if orders[id].strategy == sid then Flow(orders[id]) else 0.0
  }

  function CostOf(h: Holding): real {
    h.quantity * h.unitCost
  }

  ghost function Costs(holdings: map<PositionId, Holding>, sid: StrategyId): map<PositionId, real> {
    map p | p in holdings :: if holdings[p].strategy == sid then CostOf(holdings[p]) else 0.0
  }

  function PnlValue(t: Trade): real {
    if t.pnl.Some? then t.pnl.value else 0.0
  }

  ghost function Pnls(trades: map<FillId, Trade>, sid: StrategyId): map<FillId, real> {
    map k | k in trades :: if trades[k].strategy == sid then PnlValue(trades[k]) else 0.0
  }

  ghost function CashMoved(b: Book, sid: StrategyId): real {
    Total(Flows(b.orders, sid))
  }

  ghost function CostHeld(b: Book, sid: StrategyId): real {
    Total(Costs(b.holdings, sid))
  }

  ghost function PnlBooked(b: Book, sid: StrategyId): real {
    Total(Pnls(b.trades, sid))
  }

  /** Cash plus the cost of what is held is capital plus booked profit and loss; the
      strategy's constant capital is on both sides. */
  ghost predicate Balanced(b: Book) {
    forall sid :: BalancedFor(b, sid)
  }

  ghost predicate BalancedFor(b: Book, sid: StrategyId) {
    CashMoved(b, sid) + CostHeld(b, sid) == PnlBooked(b, sid)
  }

  /** Every position has its holding, with the same owner. */
  predicate Paired(b: Book) {
    && b.positions.Keys == b.holdings.Keys
    && forall p | p in b.positions :: b.positions[p].strategy == b.holdings[p].strategy
  }

  lemma FlowsSet(orders: map<OrderId, Order>, id: OrderId, o: Order, sid: StrategyId)
    ensures Total(Flows(orders[id := o], sid)) == Total(Flows(orders, sid))
              - (if id in orders && orders[id].strategy == sid then Flow(orders[id]) else 0.0)
              + (if o.strategy == sid then Flow(o) else 0.0)
  {
    var v := if o.strategy == sid then Flow(o) else 0.0;
    assert Flows(orders[id := o], sid) == Flows(orders, sid)[id := v];
    TotalSet(Flows(orders, sid), id, v);
  }

  lemma CostsSet(holdings: map<PositionId, Holding>, p: PositionId, h: Holding, sid: StrategyId)
    ensures Total(Costs(holdings[p := h], sid)) == Total(Costs(holdings, sid))
              - (if p in holdings && holdings[p].strategy == sid then CostOf(holdings[p]) else 0.0)
              + (if h.strategy == sid then CostOf(h) else 0.0)
  {
    var v := if h.strategy == sid then CostOf(h) else 0.0;
    assert Costs(holdings[p := h], sid) == Costs(holdings, sid)[p := v];
    TotalSet(Costs(holdings, sid), p, v);
  }

  lemma PnlsSet(trades: map<FillId, Trade>, k: FillId, t: Trade, sid: StrategyId)
    requires k !in trades
    ensures Total(Pnls(trades[k := t], sid))
            == Total(Pnls(trades, sid)) + (if t.strategy == sid then PnlValue(t) else 0.0)
  {
    var v := if t.strategy == sid then PnlValue(t) else 0.0;
    assert Pnls(trades[k := t], sid) == Pnls(trades, sid)[k := v];
    TotalSet(Pnls(trades, sid), k, v);
  }

  /** What a fill pays into the cost basis, net of the profit it books: all of its cash. */
  function CashOut(side: Side, f: Fill): real {
    (if side.Buy? then f.gross else -f.gross) + f.fees
  }

  lemma FillConserves(held: Holding, side: Side, f: Fill)
    requires side.Buy? ==> held.quantity + f.quantity != 0.0
    ensures var pnl := PnlOf(held, side, f);
            CostOf(HoldingAfter(held, side, f)) - (if pnl.Some? then pnl.value else 0.0)
            == CostOf(held) + CashOut(side, f)
  {
    if side.Buy? {
      var total := held.quantity + f.quantity;
      var basis := held.quantity * held.unitCost + f.gross + f.fees;
      assert total * (basis / total) == basis;
    } else {
      assert (held.quantity - f.quantity) * held.unitCost == held.quantity * held.unitCost - f.quantity * held.unitCost;
    }
  }

  /** One holding row and one trade row of the same owner change together. */
  lemma RowsMove(holdings: map<PositionId, Holding>, p: PositionId, after: Holding,
                 trades: map<FillId, Trade>, k: FillId, trade: Trade, moved: real, sid: StrategyId)
    requires k !in trades && trade.strategy == after.strategy
    requires p in holdings ==> holdings[p].strategy == after.strategy
    requires CostOf(after) - PnlValue(trade) == (if p in holdings then CostOf(holdings[p]) else 0.0) + moved
    ensures Total(Costs(holdings[p := after], sid)) - Total(Pnls(trades[k := trade], sid)) ==
            Total(Costs(holdings, sid)) - Total(Pnls(trades, sid)) + (if after.strategy == sid then moved else 0.0)
  {
    CostsSet(holdings, p, after, sid);
    PnlsSet(trades, k, trade, sid);
  }

  /** A booked fill moves cost and profit of its own strategy only, by exactly its own cash. */
  lemma BookFillMoves(b: Book, id: OrderId, o: Order, f: Fill, upTo: real, sid: StrategyId)
    requires Paired(b) && f.quantity != 0.0 && FillRefusal(b, id, o, f, upTo).None?
    ensures var b' := BookFill(b, id, o, f, upTo);
            CostHeld(b', sid) - PnlBooked(b', sid) ==
            CostHeld(b, sid) - PnlBooked(b, sid) + (if o.strategy == sid then CashOut(o.intent.side, f) else 0.0)
  {
    var p := PositionOf(id, o);
    var held := HeldAt(b, p, o.strategy);
    FillConserves(held, o.intent.side, f);
    RowsMove(b.holdings, p, HoldingAfter(held, o.intent.side, f), b.trades, (id, upTo),
             Trade(o.strategy, p, f.quantity, f.gross, f.fees, PnlOf(held, o.intent.side, f)),
             CashOut(o.intent.side, f), sid);
  }

  lemma SnapshotBalances(b: Book, id: OrderId, s: Snapshot, asset: AssetClass, sid: StrategyId)
    requires Paired(b) && ApplySnapshot(b, id, s, asset).Ok?
    ensures BalancedFor(b, sid) ==> BalancedFor(ApplySnapshot(b, id, s, asset).value, sid)
  {
    var o, r := b.orders[id], Read(s, asset).value;
    var f := NewPart(o, r);
    FlowsSet(b.orders, id, OrderAfter(o, s, r), sid);
    assert Flow(OrderAfter(o, s, r)) == Flow(o) - CashOut(o.intent.side, f);
    if f.quantity != 0.0 {
      BookFillMoves(b, id, o, f, r.quantity, sid);
    }
  }

  /** What an accepted reply says in cash: a crypto order moves its net notional, never less than
      the notional when buying nor more when selling; an equity order moves quantity times price
      and the fees stated. Quantity and fees are never negative. */
  lemma ReadingIsCash(s: Snapshot, asset: AssetClass)
    requires Read(s, asset).Ok?
    ensures var r := Read(s, asset).value;
            && s.cumulative == Number(r.quantity) && r.quantity >= 0.0 && r.fees >= 0.0
            && (r.quantity == 0.0 ==> asset.Crypto? ==> r.gross == 0.0 && r.fees == 0.0)
            && (asset.Crypto? && r.quantity != 0.0 ==>
                  s.netNotional.Number? &&
                  if s.side == Some(Buy) then r.gross + r.fees == Max(r.gross, s.netNotional.value)
                  else r.gross - r.fees == -Max(-r.gross, -s.netNotional.value))
            && (asset.Equity? && r.quantity != 0.0 ==>
                  s.averagePrice.Number? && r.gross == r.quantity * s.averagePrice.value
                  && (s.fees.Number? ==> r.fees == s.fees.value))
  {
  }

  lemma NextPaired(b: Book, step: Step)
    requires Paired(b)
    ensures Paired(Next(b, step))
  {
  }

  lemma NextBalances(b: Book, step: Step, sid: StrategyId)
    requires Paired(b)
    ensures BalancedFor(b, sid) ==> BalancedFor(Next(b, step), sid)
  {
    match step
    case SnapshotStep(id, s, asset) =>
      if ApplySnapshot(b, id, s, asset).Ok? {
        SnapshotBalances(b, id, s, asset, sid);
      }
    case ReserveStep(r) =>
      FlowsSet(b.orders, r.id, NewOrder(r), sid);
    case MarkStep(id, status, brokerId, approvalId) =>
      if Markable(b, id, status) {
        FlowsSet(b.orders, id, Marked(b.orders[id], status, brokerId, approvalId), sid);
      }
    case CommitStep(_, _) =>
    case AllocateStep(_) =>
    case LifecycleStep(_, _, _) =>
  }

  /** Whatever the broker reports, whatever order the transactions come in, and for every
      strategy at once: cash plus cost held is capital plus booked profit and loss. */
  lemma {:induction false} RunBalances(b: Book, steps: seq<Step>)
    requires Paired(b) && Balanced(b)
    ensures Paired(Run(b, steps)) && Balanced(Run(b, steps))
    decreases |steps|
  {
    if steps != [] {
      NextPaired(b, steps[0]);
      forall sid ensures BalancedFor(Next(b, steps[0]), sid) {
        NextBalances(b, steps[0], sid);
      }
      RunBalances(Next(b, steps[0]), steps[1..]);
    }
  }

  lemma FreshBalances(b: Book)
    requires Fresh(b)
    ensures Paired(b) && Balanced(b)
  {
    forall sid ensures BalancedFor(b, sid) {
      TotalZero(Flows(b.orders, sid));
      TotalZero(Costs(b.holdings, sid));
      TotalZero(Pnls(b.trades, sid));
    }
  }
}
