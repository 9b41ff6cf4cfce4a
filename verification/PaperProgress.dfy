/** What the simulated book does: exactly which fills are booked, what each one moves, and that what was
    bought can be sold. */
module PaperProgress {
  import opened Sums
  import opened BrokerBook
  import opened PaperBook

  /** A funded strategy's cash. */
  ghost function Cash(b: PaperRows, sid: StrategyId): real {
    (if sid in b.capitals then b.capitals[sid] else 0.0) + Moved(b, sid)
  }

  predicate CurrentAt(b: PaperRows, r: PaperIntent) {
    && r.strategy in b.strategies
    && r.revision == (b.strategies[r.strategy].executionRevision, b.strategies[r.strategy].bookRevision)
  }

  /** A fill writes its trade, its position and its key, and advances the book revision once. */
  ghost predicate Written(b: PaperRows, r: PaperIntent, trade: PaperTrade, position: PaperPosition, b': PaperRows)
    requires r.strategy in b.strategies
  {
    && b'.trades == b.trades[r.trade := trade] && b'.positions == b.positions[r.position := position]
    && b'.fills == b.fills[(r.strategy, r.key) := r.trade] && b'.capitals == b.capitals
    && b'.strategies == b.strategies[r.strategy := b.strategies[r.strategy].(bookRevision := r.revision.1 + 1)]
  }

  /** An entry is booked exactly when it buys a positive amount under a new key into a new position that
      its own template announced, its strategy is a current paper strategy without older trades, and
      the cash is enough. */
  lemma EntryFilledExactly(b: PaperRows, r: PaperIntent)
    requires r.action.Enter? && r.trade !in b.trades
    ensures var b' := PaperNext(b, PaperStep.FillStep(r));
            && (r.trade in b'.trades <==>
                  && r.position != "" && r.key != "" && r.side.Buy? && r.quantity > 0.0 && r.price > 0.0
                  && CurrentAt(b, r) && b.strategies[r.strategy].status.Paper?
                  && (r.strategy, r.key) !in b.fills && r.position !in b.positions && r.prospective && !r.legacy
                  && r.strategy in b.capitals && Product(r.quantity, r.price) <= Cash(b, r.strategy))
            && (r.trade !in b'.trades ==> b' == b)
            && (r.trade in b'.trades ==>
                  && CurrentAt(b, r)
                  && Written(b, r, PaperTrade(r.strategy, Enter, r.position, r.key, r.quantity, r.price, None),
                             PaperPosition(r.strategy, r.trade, None, r.quantity, r.price), b')
                  && Cash(b', r.strategy) == Cash(b, r.strategy) - Product(r.quantity, r.price))
  {
    if Fillable(b, r) {
      PaperFlowsSet(b.trades, r.trade, TradeOf(b, r), r.strategy);
    }
  }

  /** An exit is booked exactly when it sells the whole of a position its strategy has open, under a new
      key, at a positive price, and its strategy is a current paper strategy or has its paper exits
      monitored. */
  lemma ExitFilledExactly(b: PaperRows, r: PaperIntent)
    requires PaperSound(b) && r.action.Exit? && r.trade !in b.trades
    ensures var b' := PaperNext(b, PaperStep.FillStep(r));
            && (r.trade in b'.trades <==>
                  && r.position != "" && r.key != "" && r.side.Sell? && r.quantity > 0.0 && r.price > 0.0
                  && CurrentAt(b, r)
                  && (b.strategies[r.strategy].status.Paper?
                      || b.strategies[r.strategy].exitMonitor == Some(PaperMode))
                  && (r.strategy, r.key) !in b.fills
                  && r.position in b.positions && b.positions[r.position].strategy == r.strategy
                  && b.positions[r.position].exit.None? && r.quantity == b.positions[r.position].quantity)
            && (r.trade !in b'.trades ==> b' == b)
  {
    assert r.position in b.positions ==> PositionSound(b, r.position);
  }

  /** A booked exit closes its position, its proceeds are cash, and its profit is the difference of the
      prices. */
  lemma ExitBooked(b: PaperRows, r: PaperIntent)
    requires r.action.Exit? && r.trade !in b.trades && r.trade in PaperNext(b, PaperStep.FillStep(r)).trades
    ensures CurrentAt(b, r) && r.position in b.positions
    ensures var b', was := PaperNext(b, PaperStep.FillStep(r)), b.positions[r.position];
            && Written(b, r, PaperTrade(r.strategy, Exit, r.position, r.key, r.quantity, r.price,
                                        Some(Product(r.quantity, r.price - was.price))),
                       was.(exit := Some(r.trade)), b')
            && Cash(b', r.strategy) == Cash(b, r.strategy) + Product(r.quantity, r.price)
  {
    SaleProfit(b.positions[r.position], r.quantity, r.price);
    PaperFlowsSet(b.trades, r.trade, TradeOf(b, r), r.strategy);
  }

  lemma SaleProfit(p: PaperPosition, quantity: real, price: real)
    ensures Profit(p, quantity, price) == Product(quantity, price - p.price)
  {
  }

  /** A strategy is funded once, by a positive amount: that is its cash, and later funding is ignored. */
  lemma FundedOnce(b: PaperRows, sid: StrategyId, capital: real)
    requires PaperSound(b)
    ensures var b' := PaperNext(b, FundStep(sid, capital));
            if capital > 0.0 && sid !in b.capitals
            then b' == b.(capitals := b.capitals[sid := capital]) && Cash(b', sid) == capital else b' == b
  {
    assert MoneySound(b, sid);
    NothingMoved(b, sid);
  }

  /** An evaluation's revision advances exactly when both of its readings are still current. */
  lemma CommittedExactly(b: PaperRows, sid: StrategyId, revision: (nat, nat))
    requires sid in b.strategies
    ensures var b', s := PaperNext(b, PaperCommitStep(sid, revision)), b.strategies[sid];
            && sid in b'.strategies && b' == b.(strategies := b.strategies[sid := b'.strategies[sid]])
            && b'.strategies[sid] ==
               s.(executionRevision := s.executionRevision
                  + if revision.0 == s.executionRevision && revision.1 == s.bookRevision then 1 else 0)
  {
    assert b.strategies[sid := b.strategies[sid]] == b.strategies;
  }

  /** The sale is on record, its position is closed by it, and this is the cash there is then. */
  ghost predicate SoldAt(b: PaperRows, sell: PaperIntent, cash: real) {
    && sell.trade in b.trades && sell.position in b.positions && b.positions[sell.position].exit == Some(sell.trade)
    && Cash(b, sell.strategy) == cash
  }

  /** Whatever was funded, filled or refused: a position still open can be sold whole at any positive
      price, however its strategy's cash stands, while the strategy runs on paper or has its paper exits
      monitored; and the proceeds are then its cash. */
  lemma EveryPositionCanExit(b: PaperRows, steps: seq<PaperStep>, sell: PaperIntent)
    requires PaperFresh(b)
    requires var now := PaperRun(b, steps);
             && sell.trade !in now.trades && (sell.strategy, sell.key) !in now.fills && CurrentAt(now, sell)
             && (now.strategies[sell.strategy].status.Paper?
                 || now.strategies[sell.strategy].exitMonitor == Some(PaperMode))
             && sell.position in now.positions && now.positions[sell.position].strategy == sell.strategy
             && now.positions[sell.position].exit.None? && sell.quantity == now.positions[sell.position].quantity
    requires sell.action.Exit? && sell.side.Sell? && sell.price > 0.0 && sell.position != "" && sell.key != ""
    ensures var now := PaperRun(b, steps);
            SoldAt(PaperNext(now, PaperStep.FillStep(sell)), sell,
                   Cash(now, sell.strategy) + Product(sell.quantity, sell.price))
  {
    PaperFreshSound(b);
    PaperRunSound(b, steps);
    PositionPositive(PaperRun(b, steps), sell.position);
    ExitFilledExactly(PaperRun(b, steps), sell);
    ExitBooked(PaperRun(b, steps), sell);
  }

  lemma PositionPositive(b: PaperRows, p: PositionId)
    requires PaperSound(b) && p in b.positions
    ensures b.positions[p].quantity > 0.0
  {
    assert PositionSound(b, p);
    assert TradeSound(b, b.positions[p].entry);
  }
}
