/** The swap journal's tables and the transactions on them, each proved to be its step. */
module DexStore {
  import opened Sums
  import opened BrokerBook
  import opened DexBook
  import opened DexAccounting

  predicate Conflicts(o: DexOrder, r: DexRequest) {
    Obstructs(o, r) || (o.strategy == r.strategy && (o.key == r.key || ClashesPending(o, r)))
  }

  /** A confirmed order of the strategy whose context has no settlement. */
  predicate Unsettled(o: DexOrder, sid: StrategyId) {
    o.strategy == sid && o.status.Confirmed? && o.context.fill.None?
  }

  /** What an order must show for the strategy's finances to be complete. */
  predicate OutcomeProved(o: DexOrder) {
    (o.status.Failed? && o.context.noBroadcast) || ((o.status.FeesOnly? || o.status.Confirmed?) && o.context.complete)
  }

  /** On a settled journal no confirmed order lacks its settlement, and proved outcomes of a
      strategy's orders are complete finances. */
  lemma SettledAnswers(b: DexRows, sid: StrategyId)
    requires DexSound(b)
    ensures Settled(b) ==> forall id | id in b.orders :: !Unsettled(b.orders[id], sid)
    ensures Settled(b) && (forall id | id in b.orders && b.orders[id].strategy == sid :: OutcomeProved(b.orders[id]))
            ==> FinanciallyComplete(b, sid)
  {
    forall id | id in b.trades ensures id in b.orders && b.orders[id].strategy == b.trades[id].strategy {
      assert TradeKept(b, id);
    }
    if Settled(b) {
      forall id | id in b.orders && b.orders[id].status.Confirmed? ensures b.orders[id].context.fill.Some? {
        assert Settles(b.orders[id].context, b.trades[id]);
      }
      forall id | id in b.trades && b.trades[id].strategy == sid && OutcomeProved(b.orders[id])
        ensures b.trades[id].complete
      {
        assert Settles(b.orders[id].context, b.trades[id]);
      }
    }
  }

  class SwapJournal {
    var strategies: map<StrategyId, Strategy>
    var orders: map<OrderId, DexOrder>
    var positions: map<PositionId, Position>
    var holdings: map<PositionId, DexHolding>
    var trades: map<OrderId, DexTrade>
    /** What threads have read of an order; the program keeps it in their local variables. */
    ghost var read: map<ReaderId, OrderRead>

    ghost function Rows(): DexRows
      reads this
    {
      DexRows(strategies, orders, positions, holdings, trades, read)
    }

    method Reserve(r: DexRequest) returns (reserved: bool)
      modifies this`orders
      ensures Rows() == DexReserve(old(Rows()), r)
      ensures reserved == DexReservable(old(Rows()), r)
    {
      reserved := false;
      if r.strategy !in strategies || r.position == "" {
        return;
      }
      var s := strategies[r.strategy];
      if r.action.Enter? {
        if r.position in positions || !s.status.Live? || r.revision != Some((s.executionRevision, s.bookRevision)) {
          return;
        }
      } else if !s.status.Live? && s.exitMonitor != Some(LiveMode) {
        return;
      }
      var blocked := Blocked(r);
      if r.legacy || blocked {
        return;
      }
      if r.action.Exit?
         && (r.position !in holdings || holdings[r.position].strategy != r.strategy
            || r.amount > holdings[r.position].quantity) {
        return;
      }
      if r.id in orders {
        return;
      }
      orders := orders[r.id := ReservedOrder(r)];
      reserved := true;
    }

    method Blocked(r: DexRequest) returns (blocked: bool)
      ensures blocked <==> exists j :: j in orders && Conflicts(orders[j], r)
    {
      blocked := false;
      var rest := orders.Keys;
      while rest != {}
        invariant rest <= orders.Keys
        invariant forall j | j in orders && j !in rest :: !Conflicts(orders[j], r)
      {
        var j :| j in rest;
        if Conflicts(orders[j], r) {
          return true;
        }
        rest := rest - {j};
      }
    }

    /** The SELECT that starts an update or a reconciliation. */
    method ReadContext(reader: ReaderId, id: OrderId) returns (context: Option<Context>)
      modifies this`read
      ensures Rows() == DexRead(old(Rows()), reader, id)
      ensures context == if id in orders then Some(orders[id].context) else None
    {
      context := None;
      if id in orders {
        context := Some(orders[id].context);
        read := read[reader := OrderRead(id, orders[id].context)];
      }
    }

    /** The UPDATE: the whole context read before, with the caller's additions. */
    method WriteContext(ghost reader: ReaderId, id: OrderId, context: Context, patch: Patch)
      requires reader in read && read[reader] == OrderRead(id, context)
      modifies this`orders
      ensures Rows() == DexNext(old(Rows()), DexWriteStep(reader, patch))
    {
      if id !in orders || !WritablePatch(patch) {
        return;
      }
      var saved := context;
      if patch.noBroadcast {
        saved := saved.(noBroadcast := true);
      }
      var row := orders[id].(context := saved);
      if !row.status.Confirmed? && patch.status.Some? {
        row := row.(status := patch.status.value);
      }
      if patch.txHash.Some? {
        row := row.(txHash := patch.txHash);
      }
      assert row == Patched(orders[id], context, patch);
      if UnfinishedUnique(orders, id, row) {
        orders := orders[id := row];
      }
    }

    /** An update that nothing comes between. */
    method Update(reader: ReaderId, id: OrderId, patch: Patch)
      modifies this`orders, this`read
      ensures id in old(orders) ==> Rows() == DexNext(DexRead(old(Rows()), reader, id), DexWriteStep(reader, patch))
      ensures id !in old(orders) ==> Rows() == old(Rows())
    {
      var context := ReadContext(reader, id);
      if context.Some? {
        WriteContext(reader, id, context.value, patch);
      }
    }

    method Revise(sid: StrategyId)
      modifies this`strategies
      ensures strategies == BookRevised(old(strategies), sid)
    {
      if sid in strategies {
        strategies := strategies[sid := strategies[sid].(bookRevision := strategies[sid].bookRevision + 1)];
      }
    }

    method RecordFeeOnly(id: OrderId, complete: bool)
      modifies this`orders, this`strategies
      ensures Rows() == FeeOnly(old(Rows()), id, complete)
    {
      if id in orders && !orders[id].status.FeesOnly? {
        var row := orders[id];
        orders := orders[id := row.(status := FeesOnly, context := row.context.(complete := complete))];
        Revise(row.strategy);
      }
    }

    /** Books a verified receipt once; any refusal leaves every table alone. The context it writes is
        the one its reconciler read. */
    method BookFill(id: OrderId, context: Context, swap: Swap, feesKnown: bool) returns (booked: bool)
      modifies this`strategies, this`orders, this`positions, this`holdings, this`trades
      ensures Rows() == ApplyFill(old(Rows()), id, context, swap, feesKnown)
      ensures booked == Fillable(old(Rows()), id, swap)
    {
      booked := false;
      if id !in orders || orders[id].status.Confirmed? {
        return;
      }
      var o := orders[id];
      var p := o.position;
      var buy := o.action.Enter?;
      var qty := if buy then swap.received else swap.spent;
      var held := p in holdings && holdings[p].strategy == o.strategy;
      if (buy && held) || (!buy && (!held || qty > holdings[p].quantity)) {
        return;
      }
      if qty == 0.0 || id in trades || (buy && (p in positions || p in holdings)) {
        return;
      }
      var complete := feesKnown && (buy || holdings[p].complete);
      MoveHolding(id, o, swap, complete);
      orders := orders[id := o.(status := Confirmed, context := context.(fill := Some(swap), complete := complete))];
      Revise(o.strategy);
      booked := true;
    }

    method MoveHolding(id: OrderId, o: DexOrder, swap: Swap, complete: bool)
      requires o.action.Exit? ==> o.position in holdings
      requires Quantity(o.action, swap) != 0.0
      modifies this`trades, this`positions, this`holdings
      ensures trades == old(trades)[id := SwapTrade(old(Rows()), o, swap, complete)]
      ensures holdings == old(holdings)[o.position := SwapHolding(old(Rows()), o, swap, complete)]
      ensures positions == PositionsAfter(old(Rows()), o, SwapHolding(old(Rows()), o, swap, complete).quantity)
    {
      var p := o.position;
      if o.action.Enter? {
        trades := trades[id := DexTrade(o.strategy, o.action, swap, complete, None)];
        positions := positions[p := Position(o.strategy, true)];
        holdings := holdings[p := DexHolding(o.strategy, swap.received, swap.spent / swap.received, complete)];
      } else {
        var pnl := if complete then Some(Profit(holdings[p], swap.spent, swap.received)) else None;
        trades := trades[id := DexTrade(o.strategy, o.action, swap, complete, pnl)];
        var remaining := holdings[p].quantity - swap.spent;
        holdings := holdings[p := holdings[p].(quantity := remaining, complete := complete)];
        if p in positions {
          positions := positions[p := positions[p].(open := remaining != 0.0)];
        }
      }
    }

    /** Cash from confirmed orders, and whether every order's outcome and fees are proved; nothing at
        all when a confirmed order has lost its settlement. On a settled balanced journal it answers,
        and complete cash and holdings make up capital and profit. */
    method CashInputs(sid: StrategyId, capital: real, known: bool) returns (cash: Option<real>, complete: bool)
      requires DexSound(Rows())
      ensures cash.None? <==> exists id :: id in orders && Unsettled(orders[id], sid)
      ensures cash.Some? ==> cash.value == capital + Total(DexFlows(orders, sid))
      ensures cash.Some? ==>
                (complete <==>
                 known && forall id | id in orders && orders[id].strategy == sid :: OutcomeProved(orders[id]))
      ensures Settled(Rows()) ==> cash.Some?
      ensures cash.Some? && complete && Settled(Rows()) && DexBalancedFor(Rows(), sid) ==>
                && FinanciallyComplete(Rows(), sid)
                && cash.value + Total(DexCosts(holdings, sid)) == capital + Total(DexPnls(trades, sid))
    {
      cash, complete := SumCash(sid, capital, known);
      SettledAnswers(Rows(), sid);
    }

    method SumCash(sid: StrategyId, capital: real, known: bool) returns (cash: Option<real>, complete: bool)
      ensures cash.None? <==> exists id :: id in orders && Unsettled(orders[id], sid)
      ensures cash.Some? ==> cash.value == capital + Total(DexFlows(orders, sid))
      ensures cash.Some? ==>
                (complete <==>
                 known && forall id | id in orders && orders[id].strategy == sid :: OutcomeProved(orders[id]))
    {
      var sum := capital;
      complete := known;
      var rest := orders.Keys;
      ghost var column, seen := DexFlows(orders, sid), map[];
      while rest != {}
        invariant rest <= orders.Keys
        invariant seen == map id | id in orders && id !in rest :: column[id]
        invariant sum == capital + Total(seen)
        invariant forall id | id in orders && id !in rest :: !Unsettled(orders[id], sid)
        invariant complete <==>
                  known && forall id | id in orders && id !in rest && orders[id].strategy == sid ::
                    OutcomeProved(orders[id])
      {
        var id :| id in rest;
        var o := orders[id];
        if o.strategy == sid {
          if o.status.Failed? && o.context.noBroadcast {
            // never broadcast: neither cash nor fees
          } else if o.status.FeesOnly? {
            complete := complete && o.context.complete;
          } else if !o.status.Confirmed? {
            complete := false;
          } else {
            complete := complete && o.context.complete;
            if o.context.fill.None? {
              return None, false;
            }
            sum := sum + DexFlow(o);
          }
        }
        TotalSet(seen, id, column[id]);
        seen, rest := seen[id := column[id]], rest - {id};
      }
      assert seen == column;
      cash := Some(sum);
    }
  }
}
