/** The journal's tables and the transactions that change them, each proved to be its step. */
module BrokerStore {
  import opened Sums
  import opened BrokerBook
  import opened BrokerAccounting
  import opened BrokerReservations

  datatype InputError = UnknownStrategy | NoProvenance | MissingTemplate | NoExactHolding

  /** What an evaluation is given: every figure comes from confirmed fills. */
  datatype Inputs = Inputs(cash: real, accountValue: real, realized: real, referenceCapital: real,
                           held: map<PositionId, Holding>, closed: nat)

  /** The open positions of a strategy. */
  ghost function OpenOf(b: Book, sid: StrategyId): set<PositionId> {
    set p | p in b.positions && b.positions[p].open && b.positions[p].strategy == sid
  }

  /** An order that buys for the position. */
  predicate EntryOf(o: Order, sid: StrategyId, p: PositionId) {
    o.strategy == sid && o.intent.positionId == p && o.intent.side.Buy?
  }

  predicate EntryRecorded(b: Book, sid: StrategyId, p: PositionId) {
    exists id :: id in b.orders && EntryOf(b.orders[id], sid, p)
  }

  lemma PositionsHaveEntries(b: Book, sid: StrategyId)
    requires Sound(b)
    ensures forall p | p in OpenOf(b, sid) :: EntryRecorded(b, sid, p) && p in b.holdings
  {
    forall p | p in OpenOf(b, sid) ensures EntryRecorded(b, sid, p) && p in b.holdings {
      var id :| id in b.orders && BoughtBy(b.orders[id], p, b.positions[p].strategy);
      assert EntryOf(b.orders[id], sid, p);
    }
  }

  /** The closed positions of a strategy that the journal holds exactly. */
  ghost function ClosedOf(b: Book, sid: StrategyId): set<PositionId> {
    set p | p in b.positions && !b.positions[p].open && b.positions[p].strategy == sid && p in b.holdings
  }

  function Value(h: Holding, mark: real): real {
    h.quantity * mark
  }

  ghost function Values(held: map<PositionId, Holding>, mark: real): map<PositionId, real> {
    map p | p in held :: Value(held[p], mark)
  }

  ghost function Quantities(held: map<PositionId, Holding>): map<PositionId, real> {
    map p | p in held :: held[p].quantity
  }

  /** What is held is worth its quantities at the mark. */
  lemma ValuesAre(held: map<PositionId, Holding>, mark: real)
    ensures Total(Values(held, mark)) == Total(Quantities(held)) * mark
  {
    TotalScaled(Quantities(held), Values(held, mark), mark);
  }

  lemma ValuesSet(held: map<PositionId, Holding>, p: PositionId, h: Holding, mark: real)
    requires p !in held
    ensures Total(Values(held[p := h], mark)) == Total(Values(held, mark)) + Value(h, mark)
  {
    assert Values(held[p := h], mark) == Values(held, mark)[p := Value(h, mark)];
    TotalSet(Values(held, mark), p, Value(h, mark));
  }

  class Journal {
    var strategies: map<StrategyId, Strategy>
    var orders: map<OrderId, Order>
    var positions: map<PositionId, Position>
    var holdings: map<PositionId, Holding>
    var trades: map<FillId, Trade>
    var events: seq<Event>

    ghost function Rows(): Book
      reads this
    {
      Book(strategies, orders, positions, holdings, trades, events)
    }

    /** Refusals and integrity errors alike insert nothing. */
    method Reserve(r: Request) returns (reserved: bool)
      modifies this
      ensures Rows() == BrokerBook.Reserve(old(Rows()), r)
      ensures reserved == Reservable(old(Rows()), r)
    {
      reserved := false;
      if r.strategy !in strategies || r.intent.positionId == "" {
        return;
      }
      var active, p := strategies[r.strategy], r.intent.positionId;
      if r.intent.action.Enter? {
        if p in positions && (!positions[p].open || positions[p].strategy != r.strategy) {
          return;
        }
        if !active.status.Live? || r.expected != Some((active.executionRevision, active.bookRevision)) {
          return;
        }
      } else if !active.status.Live? && active.exitMonitor != Some(LiveMode) {
        return;
      }
      var blocked := FindBlocking(r);
      if blocked {
        return;
      }
      if r.intent.action.Exit? {
        if p !in holdings || holdings[p].strategy != r.strategy || p !in positions || !positions[p].open
           || r.quantity > holdings[p].quantity {
          return;
        }
      }
      var known := FindKey(r.strategy, KeyOf(r.evaluation, r.intent));
      if known || !Insertable(orders, r.id, NewOrder(r)) {
        return;
      }
      orders := orders[r.id := NewOrder(r)];
      reserved := true;
    }

    method FindBlocking(r: Request) returns (blocked: bool)
      ensures blocked <==> exists j :: j in orders && Blocks(orders[j], r.strategy, r.intent)
    {
      blocked := false;
      var rest := orders.Keys;
      while rest != {}
        invariant rest <= orders.Keys
        invariant forall j | j in orders && j !in rest :: !Blocks(orders[j], r.strategy, r.intent)
      {
        var j :| j in rest;
        if Blocks(orders[j], r.strategy, r.intent) {
          return true;
        }
        rest := rest - {j};
      }
    }

    method FindKey(sid: StrategyId, key: IntentKey) returns (known: bool)
      ensures known <==> exists j :: j in orders && orders[j].strategy == sid && orders[j].key == key
    {
      known := false;
      var rest := orders.Keys;
      while rest != {}
        invariant rest <= orders.Keys
        invariant forall j | j in orders && j !in rest && orders[j].strategy == sid :: orders[j].key != key
      {
        var j :| j in rest;
        if orders[j].strategy == sid && orders[j].key == key {
          return true;
        }
        rest := rest - {j};
      }
    }

    method Mark(id: OrderId, status: Status, brokerId: string, approvalId: string)
      modifies this`orders
      ensures Rows() == BrokerBook.Mark(old(Rows()), id, status, brokerId, approvalId)
    {
      if id in orders && (Pending(status) ==> PendingUnique(orders, id, orders[id])) {
        var row := orders[id].(status := status);
        if brokerId != "" {
          row := row.(brokerId := brokerId);
        }
        if approvalId != "" {
          row := row.(approvalId := approvalId);
        }
        orders := orders[id := row];
      }
    }

    /** Books a cumulative snapshot in one transaction; a refusal leaves every table alone. */
    method ApplySnapshot(id: OrderId, s: Snapshot, asset: AssetClass) returns (refused: Option<Refusal>)
      modifies this
      ensures var applied := BrokerBook.ApplySnapshot(old(Rows()), id, s, asset);
              if applied.Ok? then refused.None? && Rows() == applied.value
              else refused == Some(applied.error) && Rows() == old(Rows())
    {
      var read := Read(s, asset);
      if read.Err? {
        return Some(read.error);
      }
      if id !in orders {
        return Some(UnknownOrder);
      }
      var o, r := orders[id], read.value;
      refused := FirstRefusal(id, o, s, r);
      if refused.Some? {
        return;
      }
      var f := NewPart(o, r);
      if f.quantity != 0.0 {
        refused := BookNewPart(id, o, f, r.quantity);
        if refused.Some? {
          return;
        }
      } else if f.gross != 0.0 || f.fees != 0.0 {
        return Some(CashRevision);
      }
      var row := OrderAfter(o, s, r);
      orders := orders[id := row];
      events := events + [Event(id, row.status, row.filled)];
    }

    /** Each refusal rolls the transaction back, so the checks may as well all come first. */
    method BookNewPart(id: OrderId, o: Order, f: Fill, upTo: real) returns (refused: Option<Refusal>)
      requires f.quantity != 0.0
      modifies this`trades, this`positions, this`holdings, this`strategies
      ensures refused == FillRefusal(old(Rows()), id, o, f, upTo)
      ensures Rows() == if refused.Some? then old(Rows()) else BookFill(old(Rows()), id, o, f, upTo)
    {
      refused := CheckFill(id, o, f, upTo);
      if refused.None? {
        WriteFill(id, o, f, upTo);
      }
    }

    method CheckFill(id: OrderId, o: Order, f: Fill, upTo: real) returns (refused: Option<Refusal>)
      requires f.quantity != 0.0
      ensures refused == FillRefusal(Rows(), id, o, f, upTo)
    {
      var p := PositionOf(id, o);
      if f.gross / f.quantity <= 0.0 {
        return Some(IncrementalPrice);
      }
      if p in positions && positions[p].strategy != o.strategy {
        return Some(ForeignPosition);
      }
      if p in positions && p !in holdings {
        return Some(NoHolding);
      }
      var held := if p in holdings then holdings[p] else Holding(o.strategy, 0.0, 0.0);
      if o.intent.side.Sell? && (p !in positions || !positions[p].open || held.quantity < f.quantity) {
        return Some(ExitExceedsHolding);
      }
      if (id, upTo) in trades {
        return Some(DuplicateTrade);
      }
      if o.intent.side.Buy? {
        if p in positions && !positions[p].open {
          return Some(EntryOnClosed);
        }
        if held.quantity + f.quantity == 0.0 {
          return Some(ZeroTotal);
        }
      }
      refused := None;
    }

    method WriteFill(id: OrderId, o: Order, f: Fill, upTo: real)
      requires f.quantity != 0.0 && FillRefusal(Rows(), id, o, f, upTo).None?
      modifies this`trades, this`positions, this`holdings, this`strategies
      ensures Rows() == BookFill(old(Rows()), id, o, f, upTo)
    {
      var p := PositionOf(id, o);
      var held := if p in holdings then holdings[p] else Holding(o.strategy, 0.0, 0.0);
      if o.intent.side.Buy? {
        trades := trades[(id, upTo) := Trade(o.strategy, p, f.quantity, f.gross, f.fees, None)];
        if p !in positions {
          positions := positions[p := Position(o.strategy, true)];
        }
        var total := held.quantity + f.quantity;
        var after := held.(quantity := total, unitCost := (held.quantity * held.unitCost + f.gross + f.fees) / total);
        assert after == HoldingAfter(held, Buy, f);
        holdings := holdings[p := after];
      } else {
        var pnl := Realized(held, f);
        trades := trades[(id, upTo) := Trade(o.strategy, p, f.quantity, f.gross, f.fees, Some(pnl))];
        var remaining := held.quantity - f.quantity;
        positions := positions[p := positions[p].(open := remaining != 0.0)];
        holdings := holdings[p := held.(quantity := remaining)];
      }
      AdvanceBook(o.strategy);
      ghost var booked := BookFill(old(Rows()), id, o, f, upTo);
      assert positions == booked.positions && holdings == booked.holdings && trades == booked.trades;
    }

    method AdvanceBook(sid: StrategyId)
      modifies this`strategies
      ensures strategies == BookRevised(old(strategies), sid)
    {
      if sid in strategies {
        strategies := strategies[sid := strategies[sid].(bookRevision := strategies[sid].bookRevision + 1)];
      }
    }

    /** The compare and set at the end of an accepted evaluation. */
    method CommitRisk(sid: StrategyId, revision: (nat, nat)) returns (accepted: bool)
      modifies this`strategies
      ensures accepted == Current(old(Rows()), sid, revision)
      ensures Rows() == BrokerBook.CommitRisk(old(Rows()), sid, revision)
    {
      accepted := sid in strategies && revision == (strategies[sid].executionRevision, strategies[sid].bookRevision);
      if accepted {
        strategies := strategies[sid := strategies[sid].(executionRevision := strategies[sid].executionRevision + 1)];
      }
    }

    /** The revision a first allocation of capital takes away from running evaluations; `recorded`
        tells that the strategy has its capital already. */
    method Allocate(sid: StrategyId, recorded: bool)
      modifies this`strategies
      ensures Rows() == if recorded then old(Rows()) else BrokerBook.Allocate(old(Rows()), sid)
    {
      if recorded {
        return;
      }
      var rest := orders.Keys;
      while rest != {}
        invariant rest <= orders.Keys
        invariant forall j | j in orders && j !in rest :: orders[j].strategy != sid
      {
        var j :| j in rest;
        if orders[j].strategy == sid {
          return;
        }
        rest := rest - {j};
      }
      if sid in strategies {
        strategies := strategies[sid := strategies[sid].(executionRevision := strategies[sid].executionRevision + 1)];
      }
    }

    /** Cash, value and profit rebuilt from the journal; `templated` are the positions a template
        is stored for. On a sound and balanced book this fails only for want of a template, and
        cash plus the cost of what is held is capital plus realized profit. */
    method ExecutionInputs(sid: StrategyId, mark: real, templated: set<PositionId>)
      returns (result: Result<Inputs, InputError>)
      ensures result.Ok? ==>
                && sid in strategies
                && result.value.cash == strategies[sid].capital + CashMoved(Rows(), sid)
                && result.value.accountValue == result.value.cash + Total(Values(result.value.held, mark))
                && result.value.realized == PnlBooked(Rows(), sid)
                && result.value.referenceCapital == strategies[sid].capital
                && result.value.held == (map p | p in OpenOf(Rows(), sid) && p in holdings :: holdings[p])
                && result.value.held.Keys == OpenOf(Rows(), sid)
                && result.value.closed == |ClosedOf(Rows(), sid)|
      ensures sid in strategies && Sound(Rows()) ==> (result.Ok? <==> OpenOf(Rows(), sid) <= templated)
      ensures result.Ok? && Balanced(Rows()) ==>
                result.value.cash + CostHeld(Rows(), sid) == result.value.referenceCapital + result.value.realized
    {
      if sid !in strategies {
        return Err(UnknownStrategy);
      }
      var moved := SumFlows(sid);
      if Sound(Rows()) {
        PositionsHaveEntries(Rows(), sid);
      }
      var held, value, error := OpenHoldings(sid, mark, templated);
      if error.Some? {
        return Err(error.value);
      }
      var realized := SumPnls(sid);
      var closed := CountClosed(sid);
      var capital := strategies[sid].capital;
      assert Balanced(Rows()) ==> BalancedFor(Rows(), sid);
      return Ok(Inputs(capital + moved, capital + moved + value, realized, capital, held, closed));
    }

    method CountClosed(sid: StrategyId) returns (closed: nat)
      ensures closed == |ClosedOf(Rows(), sid)|
    {
      closed := 0;
      var rest := positions.Keys;
      ghost var all, seen := ClosedOf(Rows(), sid), {};
      while rest != {}
        invariant rest <= positions.Keys
        invariant seen == all - rest && closed == |seen|
      {
        var p :| p in rest;
        if !positions[p].open && positions[p].strategy == sid && p in holdings {
          closed := closed + 1;
          seen := seen + {p};
        }
        rest := rest - {p};
      }
      assert seen == all;
    }

    method SumFlows(sid: StrategyId) returns (cash: real)
      ensures cash == CashMoved(Rows(), sid)
    {
      cash := 0.0;
      var rest := orders.Keys;
      ghost var done: map<OrderId, real> := map[];
      while rest != {}
        invariant rest <= orders.Keys
        invariant done == map id | id in orders && id !in rest :: Flows(orders, sid)[id]
        invariant cash == Total(done)
      {
        var id :| id in rest;
        if orders[id].strategy == sid {
          var o := orders[id];
          cash := cash + (if o.intent.side.Buy? then -o.notional else o.notional) - o.fees;
        }
        TotalSet(done, id, Flows(orders, sid)[id]);
        done := done[id := Flows(orders, sid)[id]];
        rest := rest - {id};
      }
      assert done == Flows(orders, sid);
    }

    method SumPnls(sid: StrategyId) returns (realized: real)
      ensures realized == PnlBooked(Rows(), sid)
    {
      realized := 0.0;
      var rest := trades.Keys;
      ghost var done: map<FillId, real> := map[];
      while rest != {}
        invariant rest <= trades.Keys
        invariant done == map k | k in trades && k !in rest :: Pnls(trades, sid)[k]
        invariant realized == Total(done)
      {
        var k :| k in rest;
        if trades[k].strategy == sid && trades[k].pnl.Some? {
          realized := realized + trades[k].pnl.value;
        }
        TotalSet(done, k, Pnls(trades, sid)[k]);
        done := done[k := Pnls(trades, sid)[k]];
        rest := rest - {k};
      }
      assert done == Pnls(trades, sid);
    }

    /** Every open position of the strategy with its exact holding, and their value. */
    method OpenHoldings(sid: StrategyId, mark: real, templated: set<PositionId>)
      returns (held: map<PositionId, Holding>, value: real, error: Option<InputError>)
      ensures error.None? ==>
                && OpenOf(Rows(), sid) <= templated
                && held == (map p | p in OpenOf(Rows(), sid) && p in holdings :: holdings[p])
                && held.Keys == OpenOf(Rows(), sid)
                && value == Total(Values(held, mark))
      ensures (forall p | p in OpenOf(Rows(), sid) ::
                EntryRecorded(Rows(), sid, p) && p in holdings && p in templated) ==>
                error.None?
    {
      held, value, error := map[], 0.0, None;
      var rest := positions.Keys;
      while rest != {}
        invariant rest <= positions.Keys
        invariant held == map p | p in OpenOf(Rows(), sid) && p in holdings && p !in rest :: holdings[p]
        invariant held.Keys == OpenOf(Rows(), sid) - rest <= templated
        invariant value == Total(Values(held, mark))
      {
        var p :| p in rest;
        if positions[p].open && positions[p].strategy == sid {
          var bought := FindEntry(sid, p);
          if !bought {
            return held, value, Some(NoProvenance);
          }
          if p !in templated {
            return held, value, Some(MissingTemplate);
          }
          if p !in holdings {
            return held, value, Some(NoExactHolding);
          }
          value := value + Value(holdings[p], mark);
          ValuesSet(held, p, holdings[p], mark);
          held := held[p := holdings[p]];
        }
        rest := rest - {p};
      }
    }

    method FindEntry(sid: StrategyId, p: PositionId) returns (bought: bool)
      ensures bought <==> EntryRecorded(Rows(), sid, p)
    {
      bought := false;
      var rest := orders.Keys;
      while rest != {}
        invariant rest <= orders.Keys
        invariant forall id | id in orders && id !in rest :: !EntryOf(orders[id], sid, p)
      {
        var id :| id in rest;
        if EntryOf(orders[id], sid, p) {
          return true;
        }
        rest := rest - {id};
      }
    }
  }
}
