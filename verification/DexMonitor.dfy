/** Exit monitoring of strategies whose orders are swaps. */
module DexMonitor {
  import opened Sums
  import opened BrokerBook
  import opened DexBook
  import opened ExitMonitor

  /** What the exit monitor sees of a swap order: whose it is, and whether it is finished. */
  function AsOrder(o: DexOrder): Order {
    Order(o.strategy, o.key, Intent(o.action, if o.action.Enter? then Buy else Sell, "", 0.0, o.position, None), 0.0,
          if Unfinished(o.status) then Submitting else Filled, "", "", 0.0, 0.0, 0.0)
  }

  function AsBook(d: DexRows): Book {
    Book(d.strategies, map id | id in d.orders :: AsOrder(d.orders[id]), d.positions, map[], map[], [])
  }

  predicate MayTrade(s: Strategy) {
    s.status.Live? || s.exitMonitor == Some(LiveMode)
  }

  /** A lifecycle operation reads exposure and writes strategy rows. */
  function DexPerform(d: DexRows, op: Operation): DexRows {
    d.(strategies := Perform(AsBook(d), op).strategies)
  }

  /** The exit monitor's own operations act on swap strategies as on any other. */
  lemma OperationMonitored(d: DexRows, op: Operation)
    requires Monitored(AsBook(d)) && !op.Broker?
    ensures AsBook(DexPerform(d, op)) == Perform(AsBook(d), op)
    ensures Monitored(AsBook(DexPerform(d, op)))
  {
    PerformMonitored(AsBook(d), op);
    OnlyStrategies(AsBook(d), op);
  }

  /** What the reconciler and the executor guarantee inside one tick: what they read of an order is
      still so when they commit, and only an order whose strategy may trade is taken up again. */
  predicate Current(d: DexRows, step: DexStep) {
    match step
    case FillStep(reader, _, _) =>
      reader in d.read && d.read[reader].id in d.orders ==> Unfinished(d.orders[d.read[reader].id].status)
    case DexWriteStep(reader, patch) =>
      reader in d.read && Writable(d, d.read[reader].id, d.read[reader].context, patch) ==>
        TakenUpByTrader(d, d.read[reader].id, d.read[reader].context, patch)
    case DexLifecycleStep(_, _, _) => false
    case _ => true
  }

  /** An update that leaves an order unfinished found it so, or its strategy may trade. */
  predicate TakenUpByTrader(d: DexRows, id: OrderId, context: Context, patch: Patch)
    requires id in d.orders
  {
    var o := d.orders[id];
    Unfinished(Patched(o, context, patch).status) ==>
      Unfinished(o.status) || (o.strategy in d.strategies && MayTrade(d.strategies[o.strategy]))
  }

  /** A fill leaves exposure only where its order was exposure before. */
  lemma FillExposes(d: DexRows, id: OrderId, context: Context, swap: Swap, feesKnown: bool, sid: StrategyId)
    requires OneOwner(d) && id in d.orders && Unfinished(d.orders[id].status)
    requires Exposed(AsBook(ApplyFill(d, id, context, swap, feesKnown)), sid)
    ensures Exposed(AsBook(d), sid)
  {
    assert Pending(AsBook(d).orders[id].status);
    if sid != d.orders[id].strategy {
      FillExposesNoOther(d, id, context, swap, feesKnown, sid);
    }
  }

  /** Another strategy's exposure is what it was. */
  lemma FillExposesNoOther(d: DexRows, id: OrderId, context: Context, swap: Swap, feesKnown: bool, sid: StrategyId)
    requires OneOwner(d) && id in d.orders && sid != d.orders[id].strategy
    requires Exposed(AsBook(ApplyFill(d, id, context, swap, feesKnown)), sid)
    ensures Exposed(AsBook(d), sid)
  {
    var d' := ApplyFill(d, id, context, swap, feesKnown);
    var b, b' := AsBook(d), AsBook(d');
    FillLeavesOthers(d, id, context, swap, feesKnown);
    if p :| p in b'.positions && b'.positions[p].open && b'.positions[p].strategy == sid {
      assert p in b.positions && b.positions[p] == b'.positions[p];
    } else {
      var j :| j in b'.orders && Pending(b'.orders[j].status) && b'.orders[j].strategy == sid;
      assert j in b.orders && b.orders[j] == b'.orders[j];
    }
  }

  /** A fill changes its own order, and a position only of the order's strategy. */
  lemma FillLeavesOthers(d: DexRows, id: OrderId, context: Context, swap: Swap, feesKnown: bool)
    requires OneOwner(d) && id in d.orders
    ensures var d', o := ApplyFill(d, id, context, swap, feesKnown), d.orders[id];
            && (forall p | p in d'.positions ::
                  d'.positions[p].strategy == o.strategy || (p in d.positions && d.positions[p] == d'.positions[p]))
            && d'.orders.Keys == d.orders.Keys && d'.orders[id].strategy == o.strategy
            && (forall j | j in d.orders && j != id :: d'.orders[j] == d.orders[j])
  {
  }

  lemma OrderExposes(d: DexRows, id: OrderId, o: DexOrder, d': DexRows, sid: StrategyId)
    requires d'.orders == d.orders[id := o] && d'.positions == d.positions && Exposed(AsBook(d'), sid)
    ensures Exposed(AsBook(d), sid) || (Unfinished(o.status) && o.strategy == sid)
  {
    var b, b' := AsBook(d), AsBook(d');
    if p :| p in b'.positions && b'.positions[p].open && b'.positions[p].strategy == sid {
      assert p in b.positions && b.positions[p] == b'.positions[p];
    } else {
      var j :| j in b'.orders && Pending(b'.orders[j].status) && b'.orders[j].strategy == sid;
      if j != id {
        assert j in b.orders && b.orders[j] == b'.orders[j];
      }
    }
  }

  /** Positions and the holdings of swaps have the same owner. */
  predicate OneOwner(d: DexRows) {
    forall p | p in d.holdings :: p in d.positions && d.positions[p].strategy == d.holdings[p].strategy
  }

  /** A transaction of the swap journal exposes only a strategy that was exposed or may trade. */
  lemma StepExposes(d: DexRows, step: DexStep, sid: StrategyId)
    requires OneOwner(d) && Current(d, step) && Exposed(AsBook(DexNext(d, step)), sid)
    ensures Exposed(AsBook(d), sid) || (sid in d.strategies && MayTrade(d.strategies[sid]))
  {
    match step
    case FillStep(reader, swap, feesKnown) =>
      if reader in d.read && Proven(swap) && d.read[reader].id in d.orders {
        FillExposes(d, d.read[reader].id, d.read[reader].context, swap, feesKnown, sid);
      }
    case DexReserveStep(r) => ReserveExposesTrader(d, r, sid);
    case DexWriteStep(reader, patch) =>
      if reader in d.read && Writable(d, d.read[reader].id, d.read[reader].context, patch) {
        WriteExposes(d, d.read[reader].id, d.read[reader].context, patch, sid);
      }
    case FeeOnlyStep(id, complete) => FeeOnlyExposes(d, id, complete, sid);
    case DexReadStep(_, _) => SameExposure(AsBook(d), AsBook(DexNext(d, step)), sid);
    case DexCommitStep(_, _) => SameExposure(AsBook(d), AsBook(DexNext(d, step)), sid);
    case DexAllocateStep(_) => SameExposure(AsBook(d), AsBook(DexNext(d, step)), sid);
  }

  lemma ReserveExposesTrader(d: DexRows, r: DexRequest, sid: StrategyId)
    requires Exposed(AsBook(DexReserve(d, r)), sid)
    ensures Exposed(AsBook(d), sid) || (sid in d.strategies && MayTrade(d.strategies[sid]))
  {
    if DexReservable(d, r) {
      OrderExposes(d, r.id, ReservedOrder(r), DexReserve(d, r), sid);
    }
  }

  lemma FeeOnlyExposes(d: DexRows, id: OrderId, complete: bool, sid: StrategyId)
    requires Exposed(AsBook(FeeOnly(d, id, complete)), sid)
    ensures Exposed(AsBook(d), sid)
  {
    var d' := FeeOnly(d, id, complete);
    if id in d.orders && !d.orders[id].status.FeesOnly? {
      OrderExposes(d, id, d'.orders[id], d', sid);
    }
  }

  lemma WriteExposes(d: DexRows, id: OrderId, context: Context, patch: Patch, sid: StrategyId)
    requires Writable(d, id, context, patch) && TakenUpByTrader(d, id, context, patch)
    requires Exposed(AsBook(DexWrite(d, id, context, patch)), sid)
    ensures Exposed(AsBook(d), sid) || (sid in d.strategies && MayTrade(d.strategies[sid]))
  {
    OrderExposes(d, id, Patched(d.orders[id], context, patch), DexWrite(d, id, context, patch), sid);
    if Unfinished(d.orders[id].status) && d.orders[id].strategy == sid {
      assert Pending(AsBook(d).orders[id].status);
    }
  }

  lemma FillColumns(d: DexRows, id: OrderId, context: Context, swap: Swap, feesKnown: bool)
    ensures SameColumns(d.strategies, ApplyFill(d, id, context, swap, feesKnown).strategies)
  {
    if Fillable(d, id, swap) {
      RevisedColumns(d.strategies, d.orders[id].strategy);
    }
  }

  lemma FeeOnlyColumns(d: DexRows, id: OrderId, complete: bool)
    ensures SameColumns(d.strategies, FeeOnly(d, id, complete).strategies)
  {
    if id in d.orders {
      RevisedColumns(d.strategies, d.orders[id].strategy);
    }
  }

  lemma WriteColumns(d: DexRows, id: OrderId, context: Context, patch: Patch)
    ensures DexWrite(d, id, context, patch).strategies == d.strategies
  {
  }

  lemma StepColumns(d: DexRows, step: DexStep)
    requires !step.DexLifecycleStep?
    ensures SameColumns(d.strategies, DexNext(d, step).strategies)
  {
    if step.FillStep? {
      if step.reader in d.read {
        FillColumns(d, d.read[step.reader].id, d.read[step.reader].context, step.swap, step.feesKnown);
      }
    } else if step.FeeOnlyStep? {
      FeeOnlyColumns(d, step.id, step.complete);
    } else if step.DexCommitStep? {
      ExecutionColumns(d.strategies, step.sid);
    } else if step.DexAllocateStep? {
      ExecutionColumns(d.strategies, step.sid);
    } else if step.DexWriteStep? {
      if step.reader in d.read {
        WriteColumns(d, d.read[step.reader].id, d.read[step.reader].context, step.patch);
      }
    } else {
      assert DexNext(d, step).strategies == d.strategies;
    }
  }

  lemma StepOwners(d: DexRows, step: DexStep)
    requires OneOwner(d) && forall id | id in d.orders :: d.orders[id].strategy in d.strategies
    ensures OneOwner(DexNext(d, step))
    ensures forall id | id in DexNext(d, step).orders ::
              DexNext(d, step).orders[id].strategy in DexNext(d, step).strategies
  {
  }

  lemma StepMonitored(d: DexRows, step: DexStep)
    requires OneOwner(d) && Monitored(AsBook(d)) && Current(d, step)
    ensures OneOwner(DexNext(d, step)) && Monitored(AsBook(DexNext(d, step)))
  {
    var d' := DexNext(d, step);
    forall id | id in d.orders ensures d.orders[id].strategy in d.strategies {
      assert AsBook(d).orders[id].strategy in AsBook(d).strategies;
    }
    StepOwners(d, step);
    StepColumns(d, step);
    forall sid | sid in AsBook(d').strategies ensures MonitoredRow(AsBook(d'), sid, AsBook(d').strategies[sid]) {
      assert MonitoredRow(AsBook(d), sid, AsBook(d).strategies[sid]);
      if Exposed(AsBook(d'), sid) {
        StepExposes(d, step, sid);
      }
    }
  }

  datatype Occurrence = Journal(step: DexStep) | Lifecycle(operation: Operation)

  function Handle(d: DexRows, event: Occurrence): DexRows {
    match event
    case Journal(step) => DexNext(d, step)
    case Lifecycle(op) => DexPerform(d, op)
  }

  function HandleAll(d: DexRows, events: seq<Occurrence>): DexRows
    decreases |events|
  {
    if events == [] then d else HandleAll(Handle(d, events[0]), events[1..])
  }

  predicate AllCurrent(d: DexRows, events: seq<Occurrence>)
    decreases |events|
  {
    events == [] ||
    ((match events[0] case Journal(step) => Current(d, step) case Lifecycle(op) => !op.Broker?)
     && AllCurrent(Handle(d, events[0]), events[1..]))
  }

  /** With swaps as with broker orders: after any operations and transactions, cut off after any
      commit, a strategy with an open position or an unfinished order is live or monitored. */
  lemma {:induction false} NoUnmonitoredSwap(d: DexRows, events: seq<Occurrence>, sid: StrategyId)
    requires OneOwner(d) && Monitored(AsBook(d)) && AllCurrent(d, events)
    ensures Monitored(AsBook(HandleAll(d, events)))
    ensures sid in HandleAll(d, events).strategies && Exposed(AsBook(HandleAll(d, events)), sid)
            ==> MayTrade(HandleAll(d, events).strategies[sid])
    decreases |events|
  {
    if events != [] {
      match events[0] {
        case Journal(step) => StepMonitored(d, step);
        case Lifecycle(op) => OperationMonitored(d, op);
      }
      NoUnmonitoredSwap(Handle(d, events[0]), events[1..], sid);
    } else if sid in d.strategies {
      assert MonitoredRow(AsBook(d), sid, AsBook(d).strategies[sid]);
    }
  }

  // ---------------------------------------------------------------- exactly when monitoring is lost

  /** Only this strategy's exposure may have grown; its row is monitored exactly when it may trade or
      is not exposed. */
  lemma MonitoredAfterExactly(d: DexRows, d': DexRows, sid: StrategyId)
    requires OneOwner(d) && Monitored(AsBook(d)) && sid in d.strategies
    requires d'.orders.Keys == d.orders.Keys && forall id | id in d.orders ::
               d'.orders[id].strategy == d.orders[id].strategy
    requires SameColumns(d.strategies, d'.strategies)
    requires forall t | t != sid && Exposed(AsBook(d'), t) :: Exposed(AsBook(d), t)
    ensures Monitored(AsBook(d')) <==> (Exposed(AsBook(d'), sid) ==> MayTrade(d.strategies[sid]))
  {
    var b, b' := AsBook(d), AsBook(d');
    forall id | id in b'.orders ensures b'.orders[id].strategy in b'.strategies {
      assert b.orders[id].strategy in b.strategies;
    }
    assert MonitoredRow(b, sid, b.strategies[sid]);
    if Exposed(b', sid) && !MayTrade(d.strategies[sid]) {
      assert !MonitoredRow(b', sid, b'.strategies[sid]);
    } else {
      forall t | t in b'.strategies ensures MonitoredRow(b', t, b'.strategies[t]) {
        assert MonitoredRow(b, t, b.strategies[t]);
      }
    }
  }

  /** Booking checks only that an order is not confirmed. An entry's fill, whenever it commits,
      keeps its strategy monitored exactly when the strategy may still trade. */
  lemma EntryFillMonitoredExactly(d: DexRows, id: OrderId, context: Context, swap: Swap, feesKnown: bool)
    requires OneOwner(d) && Monitored(AsBook(d)) && Fillable(d, id, swap) && d.orders[id].action.Enter?
    ensures d.orders[id].strategy in d.strategies
    ensures Monitored(AsBook(ApplyFill(d, id, context, swap, feesKnown)))
            <==> MayTrade(d.strategies[d.orders[id].strategy])
  {
    var d' := ApplyFill(d, id, context, swap, feesKnown);
    var sid, p := d.orders[id].strategy, d.orders[id].position;
    assert AsBook(d).orders[id].strategy in AsBook(d).strategies;
    assert AsBook(d').positions[p].open && AsBook(d').positions[p].strategy == sid;
    forall t | t != sid && Exposed(AsBook(d'), t) ensures Exposed(AsBook(d), t) {
      FillExposesNoOther(d, id, context, swap, feesKnown, t);
    }
    FillColumns(d, id, context, swap, feesKnown);
    MonitoredAfterExactly(d, d', sid);
  }

  /** An update protects only a confirmed status. An accepted one keeps monitoring exactly when it
      leaves its order finished, found it unfinished, or its strategy may trade. */
  lemma UpdateMonitoredExactly(d: DexRows, id: OrderId, context: Context, patch: Patch)
    requires OneOwner(d) && Monitored(AsBook(d)) && Writable(d, id, context, patch)
    ensures Monitored(AsBook(DexWrite(d, id, context, patch))) <==> TakenUpByTrader(d, id, context, patch)
  {
    var d' := DexWrite(d, id, context, patch);
    var sid := d.orders[id].strategy;
    assert AsBook(d).orders[id].strategy in AsBook(d).strategies;
    forall t | t != sid && Exposed(AsBook(d'), t) ensures Exposed(AsBook(d), t) {
      OrderExposes(d, id, d'.orders[id], d', t);
    }
    MonitoredAfterExactly(d, d', sid);
    assert MonitoredRow(AsBook(d), sid, AsBook(d).strategies[sid]);
    if Unfinished(d'.orders[id].status) {
      assert Pending(AsBook(d').orders[id].status) && Exposed(AsBook(d'), sid);
      assert Unfinished(d.orders[id].status) ==> Pending(AsBook(d).orders[id].status);
    } else if Exposed(AsBook(d'), sid) {
      OrderExposes(d, id, d'.orders[id], d', sid);
    }
  }
}
