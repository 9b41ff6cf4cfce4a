/** The journal only grows: fills add up to their orders, and what is final stays final. */
module BrokerHistory {
  import opened Sums
  import opened BrokerBook
  import opened BrokerReservations
  import opened BrokerSession
  import BrokerReplies

  // ---------------------------------------------------------------- fills add up

  datatype Column = Quantity | Gross | Fees

  function Entry(t: Trade, c: Column): real {
    match c
    case Quantity => t.quantity
    case Gross => t.gross
    case Fees => t.fees
  }

  function OrderColumn(o: Order, c: Column): real {
    match c
    case Quantity => o.filled
    case Gross => o.notional
    case Fees => o.fees
  }

  ghost function FillsOf(trades: map<FillId, Trade>, id: OrderId, c: Column): map<FillId, real> {
    map k | k in trades :: if k.0 == id then Entry(trades[k], c) else 0.0
  }

  /** An order's quantity, notional and fees are the sums over its trades. */
  ghost predicate AddsUp(b: Book, id: OrderId, c: Column)
    requires id in b.orders
  {
    Total(FillsOf(b.trades, id, c)) == OrderColumn(b.orders[id], c)
  }

  ghost predicate AllAddUp(b: Book) {
    && (forall k | k in b.trades :: k.0 in b.orders)
    && (forall id, c | id in b.orders :: AddsUp(b, id, c))
  }

  lemma FillsSet(trades: map<FillId, Trade>, k: FillId, t: Trade, id: OrderId, c: Column)
    requires k !in trades
    ensures Total(FillsOf(trades[k := t], id, c))
            == Total(FillsOf(trades, id, c)) + (if k.0 == id then Entry(t, c) else 0.0)
  {
    var v := if k.0 == id then Entry(t, c) else 0.0;
    assert FillsOf(trades[k := t], id, c) == FillsOf(trades, id, c)[k := v];
    TotalSet(FillsOf(trades, id, c), k, v);
  }

  lemma SnapshotAddsUp(b: Book, id: OrderId, s: Snapshot, asset: AssetClass, j: OrderId, c: Column)
    requires ApplySnapshot(b, id, s, asset).Ok? && j in b.orders && AddsUp(b, j, c)
    ensures AddsUp(ApplySnapshot(b, id, s, asset).value, j, c)
  {
    var o, r := b.orders[id], Read(s, asset).value;
    var f := NewPart(o, r);
    if f.quantity != 0.0 {
      var t := BookFill(b, id, o, f, r.quantity).trades[(id, r.quantity)];
      assert BookFill(b, id, o, f, r.quantity).trades == b.trades[(id, r.quantity) := t];
      FillsSet(b.trades, (id, r.quantity), t, j, c);
    }
  }

  lemma NoFillsYet(trades: map<FillId, Trade>, id: OrderId, c: Column)
    requires forall k | k in trades :: k.0 != id
    ensures Total(FillsOf(trades, id, c)) == 0.0
  {
    TotalZero(FillsOf(trades, id, c));
  }

  lemma StepAddsUp(b: Book, step: Step)
    requires AllAddUp(b)
    ensures AllAddUp(Next(b, step))
  {
    var b' := Next(b, step);
    if step.SnapshotStep? && ApplySnapshot(b, step.id, step.snapshot, step.asset).Ok? {
      SnapshotTrades(b, step.id, step.snapshot, step.asset);
      forall id, c | id in b'.orders ensures AddsUp(b', id, c) {
        assert AddsUp(b, id, c);
        SnapshotAddsUp(b, step.id, step.snapshot, step.asset, id, c);
      }
    } else {
      OtherStepKeepsFills(b, step);
      forall id, c | id in b'.orders ensures AddsUp(b', id, c) {
        if id in b.orders {
          assert AddsUp(b, id, c);
        } else {
          NoFillsYet(b.trades, id, c);
        }
      }
    }
  }

  lemma SnapshotTrades(b: Book, id: OrderId, s: Snapshot, asset: AssetClass)
    requires ApplySnapshot(b, id, s, asset).Ok?
    ensures var b' := ApplySnapshot(b, id, s, asset).value;
            && b'.orders.Keys == b.orders.Keys
            && (forall k | k in b.trades :: k in b'.trades && b'.trades[k] == b.trades[k])
            && (forall k | k in b'.trades && k !in b.trades :: k.0 == id)
  {
  }

  /** Only a snapshot moves fills; a new order starts without any. */
  lemma OtherStepKeepsFills(b: Book, step: Step)
    requires step.SnapshotStep? ==> ApplySnapshot(b, step.id, step.snapshot, step.asset).Err?
    ensures FillsKept(b, Next(b, step))
  {
    match step
    case ReserveStep(r) => ReserveKeepsFills(b, r);
    case MarkStep(id, status, brokerId, approvalId) => MarkKeepsFills(b, id, status, brokerId, approvalId);
    case SnapshotStep(_, _, _) =>
    case CommitStep(_, _) =>
    case AllocateStep(_) =>
    case LifecycleStep(_, _, _) =>
  }

  lemma ReserveKeepsFills(b: Book, r: Request)
    ensures FillsKept(b, Reserve(b, r))
  {
  }

  lemma MarkKeepsFills(b: Book, id: OrderId, status: Status, brokerId: string, approvalId: string)
    ensures FillsKept(b, Mark(b, id, status, brokerId, approvalId))
  {
  }

  predicate FillsKept(b: Book, b': Book) {
    && b'.trades == b.trades && b'.events == b.events && b'.positions == b.positions && b'.holdings == b.holdings
    && (forall j | j in b.orders :: j in b'.orders && SameFills(b.orders[j], b'.orders[j]))
    && (forall j | j in b'.orders && j !in b.orders ::
          b'.orders[j].filled == 0.0 && b'.orders[j].notional == 0.0 && b'.orders[j].fees == 0.0)
  }

  predicate SameFills(o: Order, o': Order) {
    && o'.strategy == o.strategy && o'.key == o.key && o'.intent == o.intent && o'.quantity == o.quantity
    && o'.filled == o.filled && o'.notional == o.notional && o'.fees == o.fees
  }

  /** After any run, every order's filled quantity, notional and fees are exactly the sums of the
      trades booked for it. */
  lemma {:induction false} FillsAddUp(b: Book, steps: seq<Step>)
    requires AllAddUp(b)
    ensures AllAddUp(Run(b, steps))
    decreases |steps|
  {
    if steps != [] {
      StepAddsUp(b, steps[0]);
      FillsAddUp(Next(b, steps[0]), steps[1..]);
    }
  }

  // ---------------------------------------------------------------- holdings add up

  /** What a trade brought to a position: a sell is the trade with a profit. */
  function Brought(t: Trade, p: PositionId): real {
    if t.positionId != p then 0.0 else if t.pnl.Some? then -t.quantity else t.quantity
  }

  ghost function BroughtTo(trades: map<FillId, Trade>, p: PositionId): map<FillId, real> {
    map k | k in trades :: Brought(trades[k], p)
  }

  /** What is held of every position is what its trades brought, less what they took. */
  ghost predicate HoldingsAddUp(b: Book) {
    forall p :: HoldingAddsUp(b, p)
  }

  ghost predicate HoldingAddsUp(b: Book, p: PositionId) {
    Total(BroughtTo(b.trades, p)) == BrokerReplies.HeldOf(b, p)
  }

  lemma BroughtSet(trades: map<FillId, Trade>, k: FillId, t: Trade, p: PositionId)
    requires k !in trades
    ensures Total(BroughtTo(trades[k := t], p)) == Total(BroughtTo(trades, p)) + Brought(t, p)
  {
    assert BroughtTo(trades[k := t], p) == BroughtTo(trades, p)[k := Brought(t, p)];
    TotalSet(BroughtTo(trades, p), k, Brought(t, p));
  }

  lemma ReplyHoldings(b: Book, id: OrderId, s: Snapshot, asset: AssetClass, p: PositionId)
    requires ApplySnapshot(b, id, s, asset).Ok? && HoldingAddsUp(b, p)
    ensures HoldingAddsUp(ApplySnapshot(b, id, s, asset).value, p)
  {
    var b' := ApplySnapshot(b, id, s, asset).value;
    BrokerReplies.ReplyRow(b, id, s, asset);
    if b'.orders[id].filled == b.orders[id].filled {
      BrokerReplies.ReplyWithoutFill(b, id, s, asset);
    } else {
      BrokerReplies.ReplyWithFill(b, id, s, asset);
      var k := (id, s.cumulative.value);
      BroughtSet(b.trades, k, b'.trades[k], p);
    }
  }

  /** After any run, what is held of every position is exactly what its buys brought less what its sells
      took. */
  lemma {:induction false} HoldingsAreTrades(b: Book, steps: seq<Step>)
    requires HoldingsAddUp(b)
    ensures HoldingsAddUp(Run(b, steps))
    decreases |steps|
  {
    if steps != [] {
      var step, b' := steps[0], Next(b, steps[0]);
      forall p ensures HoldingAddsUp(b', p) {
        assert HoldingAddsUp(b, p);
        if step.SnapshotStep? && ApplySnapshot(b, step.id, step.snapshot, step.asset).Ok? {
          ReplyHoldings(b, step.id, step.snapshot, step.asset, p);
        } else {
          OtherStepKeepsFills(b, step);
        }
      }
      HoldingsAreTrades(b', steps[1..]);
    }
  }

  lemma FreshHoldings(b: Book)
    requires Fresh(b)
    ensures HoldingsAddUp(b)
  {
    forall p ensures HoldingAddsUp(b, p) {
      TotalZero(BroughtTo(b.trades, p));
    }
  }

  // ---------------------------------------------------------------- what is final stays final

  /** What an order keeps, and what of it only grows. */
  predicate OrderExtends(o: Order, o': Order) {
    && o'.strategy == o.strategy && o'.key == o.key && o'.intent == o.intent && o'.quantity == o.quantity
    && o.filled <= o'.filled && o.notional <= o'.notional && o.fees <= o'.fees
    && (o.filled <= o.quantity ==> o'.filled <= o.quantity)
    && (o.brokerId != "" ==> o'.brokerId == o.brokerId)
    && (!Pending(o.status) ==> o'.status == o.status && o'.filled == o.filled)
  }

  predicate Grows(b: Book, b': Book) {
    && (forall id | id in b.orders :: id in b'.orders && OrderExtends(b.orders[id], b'.orders[id]))
    && (forall k | k in b.trades :: k in b'.trades && b'.trades[k] == b.trades[k])
    && (forall p | p in b.positions :: p in b'.positions && (!b.positions[p].open ==> !b'.positions[p].open))
    && b.events <= b'.events
  }

  lemma SnapshotGrows(b: Book, id: OrderId, s: Snapshot, asset: AssetClass)
    requires ApplySnapshot(b, id, s, asset).Ok?
    ensures Grows(b, ApplySnapshot(b, id, s, asset).value)
  {
    SnapshotTrades(b, id, s, asset);
    SnapshotExtends(b, id, s, asset);
    SnapshotPositions(b, id, s, asset);
  }

  lemma SnapshotExtends(b: Book, id: OrderId, s: Snapshot, asset: AssetClass)
    requires ApplySnapshot(b, id, s, asset).Ok?
    ensures var b' := ApplySnapshot(b, id, s, asset).value;
            && OrderExtends(b.orders[id], b'.orders[id])
            && (forall j | j in b.orders && j != id :: b'.orders[j] == b.orders[j])
            && b.events <= b'.events
  {
  }

  /** A closed position is never filled again, by an entry or an exit. */
  lemma SnapshotPositions(b: Book, id: OrderId, s: Snapshot, asset: AssetClass)
    requires ApplySnapshot(b, id, s, asset).Ok?
    ensures forall p | p in b.positions ::
              p in ApplySnapshot(b, id, s, asset).value.positions
              && (!b.positions[p].open ==> ApplySnapshot(b, id, s, asset).value.positions[p] == b.positions[p])
  {
  }

  /** The steps the driver makes: a mark carries no broker identity and meets a pending order. */
  predicate Driven(b: Book, step: Step) {
    step.MarkStep? ==> step.brokerId == "" && step.id in b.orders && Pending(b.orders[step.id].status)
  }

  lemma StepGrows(b: Book, step: Step)
    requires Driven(b, step)
    ensures Grows(b, Next(b, step))
  {
    if step.SnapshotStep? && ApplySnapshot(b, step.id, step.snapshot, step.asset).Ok? {
      SnapshotGrows(b, step.id, step.snapshot, step.asset);
    } else {
      OtherStepKeepsFills(b, step);
      OtherStepKeepsStatus(b, step);
    }
  }

  lemma OtherStepKeepsStatus(b: Book, step: Step)
    requires Driven(b, step) && (step.SnapshotStep? ==> ApplySnapshot(b, step.id, step.snapshot, step.asset).Err?)
    ensures forall j | j in b.orders ::
              j in Next(b, step).orders && Next(b, step).orders[j].brokerId == b.orders[j].brokerId
              && (!Pending(b.orders[j].status) ==> Next(b, step).orders[j].status == b.orders[j].status)
  {
  }

  lemma GrowsThrough(a: Book, b: Book, c: Book)
    requires Grows(a, b) && Grows(b, c)
    ensures Grows(a, c)
  {
    forall id | id in a.orders ensures id in c.orders && OrderExtends(a.orders[id], c.orders[id]) {
      assert OrderExtends(a.orders[id], b.orders[id]) && OrderExtends(b.orders[id], c.orders[id]);
    }
  }

  lemma CallGrows(b: Book, call: Call)
    ensures Grows(b, Handle(b, call))
  {
    var steps := Transactions(b, call);
    if |steps| == 1 {
      assert steps == [steps[0]];
      RunOne(b, steps[0]);
      StepGrows(b, steps[0]);
    } else if |steps| == 2 {
      assert steps == [steps[0], steps[1]];
      RunTwo(b, steps[0], steps[1]);
      StepGrows(b, steps[0]);
      assert steps[0] == ReserveStep(call.request)
             && Next(b, steps[0]).orders[call.request.id] == NewOrder(call.request);
      StepGrows(Next(b, steps[0]), steps[1]);
      GrowsThrough(b, Next(b, steps[0]), Handle(b, call));
    } else {
      assert steps == [];
    }
  }

  /** Whatever the venue answers: an order's intent and broker identity never change, its fills
      never shrink or pass its quantity, a closed order is never altered, a trade is never
      rewritten, a closed position is never reopened, and the event log only grows. */
  lemma {:induction false} JournalOnlyGrows(b: Book, calls: seq<Call>)
    ensures Grows(b, HandleAll(b, calls))
    decreases |calls|
  {
    if calls != [] {
      CallGrows(b, calls[0]);
      JournalOnlyGrows(Handle(b, calls[0]), calls[1..]);
      GrowsThrough(b, Handle(b, calls[0]), HandleAll(b, calls));
    }
  }

  // ---------------------------------------------------------------- one order per intent

  /** A row's key is its intent's, under some evaluation, and no other row of the strategy has it. */
  ghost predicate KeysDistinct(b: Book) {
    && (forall i, j | i in b.orders && j in b.orders && i != j && b.orders[i].strategy == b.orders[j].strategy ::
          b.orders[i].key != b.orders[j].key)
    && (forall i | i in b.orders :: KeyedByIntent(b.orders[i]))
  }

  ghost predicate KeyedByIntent(o: Order) {
    exists evaluation :: o.key == KeyOf(evaluation, o.intent)
  }

  lemma ReserveKeys(b: Book, r: Request)
    requires KeysDistinct(b)
    ensures KeysDistinct(Reserve(b, r))
  {
    if Reservable(b, r) {
      assert NewOrder(r).key == KeyOf(r.evaluation, NewOrder(r).intent);
    }
  }

  lemma StepKeys(b: Book, step: Step)
    requires KeysDistinct(b)
    ensures KeysDistinct(Next(b, step))
  {
    if step.ReserveStep? {
      ReserveKeys(b, step.request);
    } else {
      SameKeys(b, step);
      var b' := Next(b, step);
      forall i | i in b'.orders ensures KeyedByIntent(b'.orders[i]) {
        assert KeyedByIntent(b.orders[i]) && SameIntent(b.orders[i], b'.orders[i]);
      }
    }
  }

  lemma SameKeys(b: Book, step: Step)
    requires !step.ReserveStep?
    ensures Next(b, step).orders.Keys == b.orders.Keys
    ensures forall j | j in b.orders :: SameIntent(b.orders[j], Next(b, step).orders[j])
  {
    match step
    case SnapshotStep(id, s, asset) =>
      if ApplySnapshot(b, id, s, asset).Ok? {
        SnapshotTrades(b, id, s, asset);
        SnapshotExtends(b, id, s, asset);
      }
    case MarkStep(_, _, _, _) =>
    case CommitStep(_, _) =>
    case AllocateStep(_) =>
    case LifecycleStep(_, _, _) =>
  }

  predicate SameIntent(o: Order, o': Order) {
    o'.strategy == o.strategy && o'.key == o.key && o'.intent == o.intent
  }

  lemma {:induction false} RunKeys(b: Book, steps: seq<Step>)
    requires KeysDistinct(b)
    ensures KeysDistinct(Run(b, steps))
    decreases |steps|
  {
    if steps != [] {
      StepKeys(b, steps[0]);
      RunKeys(Next(b, steps[0]), steps[1..]);
    }
  }

  /** In any run from a fresh book, however often an evaluation is retried: two orders of one
      strategy never carry the same engine order on the buying side, and on the selling side only
      for different amounts. */
  lemma EngineOrderPlacedOnce(b: Book, steps: seq<Step>, i: OrderId, j: OrderId)
    requires Fresh(b) && i != j && i in Run(b, steps).orders && j in Run(b, steps).orders
    requires var x, y := Run(b, steps).orders[i], Run(b, steps).orders[j];
             x.strategy == y.strategy && x.intent.engineOrderId.Some?
             && x.intent.engineOrderId == y.intent.engineOrderId
    ensures var x, y := Run(b, steps).orders[i], Run(b, steps).orders[j];
            x.intent.side != y.intent.side || (x.intent.side.Sell? && x.intent.amount != y.intent.amount)
  {
    RunKeys(b, steps);
    var now := Run(b, steps);
    assert KeyedByIntent(now.orders[i]) && KeyedByIntent(now.orders[j]);
    var e :| now.orders[i].key == KeyOf(e, now.orders[i].intent);
    var f :| now.orders[j].key == KeyOf(f, now.orders[j].intent);
    assert now.orders[i].key != now.orders[j].key;
  }

  /** An entry is reserved only when nothing of its strategy is out, an exit only beside orders for
      other positions. */
  lemma ReservedBesides(b: Book, r: Request, j: OrderId)
    requires Sound(b) && Reservable(b, r) && j in b.orders && b.orders[j].strategy == r.strategy
             && Pending(b.orders[j].status)
    ensures r.intent.action.Exit? && b.orders[j].intent.positionId != r.intent.positionId
  {
    assert !Blocks(b.orders[j], r.strategy, r.intent);
    assert OrderSound(b, b.orders[j]);
  }
}
