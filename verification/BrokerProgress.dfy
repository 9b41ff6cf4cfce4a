/** What is permitted is done: exactly which intents are reserved, that a fresh evaluation is accepted,
    and that a monitored position finds its way out. */
module BrokerProgress {
  import opened Sums
  import opened BrokerBook
  import opened BrokerAccounting
  import opened BrokerReservations
  import opened BrokerReplies
  import opened ExitMonitor
  import RevisionFence

  // ---------------------------------------------------------------- exactly what is reserved

  /** No order of the strategy on this position is out. */
  predicate QuietAt(b: Book, sid: StrategyId, p: PositionId) {
    forall j | j in b.orders && b.orders[j].strategy == sid && b.orders[j].intent.positionId == p :: Closed(b.orders[j])
  }

  /** No order of the strategy is out. */
  predicate Quiet(b: Book, sid: StrategyId) {
    forall j | j in b.orders && b.orders[j].strategy == sid :: Closed(b.orders[j])
  }

  predicate NewKey(b: Book, r: Request) {
    forall j | j in b.orders && b.orders[j].strategy == r.strategy :: b.orders[j].key != KeyOf(r.evaluation, r.intent)
  }

  /** Two intents have one key exactly when they carry the same engine order, or neither carries one
      and they come from the same evaluation for the same position and action; and they sell the same
      amount or neither sells. */
  lemma SameKeyExactly(evaluation: string, intent: Intent, other: string, intent': Intent)
    ensures KeyOf(evaluation, intent) == KeyOf(other, intent') <==>
            && intent.engineOrderId == intent'.engineOrderId
            && (intent.engineOrderId.None? ==>
                  evaluation == other && intent.positionId == intent'.positionId && intent.action == intent'.action)
            && intent.side == intent'.side && (intent.side.Sell? ==> intent.amount == intent'.amount)
  {
  }

  /** The row of a reservation: the intent as it came, nothing filled, no broker yet. */
  predicate ReservedRow(b: Book, r: Request, b': Book) {
    && r.id in b'.orders && b' == b.(orders := b.orders[r.id := b'.orders[r.id]])
    && var o := b'.orders[r.id];
       && o.strategy == r.strategy && o.intent == r.intent && o.quantity == r.quantity && o.status.Submitting?
       && o.key == KeyOf(r.evaluation, r.intent) && o.brokerId == "" && o.approvalId == ""
       && o.filled == 0.0 && o.notional == 0.0 && o.fees == 0.0
  }

  /** On a sound book an exit is reserved exactly when its strategy is live or has its exits monitored,
      it takes no more than the strategy's own open holding of the position, nothing is out on that
      position, and the intent was not ordered before. */
  lemma ExitReservedExactly(b: Book, r: Request)
    requires Sound(b) && r.intent.action.Exit? && r.intent.side.Sell? && r.id !in b.orders
    ensures r.id in Reserve(b, r).orders <==>
            && r.strategy in b.strategies
            && (b.strategies[r.strategy].status.Live? || b.strategies[r.strategy].exitMonitor == Some(LiveMode))
            && r.intent.positionId in b.positions
            && b.positions[r.intent.positionId] == Position(r.strategy, true)
            && r.quantity <= HeldOf(b, r.intent.positionId)
            && QuietAt(b, r.strategy, r.intent.positionId) && NewKey(b, r)
    ensures r.id in Reserve(b, r).orders ==> ReservedRow(b, r, Reserve(b, r))
    ensures r.id !in Reserve(b, r).orders ==> Reserve(b, r) == b
  {
    var p := r.intent.positionId;
    if p in b.positions {
      NamedPositions(b, p);
    }
    NamedOrders(b);
  }

  /** On a sound book an entry is reserved exactly when its strategy is live, its evaluation is current,
      its position is new or an open one of the strategy, nothing of the strategy is out, and the intent
      was not ordered before. */
  lemma EntryReservedExactly(b: Book, r: Request)
    requires Sound(b) && r.intent.action.Enter? && r.intent.side.Buy? && r.id !in b.orders
    ensures r.id in Reserve(b, r).orders <==>
            && r.strategy in b.strategies && r.intent.positionId != ""
            && b.strategies[r.strategy].status.Live?
            && r.expected == Some((b.strategies[r.strategy].executionRevision, b.strategies[r.strategy].bookRevision))
            && (r.intent.positionId in b.positions ==>
                  b.positions[r.intent.positionId] == Position(r.strategy, true))
            && Quiet(b, r.strategy) && NewKey(b, r)
    ensures r.id in Reserve(b, r).orders ==> ReservedRow(b, r, Reserve(b, r))
    ensures r.id !in Reserve(b, r).orders ==> Reserve(b, r) == b
  {
    NamedOrders(b);
  }

  lemma NamedOrders(b: Book)
    requires Sound(b)
    ensures forall j | j in b.orders :: b.orders[j].intent.positionId != "" && b.orders[j].strategy in b.strategies
  {
    forall j | j in b.orders ensures b.orders[j].intent.positionId != "" && b.orders[j].strategy in b.strategies {
      assert OrderSound(b, b.orders[j]);
    }
  }

  lemma NamedPositions(b: Book, p: PositionId)
    requires Sound(b) && p in b.positions
    ensures p != "" && b.positions[p].strategy in b.strategies
    ensures p in b.holdings && b.holdings[p].strategy == b.positions[p].strategy
    ensures b.positions[p].open <==> HeldOf(b, p) > 0.0
  {
    assert HoldingSound(b, p) && Provenance(b, p);
    var id :| id in b.orders && BoughtBy(b.orders[id], p, b.positions[p].strategy);
    assert OrderSound(b, b.orders[id]);
  }

  // ---------------------------------------------------------------- marks

  /** On a sound book a mark of an order that is out takes effect: the status given, the identities
      given, and nothing else. */
  lemma MarkTakesEffect(b: Book, id: OrderId, status: Status, brokerId: string, approvalId: string)
    requires Sound(b) && id in b.orders && !Closed(b.orders[id])
    ensures var b', o := Mark(b, id, status, brokerId, approvalId), b.orders[id];
            b' == b.(orders := b.orders[id := o.(status := status,
                                                 brokerId := if brokerId != "" then brokerId else o.brokerId,
                                                 approvalId := if approvalId != "" then approvalId else o.approvalId)])
  {
    assert PendingUnique(b.orders, id, b.orders[id]);
  }

  // ---------------------------------------------------------------- revisions

  /** An evaluation is accepted when nothing of its strategy was booked, committed or allocated since it
      read its revision, whatever else ran; and the revision then advances by one. */
  lemma FreshEvaluationAccepted(b: Book, steps: seq<Step>, sid: StrategyId)
    requires sid in b.strategies && RevisionFence.FillsBooked(b, steps, sid) == 0
    requires RevisionFence.RisksCommitted(b, steps, sid) == 0 && RevisionFence.Allocations(b, steps, sid) == 0
    ensures var s, now := b.strategies[sid], Run(b, steps);
            && sid in now.strategies && now.strategies[sid].bookRevision == s.bookRevision
            && CommitRisk(now, sid, (s.executionRevision, s.bookRevision)) ==
               now.(strategies :=
                 now.strategies[sid := now.strategies[sid].(executionRevision := s.executionRevision + 1)])
  {
    RevisionFence.UncountedKeeps(b, steps, sid);
    CurrentIsAccepted(Run(b, steps), sid);
  }

  lemma CurrentIsAccepted(b: Book, sid: StrategyId)
    requires sid in b.strategies
    ensures var s := b.strategies[sid];
            CommitRisk(b, sid, (s.executionRevision, s.bookRevision))
            == b.(strategies := b.strategies[sid := s.(executionRevision := s.executionRevision + 1)])
  {
  }

  /** And its entry is then reserved, if its strategy is live with nothing out and the position and the
      intent are new. */
  lemma FreshEntryReserved(b: Book, steps: seq<Step>, r: Request)
    requires r.strategy in b.strategies && RevisionFence.FillsBooked(b, steps, r.strategy) == 0
    requires RevisionFence.RisksCommitted(b, steps, r.strategy) == 0
    requires RevisionFence.Allocations(b, steps, r.strategy) == 0
    requires var s, now := b.strategies[r.strategy], Run(b, steps);
             && Sound(now) && Quiet(now, r.strategy) && NewKey(now, r) && r.id !in now.orders
             && (r.strategy in now.strategies ==> now.strategies[r.strategy].status.Live?)
             && r.intent.action.Enter? && r.intent.side.Buy?
             && r.intent.positionId != "" && r.intent.positionId !in now.positions
             && r.expected == Some((s.executionRevision + 1, s.bookRevision))
    ensures var s := b.strategies[r.strategy];
            var committed := CommitRisk(Run(b, steps), r.strategy, (s.executionRevision, s.bookRevision));
            ReservedRow(committed, r, Reserve(committed, r))
  {
    var s, now := b.strategies[r.strategy], Run(b, steps);
    var committed := CommitRisk(now, r.strategy, (s.executionRevision, s.bookRevision));
    FreshEvaluationAccepted(b, steps, r.strategy);
    StrategiesSound(now, committed);
    EntryReservedExactly(committed, r);
  }

  /** The first allocation of a strategy without orders advances its execution revision, and a strategy
      with orders keeps it. */
  lemma FirstAllocationRevises(b: Book, sid: StrategyId)
    requires sid in b.strategies
    ensures sid in Allocate(b, sid).strategies
    ensures Allocate(b, sid).strategies[sid].executionRevision
            == b.strategies[sid].executionRevision
               + if (exists j :: j in b.orders && b.orders[j].strategy == sid) then 0 else 1
  {
  }

  // ---------------------------------------------------------------- the way out

  /** What the callers of operations and transactions keep. */
  predicate AllKept(b: Book, ops: seq<Operation>)
    decreases |ops|
  {
    ops == []
    || (&& WellCalled(b, ops[0]) && (ops[0].Broker? ==> Disciplined(b, ops[0].step))
        && AllKept(Perform(b, ops[0]), ops[1..]))
  }

  lemma LifecycleSound(b: Book, op: Operation)
    requires Sound(b) && !op.Broker?
    ensures Sound(Perform(b, op))
  {
    var steps := Commits(b, op);
    if steps != [] {
      LastCommitStands(b, op);
      OnlyStrategies(b, op);
      StrategiesSound(b, Perform(b, op));
    }
  }

  lemma {:induction false} OperationsSound(b: Book, ops: seq<Operation>)
    requires Sound(b) && Monitored(b) && AllKept(b, ops)
    ensures Sound(PerformAll(b, ops)) && Monitored(PerformAll(b, ops))
    decreases |ops|
  {
    if ops != [] {
      PerformMonitored(b, ops[0]);
      if ops[0].Broker? {
        OneOrTwo(b, [ops[0].step]);
        NextSound(b, ops[0].step);
      } else {
        LifecycleSound(b, ops[0]);
      }
      OperationsSound(Perform(b, ops[0]), ops[1..]);
    }
  }

  /** After any operations, cut off after any commit, every open position on which nothing is out can
      be sold, in part or whole: the exit is reserved, whatever its strategy's status has become. */
  lemma EveryPositionCanExit(b: Book, ops: seq<Operation>, p: PositionId, r: Request)
    requires Sound(b) && Monitored(b) && AllKept(b, ops)
    requires var now := PerformAll(b, ops);
             && p in now.positions && now.positions[p] == Position(r.strategy, true) && QuietAt(now, r.strategy, p)
             && r.intent.action.Exit? && r.intent.side.Sell? && r.intent.positionId == p
             && r.quantity <= HeldOf(now, p) && r.id !in now.orders && NewKey(now, r)
    ensures HeldOf(PerformAll(b, ops), p) > 0.0
    ensures ReservedRow(PerformAll(b, ops), r, Reserve(PerformAll(b, ops), r))
  {
    var now := PerformAll(b, ops);
    OperationsSound(b, ops);
    NamedPositions(now, p);
    assert Exposed(now, r.strategy);
    assert MonitoredRow(now, r.strategy, now.strategies[r.strategy]);
    ExitReservedExactly(now, r);
  }

  /** An exposed strategy with nothing out has such a position. */
  lemma ExposedHasPosition(b: Book, sid: StrategyId)
    requires Sound(b) && Exposed(b, sid) && Quiet(b, sid)
    ensures exists p ::
              p in b.positions && b.positions[p] == Position(sid, true) && QuietAt(b, sid, p) && HeldOf(b, p) > 0.0
  {
    var p :| p in b.positions && b.positions[p].open && b.positions[p].strategy == sid;
    NamedPositions(b, p);
    assert b.positions[p] == Position(sid, true) && QuietAt(b, sid, p) && HeldOf(b, p) > 0.0;
  }

  predicate PositionGone(b: Book, p: PositionId) {
    p in b.positions && !b.positions[p].open && HeldOf(b, p) == 0.0
  }

  predicate OrderFilled(b: Book, id: OrderId, quantity: real, notional: real) {
    && id in b.orders && b.orders[id].status.Filled?
    && b.orders[id].filled == quantity && b.orders[id].notional == notional
  }

  /** As `ReservedRow` leaves an order. */
  predicate JustReserved(o: Order) {
    o.status.Submitting? && o.brokerId == "" && o.filled == 0.0 && o.notional == 0.0 && o.fees == 0.0
  }

  /** The report that a just reserved order is filled whole is accepted, and the order tells it. */
  lemma WholeFillAccepted(b: Book, id: OrderId, s: Snapshot, quantity: real, price: real)
    requires Sound(b) && id in b.orders && JustReserved(b.orders[id]) && quantity == b.orders[id].quantity
    requires quantity > 0.0 && price > 0.0
    requires s.state == "filled" && s.side == Some(b.orders[id].intent.side) && s.symbol.None? && s.refId == ""
    requires s.cumulative == Number(quantity) && s.averagePrice == Number(price) && s.fees.Absent?
    ensures ApplySnapshot(b, id, s, Equity).Ok?
    ensures OrderFilled(ApplySnapshot(b, id, s, Equity).value, id, quantity, quantity * price)
  {
    PositiveProduct(quantity, price);
    FilledIsAWord();
    EquityReplyBooked(b, id, s, quantity, price, 0.0);
    SaidFilled(b, id, s);
  }

  /** A fill that sells the whole holding closes the position and leaves nothing of it. */
  lemma WholeSaleCloses(b: Book, id: OrderId, s: Snapshot, asset: AssetClass)
    requires ApplySnapshot(b, id, s, asset).Ok? && id in b.orders && b.orders[id].intent.side.Sell?
    requires b.orders[id].intent.positionId != "" && HeldOf(b, b.orders[id].intent.positionId) > 0.0
    requires s.cumulative == Number(b.orders[id].filled + HeldOf(b, b.orders[id].intent.positionId))
    ensures PositionGone(ApplySnapshot(b, id, s, asset).value, b.orders[id].intent.positionId)
  {
    ReplyWithFill(b, id, s, asset);
  }

  lemma FilledIsAWord()
    ensures "filled" in WORDS
  {
    assert "filled" in OTHER_WORDS;
  }

  lemma SaidFilled(b: Book, id: OrderId, s: Snapshot)
    requires id in b.orders && !Closed(b.orders[id]) && s.state == "filled" && ApplySnapshot(b, id, s, Equity).Ok?
    ensures id in ApplySnapshot(b, id, s, Equity).value.orders
    ensures ApplySnapshot(b, id, s, Equity).value.orders[id].status.Filled?
  {
    ReportedStates(b, id, s, Equity);
  }

  lemma PositiveProduct(x: real, y: real)
    requires x > 0.0 && y > 0.0
    ensures x * y > 0.0
  {
  }
}
