/** What the swap journal's transactions do: exactly which swaps are reserved, broadcast and booked,
    what each write leaves, and that holdings are what the trades made them. */
module DexProgress {
  import opened Sums
  import opened BrokerBook
  import opened DexBook
  import opened DexAccounting
  import opened DexFences
  import opened DexMonitor
  import opened ExitMonitor

  /** Nothing will come of it any more. */
  predicate Finished(o: DexOrder) {
    o.status.Confirmed? || o.status.FeesOnly? || o.status.Failed?
  }

  // ---------------------------------------------------------------- reservation

  predicate NewKey(b: DexRows, r: DexRequest) {
    forall j | j in b.orders && b.orders[j].strategy == r.strategy :: b.orders[j].key != r.key
  }

  /** Every order of the strategy is finished. */
  predicate Quiet(b: DexRows, sid: StrategyId) {
    forall j | j in b.orders && b.orders[j].strategy == sid :: Finished(b.orders[j])
  }

  /** Every order of the strategy on this position, or on none, is finished. */
  predicate QuietAt(b: DexRows, sid: StrategyId, p: PositionId) {
    forall j | j in b.orders && b.orders[j].strategy == sid && b.orders[j].position in {p, ""} :: Finished(b.orders[j])
  }

  /** One order row is written, and nothing else. */
  predicate OnlyOrder(b: DexRows, id: OrderId, o: DexOrder, b': DexRows) {
    b' == b.(orders := b.orders[id := o])
  }

  /** The row of a reservation: the request as it came, no hash, nothing known. */
  predicate ReservedRow(b: DexRows, r: DexRequest, b': DexRows) {
    && r.id in b'.orders && OnlyOrder(b, r.id, b'.orders[r.id], b')
    && var o := b'.orders[r.id];
       && o.strategy == r.strategy && o.key == r.key && o.action == r.action && o.position == r.position
       && o.status.Reserved? && o.txHash.None? && o.expected == r.revision
       && o.context.fill.None? && !o.context.complete && !o.context.noBroadcast
  }

  /** An exit is reserved exactly when its strategy is live or has its exits monitored, it spends no
      more than the strategy's holding of the position, nothing is out there, and the intent is new. */
  lemma ExitReservedExactly(b: DexRows, r: DexRequest)
    requires r.action.Exit? && r.id !in b.orders
    ensures r.id in DexReserve(b, r).orders <==>
            && r.strategy in b.strategies && r.position != "" && !r.legacy
            && (b.strategies[r.strategy].status.Live? || b.strategies[r.strategy].exitMonitor == Some(LiveMode))
            && r.position in b.holdings && b.holdings[r.position].strategy == r.strategy
            && r.amount <= b.holdings[r.position].quantity
            && QuietAt(b, r.strategy, r.position) && NewKey(b, r)
    ensures r.id in DexReserve(b, r).orders ==> ReservedRow(b, r, DexReserve(b, r))
    ensures r.id !in DexReserve(b, r).orders ==> DexReserve(b, r) == b
  {
    assert QuietAt(b, r.strategy, r.position) ==> forall j | j in b.orders :: !Obstructs(b.orders[j], r);
    assert QuietAt(b, r.strategy, r.position) && NewKey(b, r) ==>
        forall j | j in b.orders && b.orders[j].strategy == r.strategy :: !ClashesPending(b.orders[j], r);
  }

  /** An entry is reserved exactly when its strategy is live, its evaluation current, its position new,
      every order of the strategy finished, and the intent new. */
  lemma EntryReservedExactly(b: DexRows, r: DexRequest)
    requires r.action.Enter? && r.id !in b.orders
    ensures r.id in DexReserve(b, r).orders <==>
            && r.strategy in b.strategies && r.position != "" && !r.legacy && r.position !in b.positions
            && b.strategies[r.strategy].status.Live?
            && r.revision == Some((b.strategies[r.strategy].executionRevision, b.strategies[r.strategy].bookRevision))
            && Quiet(b, r.strategy) && NewKey(b, r)
    ensures r.id in DexReserve(b, r).orders ==> ReservedRow(b, r, DexReserve(b, r))
    ensures r.id !in DexReserve(b, r).orders ==> DexReserve(b, r) == b
  {
    assert Quiet(b, r.strategy) ==> forall j | j in b.orders :: !Obstructs(b.orders[j], r);
    assert Quiet(b, r.strategy) ==>
        forall j | j in b.orders && b.orders[j].strategy == r.strategy :: !ClashesPending(b.orders[j], r);
  }

  // ---------------------------------------------------------------- revisions and broadcast

  /** An evaluation is accepted when nothing of its strategy was settled, committed or allocated since
      it read its revision, and its execution revision then advances by one. */
  lemma FreshEvaluationAccepted(b: DexRows, steps: seq<DexStep>, sid: StrategyId)
    requires sid in b.strategies && BookingsIn(b, steps, sid) == 0
    requires CommitsIn(b, steps, sid) == 0 && AllocationsIn(b, steps, sid) == 0
    ensures var s, now := b.strategies[sid], DexRun(b, steps);
            && sid in now.strategies && now.strategies[sid].bookRevision == s.bookRevision
            && DexCommit(now, sid, (s.executionRevision, s.bookRevision)) ==
               now.(strategies :=
                 now.strategies[sid := now.strategies[sid].(executionRevision := s.executionRevision + 1)])
  {
    UncountedKeeps(b, steps, sid);
  }

  /** The first allocation of a strategy without orders advances its execution revision, and a strategy
      with orders keeps it. */
  lemma FirstAllocationRevises(b: DexRows, sid: StrategyId)
    requires sid in b.strategies
    ensures sid in DexAllocate(b, sid).strategies
    ensures DexAllocate(b, sid).strategies[sid].executionRevision
            == b.strategies[sid].executionRevision
               + if (exists j :: j in b.orders && b.orders[j].strategy == sid) then 0 else 1
  {
  }

  /** From its reservation on, an entry may be broadcast exactly as long as its strategy is live and
      nothing of it was settled, committed or allocated; an exit always. */
  lemma BroadcastExactly(b: DexRows, r: DexRequest, steps: seq<DexStep>)
    requires DexReservable(b, r)
    ensures var reserved, sid := DexReserve(b, r), r.strategy;
            var now := DexRun(reserved, steps);
            BroadcastAuthorized(now, r.id) <==>
              || r.action.Exit?
              || (&& sid in now.strategies && now.strategies[sid].status.Live? && BookingsIn(reserved, steps, sid) == 0
                  && CommitsIn(reserved, steps, sid) == 0 && AllocationsIn(reserved, steps, sid) == 0)
  {
    RevisionsMove(DexReserve(b, r), steps, r.strategy);
    OrderKept(DexReserve(b, r), steps, r.id);
  }

  // ---------------------------------------------------------------- updates

  /** The same strategy has another order out that an unfinished order `o` may not stand beside. */
  predicate Crowded(b: DexRows, id: OrderId, o: DexOrder) {
    exists j :: j in b.orders && j != id && b.orders[j].strategy == o.strategy && !Finished(b.orders[j])
                && (b.orders[j].position == o.position || (b.orders[j].action.Enter? && o.action.Enter?))
  }

  /** What a reconciler may set: broadcasting, unresolved or failed. */
  predicate MaySet(status: Option<DexStatus>) {
    status in {None, Some(Broadcasting), Some(Unresolved), Some(DexStatus.Failed)}
  }

  /** An update gives any order that is not confirmed the status asked for, its hash if one came, and
      the context read before, with a mark of no broadcast if one came; it is refused exactly if it
      would take a finished order up again beside another. */
  lemma UpdateTakesEffect(b: DexRows, id: OrderId, context: Context, patch: Patch)
    requires OrdersDistinct(b) && id in b.orders && MaySet(patch.status)
    ensures var b', o := DexWrite(b, id, context, patch), b.orders[id];
            if Finished(o) && !o.status.Confirmed? && patch.status in {Some(Broadcasting), Some(Unresolved)}
               && Crowded(b, id, o)
            then b' == b
            else
              && id in b'.orders && OnlyOrder(b, id, b'.orders[id], b') && SameOrder(o, b'.orders[id])
              && (b'.orders[id].status == if o.status.Confirmed? || patch.status.None? then o.status
                                          else patch.status.value)
              && b'.orders[id].txHash == (if patch.txHash.Some? then patch.txHash else o.txHash)
              && b'.orders[id].context.fill == context.fill && b'.orders[id].context.complete == context.complete
              && (b'.orders[id].context.noBroadcast <==> context.noBroadcast || patch.noBroadcast)
  {
    WrittenExactly(b, id, context, patch);
    PatchedColumns(b.orders[id], context, patch);
  }

  lemma PatchedColumns(o: DexOrder, context: Context, patch: Patch)
    requires MaySet(patch.status)
    ensures var o' := Patched(o, context, patch);
            && SameOrder(o, o')
            && o'.status == (if o.status.Confirmed? || patch.status.None? then o.status else patch.status.value)
            && o'.txHash == (if patch.txHash.Some? then patch.txHash else o.txHash)
            && o'.context.fill == context.fill && o'.context.complete == context.complete
            && (o'.context.noBroadcast <==> context.noBroadcast || patch.noBroadcast)
            && (Finished(o') <==>
                  if o.status.Confirmed? || patch.status.None? then Finished(o)
                  else patch.status == Some(DexStatus.Failed))
  {
  }

  lemma WrittenExactly(b: DexRows, id: OrderId, context: Context, patch: Patch)
    requires OrdersDistinct(b) && id in b.orders && MaySet(patch.status)
    ensures var o := b.orders[id];
            DexWrite(b, id, context, patch) ==
            if Finished(o) && !o.status.Confirmed? && patch.status in {Some(Broadcasting), Some(Unresolved)}
               && Crowded(b, id, o)
            then b else b.(orders := b.orders[id := Patched(o, context, patch)])
  {
    var o := b.orders[id];
    PatchedColumns(o, context, patch);
    WritableExactly(b, id, Patched(o, context, patch));
    CrowdedAlike(b, id, o, Patched(o, context, patch));
    SettableExactly(patch);
  }

  lemma SettableExactly(patch: Patch)
    ensures WritablePatch(patch) <==> MaySet(patch.status)
  {
  }

  lemma CrowdedAlike(b: DexRows, id: OrderId, o: DexOrder, o': DexOrder)
    requires SameOrder(o, o')
    ensures Crowded(b, id, o) == Crowded(b, id, o')
  {
  }

  lemma WritableExactly(b: DexRows, id: OrderId, o: DexOrder)
    requires OrdersDistinct(b) && id in b.orders && SameOrder(b.orders[id], o)
    ensures UnfinishedUnique(b.orders, id, o) <==> Finished(o) || !Crowded(b, id, o)
    ensures !Finished(b.orders[id]) ==> !Crowded(b, id, o)
  {
  }

  // ---------------------------------------------------------------- settlement

  predicate BookRevisedOnly(b: DexRows, sid: StrategyId, rows: map<StrategyId, Strategy>) {
    rows == if sid in b.strategies
            then b.strategies[sid := b.strategies[sid].(bookRevision := b.strategies[sid].bookRevision + 1)]
            else b.strategies
  }

  /** Fees alone are recorded once: the order is finished without a fill, and its strategy's book
      revision advances. */
  lemma FeesAreRecorded(b: DexRows, id: OrderId, complete: bool)
    requires id in b.orders
    ensures var b', o := FeeOnly(b, id, complete), b.orders[id];
            if o.status.FeesOnly? then b' == b
            else
              && id in b'.orders && b' == b.(orders := b.orders[id := b'.orders[id]], strategies := b'.strategies)
              && SameOrder(o, b'.orders[id]) && b'.orders[id].status.FeesOnly? && b'.orders[id].txHash == o.txHash
              && b'.orders[id].context.complete == complete && b'.orders[id].context.fill == o.context.fill
              && b'.orders[id].context.noBroadcast == o.context.noBroadcast
              && BookRevisedOnly(b, o.strategy, b'.strategies)
  {
  }

  /** A proved swap of an unconfirmed order is booked exactly when its position is new, for an entry,
      or when the strategy holds at least what was spent, for an exit; otherwise nothing changes. */
  lemma BookedExactly(b: DexRows, id: OrderId, context: Context, swap: Swap, feesKnown: bool)
    requires DexSound(b) && Settled(b) && id in b.orders && Proven(swap) && !b.orders[id].status.Confirmed?
    ensures var b', o := ApplyFill(b, id, context, swap, feesKnown), b.orders[id];
            && (id in b'.trades <==>
                  if o.action.Enter? then o.position !in b.positions
                  else o.position in b.holdings && b.holdings[o.position].strategy == o.strategy
                       && swap.spent <= b.holdings[o.position].quantity)
            && (id !in b'.trades ==> b' == b)
  {
    assert b.orders[id].position in b.holdings ==> HoldingKept(b, b.orders[id].position);
  }

  /** A confirmed order is left alone. */
  lemma ConfirmedStands(b: DexRows, id: OrderId, context: Context, swap: Swap, feesKnown: bool)
    requires id in b.orders && b.orders[id].status.Confirmed?
    ensures ApplyFill(b, id, context, swap, feesKnown) == b
  {
  }

  /** The order, once booked: confirmed, with the swap and its completeness in its context. */
  predicate ConfirmedRow(b: DexRows, id: OrderId, context: Context, swap: Swap, complete: bool, b': DexRows)
    requires id in b.orders
  {
    && id in b'.orders && b'.orders == b.orders[id := b'.orders[id]]
    && SameOrder(b.orders[id], b'.orders[id]) && b'.orders[id].status.Confirmed?
    && b'.orders[id].txHash == b.orders[id].txHash
    && b'.orders[id].context == Context(Some(swap), complete, context.noBroadcast)
    && b'.read == b.read && BookRevisedOnly(b, b.orders[id].strategy, b'.strategies)
  }

  /** An entry's fill opens its position with what was received, at the cost of what was spent. */
  lemma EntryBooked(b: DexRows, id: OrderId, context: Context, swap: Swap, feesKnown: bool)
    requires DexSound(b) && Settled(b) && id in b.orders && Proven(swap) && !b.orders[id].status.Confirmed?
    requires b.orders[id].action.Enter? && b.orders[id].position !in b.positions
    ensures var b', o := ApplyFill(b, id, context, swap, feesKnown), b.orders[id];
            && ConfirmedRow(b, id, context, swap, feesKnown, b')
            && b'.positions == b.positions[o.position := Position(o.strategy, true)]
            && b'.trades == b.trades[id := DexTrade(o.strategy, Enter, swap, feesKnown, None)]
            && o.position in b'.holdings && b'.holdings == b.holdings[o.position := b'.holdings[o.position]]
            && b'.holdings[o.position].strategy == o.strategy && b'.holdings[o.position].quantity == swap.received
            && Product(swap.received, b'.holdings[o.position].unitCost) == swap.spent
            && b'.holdings[o.position].complete == feesKnown
  {
    BookedExactly(b, id, context, swap, feesKnown);
    PriceTimesQuantity(swap.spent, swap.received);
  }

  /** An exit's fill takes what was spent from the holding, at the cost it was bought for, and closes the
      position exactly when nothing is left; its profit is known exactly when all fees are. */
  lemma ExitBooked(b: DexRows, id: OrderId, context: Context, swap: Swap, feesKnown: bool)
    requires DexSound(b) && Settled(b) && id in b.orders && Proven(swap) && !b.orders[id].status.Confirmed?
    requires var o := b.orders[id];
             && o.action.Exit? && o.position in b.holdings && b.holdings[o.position].strategy == o.strategy
             && swap.spent <= b.holdings[o.position].quantity
    ensures var b', o := ApplyFill(b, id, context, swap, feesKnown), b.orders[id];
            var was := b.holdings[o.position];
            var complete := feesKnown && was.complete;
            && ConfirmedRow(b, id, context, swap, complete, b')
            && b'.holdings ==
               b.holdings[o.position := was.(quantity := was.quantity - swap.spent, complete := complete)]
            && b'.positions == b.positions[o.position := Position(o.strategy, was.quantity != swap.spent)]
            && b'.trades == b.trades[id := DexTrade(o.strategy, Exit, swap, complete,
                                                    if complete
                                                    then Some(swap.received - Product(swap.spent, was.unitCost))
                                                    else None)]
  {
    var o := b.orders[id];
    BookedExactly(b, id, context, swap, feesKnown);
    assert HoldingKept(b, o.position);
    assert Fillable(b, id, swap);
    SaleProfit(b.holdings[o.position], swap);
    assert b.positions[o.position] == Position(o.strategy, b.positions[o.position].open);
    assert CompleteFill(b, o, feesKnown) == (feesKnown && b.holdings[o.position].complete);
  }

  lemma SaleProfit(h: DexHolding, swap: Swap)
    ensures Profit(h, Quantity(Exit, swap), Cash(Exit, swap)) == swap.received - Product(swap.spent, h.unitCost)
  {
  }

  // ---------------------------------------------------------------- holdings over runs

  function HeldOf(b: DexRows, p: PositionId): real {
    if p in b.holdings then b.holdings[p].quantity else 0.0
  }

  /** What each trade added to the position or took from it. */
  ghost function Amounts(b: DexRows, p: PositionId): map<OrderId, real> {
    map id | id in b.trades :: if id in b.orders && b.orders[id].position == p then Moved(b.trades[id]) else 0.0
  }

  function Moved(t: DexTrade): real {
    if t.action.Enter? then t.swap.received else -t.swap.spent
  }

  ghost predicate HoldingAddsUp(b: DexRows, p: PositionId) {
    HeldOf(b, p) == Total(Amounts(b, p))
  }

  lemma FillAddsUp(b: DexRows, id: OrderId, context: Context, swap: Swap, feesKnown: bool, p: PositionId)
    requires DexSound(b) && Settled(b) && Proven(swap) && HoldingAddsUp(b, p)
    ensures HoldingAddsUp(ApplyFill(b, id, context, swap, feesKnown), p)
  {
    if Fillable(b, id, swap) {
      FillMoves(b, id, context, swap, feesKnown, p);
      TotalSet(Amounts(b, p), id,
               if b.orders[id].position != p then 0.0
               else if b.orders[id].action.Enter? then swap.received else -swap.spent);
    }
  }

  /** A fill moves its own position's holding, and its trade tells by how much. */
  lemma FillMoves(b: DexRows, id: OrderId, context: Context, swap: Swap, feesKnown: bool, p: PositionId)
    requires Fillable(b, id, swap)
    ensures var b' := ApplyFill(b, id, context, swap, feesKnown);
            var v := if b.orders[id].position != p then 0.0
                     else if b.orders[id].action.Enter? then swap.received else -swap.spent;
            HeldOf(b', p) == HeldOf(b, p) + v && Amounts(b', p) == Amounts(b, p)[id := v]
  {
  }

  lemma StepAddsUp(b: DexRows, step: DexStep, p: PositionId)
    requires DexSound(b) && Settled(b) && HoldingAddsUp(b, p)
    ensures HoldingAddsUp(DexNext(b, step), p)
  {
    if step.FillStep? && step.reader in b.read && Proven(step.swap) {
      FillAddsUp(b, b.read[step.reader].id, b.read[step.reader].context, step.swap, step.feesKnown, p);
    } else {
      OtherStep(b, step);
      forall id | id in b.trades ensures id in b.orders {
        assert TradeKept(b, id);
      }
      assert Amounts(DexNext(b, step), p) == Amounts(b, p);
    }
  }

  /** While what steps read is still so, what a position holds is exactly what its trades received less
      what they spent. */
  lemma {:induction false} HoldingsAreTrades(b: DexRows, steps: seq<DexStep>, p: PositionId)
    requires DexSound(b) && Settled(b) && DexAccounting.AllCurrent(b, steps) && HoldingAddsUp(b, p)
    ensures HeldOf(DexRun(b, steps), p) == Total(Amounts(DexRun(b, steps), p))
    decreases |steps|
  {
    if steps != [] {
      StepAddsUp(b, steps[0], p);
      StepSound(b, steps[0]);
      StepSettled(b, steps[0]);
      HoldingsAreTrades(DexNext(b, steps[0]), steps[1..], p);
    }
  }

  lemma FreshHoldings(b: DexRows, p: PositionId)
    requires DexFresh(b)
    ensures HoldingAddsUp(b, p)
  {
    TotalZero(Amounts(b, p));
  }

  // ---------------------------------------------------------------- the way out

  lemma {:induction false} EventsSound(d: DexRows, events: seq<Occurrence>)
    requires DexSound(d)
    ensures DexSound(HandleAll(d, events))
    decreases |events|
  {
    if events != [] {
      match events[0] {
        case Journal(step) => StepSound(d, step);
        case Lifecycle(op) => StrategiesSound(d, DexPerform(d, op).strategies);
      }
      EventsSound(Handle(d, events[0]), events[1..]);
    }
  }

  lemma StrategiesSound(d: DexRows, strategies: map<StrategyId, Strategy>)
    requires DexSound(d)
    ensures DexSound(d.(strategies := strategies))
  {
    forall p | p in d.holdings ensures HoldingKept(d.(strategies := strategies), p) {
      assert HoldingKept(d, p);
    }
    forall id | id in d.trades ensures TradeKept(d.(strategies := strategies), id) {
      assert TradeKept(d, id);
    }
  }

  /** After any operations and transactions, every open position on which nothing is out can be sold,
      in part or whole, whatever its strategy's status has become: the swap is reserved and may be
      broadcast. */
  lemma EveryPositionCanExit(d: DexRows, events: seq<Occurrence>, p: PositionId, r: DexRequest)
    requires DexSound(d) && Monitored(AsBook(d)) && DexMonitor.AllCurrent(d, events)
    requires var now := HandleAll(d, events);
             && p in now.holdings && p in now.positions && now.positions[p].open && p != ""
             && now.holdings[p].strategy == r.strategy && r.strategy in now.strategies && QuietAt(now, r.strategy, p)
             && r.action.Exit? && r.position == p && r.amount <= now.holdings[p].quantity
             && !r.legacy && r.id !in now.orders && NewKey(now, r)
    ensures HeldOf(HandleAll(d, events), p) > 0.0
    ensures ReservedRow(HandleAll(d, events), r, DexReserve(HandleAll(d, events), r))
    ensures BroadcastAuthorized(DexReserve(HandleAll(d, events), r), r.id)
  {
    var now := HandleAll(d, events);
    assert OneOwner(d) by {
      forall q | q in d.holdings ensures q in d.positions && d.positions[q].strategy == d.holdings[q].strategy {
        assert HoldingKept(d, q);
      }
    }
    NoUnmonitoredSwap(d, events, r.strategy);
    EventsSound(d, events);
    assert HoldingKept(now, p);
    assert AsBook(now).positions[p].open && AsBook(now).positions[p].strategy == r.strategy;
    ExitReservedExactly(now, r);
  }
}
