/** Which orders can be outstanding together, and the refusals that can therefore never fire. */
module BrokerReservations {
  import opened Sums
  import opened BrokerBook
  import opened BrokerAccounting

  /** A row as `reserve` writes it and fills leave it. */
  predicate OrderSound(b: Book, o: Order) {
    o.strategy in b.strategies && o.intent.positionId != "" && Coherent(o.intent) && o.filled >= 0.0
  }

  /** A holding is never negative, and a position is open exactly while it holds something. */
  predicate HoldingSound(b: Book, p: PositionId)
    requires p in b.positions && p in b.holdings
  {
    b.holdings[p].quantity >= 0.0 && (b.positions[p].open <==> b.holdings[p].quantity > 0.0)
  }

  /** Two pending orders of one strategy name different positions, and at most one buys. */
  predicate PendingDistinct(orders: map<OrderId, Order>) {
    forall i | i in orders && Pending(orders[i].status) :: PendingUnique(orders, i, orders[i])
  }

  /** What is left of a pending exit is held, and a pending entry's position is still open. */
  predicate Covered(b: Book, o: Order) {
    var p := o.intent.positionId;
    if o.intent.side.Sell?
    then p in b.holdings && b.holdings[p].strategy == o.strategy && o.quantity - o.filled <= b.holdings[p].quantity
    else p in b.positions ==> b.positions[p].open && b.positions[p].strategy == o.strategy
  }

  /** A position identity belongs to one strategy. */
  predicate Unshared(orders: map<OrderId, Order>) {
    forall i, j | i in orders && j in orders && orders[i].intent.positionId == orders[j].intent.positionId ::
      orders[i].strategy == orders[j].strategy
  }

  /** Every position was bought by a recorded order of its own strategy. */
  predicate Provenance(b: Book, p: PositionId)
    requires p in b.positions
  {
    exists id :: id in b.orders && BoughtBy(b.orders[id], p, b.positions[p].strategy)
  }

  predicate BoughtBy(o: Order, p: PositionId, sid: StrategyId) {
    o.intent.positionId == p && o.intent.side.Buy? && o.strategy == sid && o.filled > 0.0
  }

  /** No trade of an order lies beyond what the order has filled. */
  predicate TradesBounded(b: Book) {
    forall k | k in b.trades :: k.0 in b.orders && k.1 <= b.orders[k.0].filled
  }

  predicate Sound(b: Book) {
    && Paired(b) && TradesBounded(b) && PendingDistinct(b.orders) && Unshared(b.orders)
    && OrdersSound(b) && PositionsSound(b) && PendingCovered(b)
  }

  predicate OrdersSound(b: Book) {
    forall id | id in b.orders :: OrderSound(b, b.orders[id])
  }

  predicate PositionsSound(b: Book)
    requires Paired(b)
  {
    forall p | p in b.positions :: HoldingSound(b, p) && Provenance(b, p)
  }

  predicate PendingCovered(b: Book) {
    forall id | id in b.orders && Pending(b.orders[id].status) :: Covered(b, b.orders[id])
  }

  /** The two things the store leaves to its callers: intents agree with themselves and do
      not share a position between strategies, and a closed order is not marked pending. */
  predicate Disciplined(b: Book, step: Step) {
    match step
    case ReserveStep(r) =>
      && Coherent(r.intent)
      && forall j | j in b.orders && b.orders[j].intent.positionId == r.intent.positionId ::
           b.orders[j].strategy == r.strategy
    case MarkStep(id, status, _, _) => id in b.orders && Pending(status) ==> Pending(b.orders[id].status)
    case _ => true
  }

  predicate AllDisciplined(b: Book, steps: seq<Step>)
    decreases |steps|
  {
    steps == [] || (Disciplined(b, steps[0]) && AllDisciplined(Next(b, steps[0]), steps[1..]))
  }

  // ---------------------------------------------------------------- one step

  /** A row that replaces none, or the same intent of the same strategy with no less filled. */
  predicate Succeeds(orders: map<OrderId, Order>, id: OrderId, o: Order) {
    id in orders ==> orders[id].strategy == o.strategy && orders[id].intent == o.intent && orders[id].filled <= o.filled
  }

  lemma DistinctAfter(orders: map<OrderId, Order>, id: OrderId, o: Order)
    requires PendingDistinct(orders) && (Pending(o.status) ==> PendingUnique(orders, id, o))
    ensures PendingDistinct(orders[id := o])
  {
    var orders' := orders[id := o];
    forall i | i in orders' && Pending(orders'[i].status) ensures PendingUnique(orders', i, orders'[i]) {
      if i != id {
        assert PendingUnique(orders, i, orders[i]);
      }
    }
  }

  lemma UnsharedAfter(orders: map<OrderId, Order>, id: OrderId, o: Order)
    requires Unshared(orders)
    requires forall j | j in orders && orders[j].intent.positionId == o.intent.positionId ::
               orders[j].strategy == o.strategy
    ensures Unshared(orders[id := o])
  {
  }

  lemma ProvenanceAfter(b: Book, b': Book, id: OrderId, o: Order, p: PositionId)
    requires p in b.positions && Provenance(b, p) && Succeeds(b.orders, id, o) && b'.orders == b.orders[id := o]
    requires p in b'.positions && b'.positions[p].strategy == b.positions[p].strategy
    ensures Provenance(b', p)
  {
    var j :| j in b.orders && BoughtBy(b.orders[j], p, b.positions[p].strategy);
    assert BoughtBy(b'.orders[j], p, b'.positions[p].strategy);
  }

  /** Writing one order row, and nothing else, keeps a book sound when the row itself is. */
  lemma RowSound(b: Book, id: OrderId, o: Order)
    requires Sound(b) && Succeeds(b.orders, id, o) && OrderSound(b, o)
    requires forall j | j in b.orders && b.orders[j].intent.positionId == o.intent.positionId ::
               b.orders[j].strategy == o.strategy
    requires Pending(o.status) ==> PendingUnique(b.orders, id, o) && Covered(b, o)
    ensures Sound(b.(orders := b.orders[id := o]))
  {
    var b' := b.(orders := b.orders[id := o]);
    DistinctAfter(b.orders, id, o);
    UnsharedAfter(b.orders, id, o);
    RowPositions(b, id, o);
    RowCovered(b, id, o);
    assert OrdersSound(b') by {
      forall j | j in b'.orders ensures OrderSound(b', b'.orders[j]) {
        assert j != id ==> OrderSound(b, b.orders[j]);
      }
    }
  }

  lemma RowPositions(b: Book, id: OrderId, o: Order)
    requires Paired(b) && PositionsSound(b) && Succeeds(b.orders, id, o)
    ensures PositionsSound(b.(orders := b.orders[id := o]))
  {
    var b' := b.(orders := b.orders[id := o]);
    forall p | p in b'.positions ensures HoldingSound(b', p) && Provenance(b', p) {
      assert HoldingSound(b, p);
      ProvenanceAfter(b, b', id, o, p);
    }
  }

  lemma RowCovered(b: Book, id: OrderId, o: Order)
    requires PendingCovered(b) && (Pending(o.status) ==> Covered(b, o))
    ensures PendingCovered(b.(orders := b.orders[id := o]))
  {
    var b' := b.(orders := b.orders[id := o]);
    forall j | j in b'.orders && Pending(b'.orders[j].status) ensures Covered(b', b'.orders[j]) {
      assert j != id ==> Covered(b, b.orders[j]);
    }
  }

  lemma ReserveSound(b: Book, r: Request)
    requires Sound(b) && Disciplined(b, ReserveStep(r))
    ensures Sound(Reserve(b, r))
  {
    if Reservable(b, r) {
      RowSound(b, r.id, NewOrder(r));
    }
  }

  lemma MarkSound(b: Book, id: OrderId, status: Status, brokerId: string, approvalId: string)
    requires Sound(b) && Disciplined(b, MarkStep(id, status, brokerId, approvalId))
    ensures Sound(Mark(b, id, status, brokerId, approvalId))
  {
    if Markable(b, id, status) {
      assert OrderSound(b, b.orders[id]);
      assert Pending(b.orders[id].status) ==> Covered(b, b.orders[id]);
      RowSound(b, id, Marked(b.orders[id], status, brokerId, approvalId));
    }
  }

  /** On a sound book only the broker's own reply can be at fault: an exit never exceeds its
      holding, an entry never meets a closed or foreign position, and no fill is met twice. */
  lemma SnapshotNeverBlamesBook(b: Book, id: OrderId, s: Snapshot, asset: AssetClass)
    requires Sound(b)
    ensures var applied := ApplySnapshot(b, id, s, asset); applied.Err? ==> !BlamesBook(applied.error)
  {
    var read := Read(s, asset);
    if id in b.orders {
      var o := b.orders[id];
      if read.Ok? && FirstRefusal(id, o, s, read.value).None? && NewPart(o, read.value).quantity != 0.0 {
        PendingFillUnblamed(b, id, NewPart(o, read.value));
      } else {
        UnfilledUnblamed(b, id, s, asset);
      }
    }
  }

  lemma PendingFillUnblamed(b: Book, id: OrderId, f: Fill)
    requires Sound(b) && id in b.orders && Pending(b.orders[id].status)
    requires 0.0 < f.quantity && b.orders[id].filled + f.quantity <= b.orders[id].quantity
    ensures var refusal := FillRefusal(b, id, b.orders[id], f, b.orders[id].filled + f.quantity);
            refusal.Some? ==> !BlamesBook(refusal.value)
  {
    var o := b.orders[id];
    assert Covered(b, o) && OrderSound(b, o);
    assert o.intent.positionId in b.positions ==> HoldingSound(b, o.intent.positionId);
    assert (id, o.filled + f.quantity) !in b.trades;
  }

  /** The fill of a pending order disturbs no other pending order's cover. */
  lemma OthersStayCovered(b: Book, id: OrderId, b': Book, j: OrderId)
    requires Sound(b) && id in b.orders && Pending(b.orders[id].status)
    requires j in b.orders && j != id && Pending(b.orders[j].status)
    requires forall p | p != b.orders[id].intent.positionId ::
               && (p in b'.positions <==> p in b.positions) && (p in b.positions ==> b'.positions[p] == b.positions[p])
               && (p in b'.holdings <==> p in b.holdings) && (p in b.holdings ==> b'.holdings[p] == b.holdings[p])
    ensures Covered(b', b.orders[j])
  {
    assert PendingUnique(b.orders, id, b.orders[id]);
    assert b.orders[j].intent.positionId != b.orders[id].intent.positionId;
    assert Covered(b, b.orders[j]);
  }

  /** A fill keeps the filled order's own position and cover sound. */
  lemma FillSound(b: Book, id: OrderId, f: Fill, upTo: real)
    requires Sound(b) && id in b.orders && Pending(b.orders[id].status) && f.quantity > 0.0
    requires FillRefusal(b, id, b.orders[id], f, upTo).None?
    ensures var o := b.orders[id];
            var b' := BookFill(b, id, o, f, upTo);
            var p := o.intent.positionId;
            && Paired(b') && HoldingSound(b', p) && b'.positions[p].strategy == o.strategy
            && Covered(b', o.(filled := o.filled + f.quantity))
  {
    var o := b.orders[id];
    assert OrderSound(b, o) && Covered(b, o);
    assert o.intent.positionId in b.positions ==> HoldingSound(b, o.intent.positionId);
  }

  lemma SnapshotSound(b: Book, id: OrderId, s: Snapshot, asset: AssetClass)
    requires Sound(b) && ApplySnapshot(b, id, s, asset).Ok?
    ensures Sound(ApplySnapshot(b, id, s, asset).value)
  {
    var o, r := b.orders[id], Read(s, asset).value;
    assert OrderSound(b, o);
    if NewPart(o, r).quantity == 0.0 {
      assert Pending(o.status) ==> Covered(b, o);
      RowSound(b, id, OrderAfter(o, s, r));
      assert Sound(b.(orders := b.orders[id := OrderAfter(o, s, r)]));
      EventsSound(b.(orders := b.orders[id := OrderAfter(o, s, r)]), ApplySnapshot(b, id, s, asset).value);
    } else {
      FilledSound(b, id, s, r);
    }
  }

  /** Soundness does not read the event log. */
  lemma EventsSound(b: Book, b': Book)
    requires Sound(b) && b' == b.(events := b'.events)
    ensures Sound(b')
  {
    forall p | p in b'.positions ensures HoldingSound(b', p) && Provenance(b', p) {
      assert HoldingSound(b, p);
      var id :| id in b.orders && BoughtBy(b.orders[id], p, b.positions[p].strategy);
      assert BoughtBy(b'.orders[id], p, b'.positions[p].strategy);
    }
    forall id | id in b'.orders
      ensures OrderSound(b', b'.orders[id]) && (Pending(b'.orders[id].status) ==> Covered(b', b'.orders[id]))
    {
      assert OrderSound(b, b.orders[id]) && (Pending(b.orders[id].status) ==> Covered(b, b.orders[id]));
    }
  }

  lemma FilledSound(b: Book, id: OrderId, s: Snapshot, r: Reading)
    requires Sound(b) && id in b.orders && FirstRefusal(id, b.orders[id], s, r).None?
    requires var f := NewPart(b.orders[id], r);
             f.quantity != 0.0 && FillRefusal(b, id, b.orders[id], f, r.quantity).None?
    ensures Sound(Recorded(BookFill(b, id, b.orders[id], NewPart(b.orders[id], r), r.quantity), id,
                           OrderAfter(b.orders[id], s, r)))
  {
    var o := b.orders[id];
    var o' := OrderAfter(o, s, r);
    var b' := Recorded(BookFill(b, id, o, NewPart(o, r), r.quantity), id, o');
    FilledTables(b, id, s, r);
    assert PositionsSound(b') by {
      forall p | p in b'.positions ensures HoldingSound(b', p) && Provenance(b', p) {
        FilledPosition(b, id, s, r, p);
      }
    }
    FilledOrders(b, id, s, r);
  }

  lemma FilledOrders(b: Book, id: OrderId, s: Snapshot, r: Reading)
    requires Sound(b) && id in b.orders && FirstRefusal(id, b.orders[id], s, r).None?
    requires var f := NewPart(b.orders[id], r);
             f.quantity != 0.0 && FillRefusal(b, id, b.orders[id], f, r.quantity).None?
    ensures var o := b.orders[id];
            var b' := Recorded(BookFill(b, id, o, NewPart(o, r), r.quantity), id, OrderAfter(o, s, r));
            OrdersSound(b') && PendingCovered(b')
  {
    var o := b.orders[id];
    var b' := Recorded(BookFill(b, id, o, NewPart(o, r), r.quantity), id, OrderAfter(o, s, r));
    forall j | j in b'.orders ensures OrderSound(b', b'.orders[j]) {
      assert OrderSound(b, b.orders[j]);
    }
    forall j | j in b'.orders && Pending(b'.orders[j].status) ensures Covered(b', b'.orders[j]) {
      FilledCover(b, id, s, r, j);
    }
  }

  lemma FilledTables(b: Book, id: OrderId, s: Snapshot, r: Reading)
    requires Sound(b) && id in b.orders && FirstRefusal(id, b.orders[id], s, r).None?
    requires var f := NewPart(b.orders[id], r);
             f.quantity != 0.0 && FillRefusal(b, id, b.orders[id], f, r.quantity).None?
    ensures var b' := Recorded(BookFill(b, id, b.orders[id], NewPart(b.orders[id], r), r.quantity), id,
                               OrderAfter(b.orders[id], s, r));
            && Paired(b') && TradesBounded(b') && PendingDistinct(b'.orders) && Unshared(b'.orders)
            && b'.positions.Keys == b.positions.Keys + {b.orders[id].intent.positionId}
  {
    var o := b.orders[id];
    assert OrderSound(b, o);
    FillSound(b, id, NewPart(o, r), r.quantity);
    DistinctAfter(b.orders, id, OrderAfter(o, s, r));
    UnsharedAfter(b.orders, id, OrderAfter(o, s, r));
  }

  lemma FilledPosition(b: Book, id: OrderId, s: Snapshot, r: Reading, p: PositionId)
    requires Sound(b) && id in b.orders && FirstRefusal(id, b.orders[id], s, r).None?
    requires var f := NewPart(b.orders[id], r);
             f.quantity != 0.0 && FillRefusal(b, id, b.orders[id], f, r.quantity).None?
    requires p in b.positions || p == b.orders[id].intent.positionId
    ensures var o := b.orders[id];
            var b' := Recorded(BookFill(b, id, o, NewPart(o, r), r.quantity), id, OrderAfter(o, s, r));
            p in b'.positions && p in b'.holdings && HoldingSound(b', p) && Provenance(b', p)
  {
    var o := b.orders[id];
    var b' := Recorded(BookFill(b, id, o, NewPart(o, r), r.quantity), id, OrderAfter(o, s, r));
    assert OrderSound(b, o);
    FillSound(b, id, NewPart(o, r), r.quantity);
    if p in b.positions {
      assert HoldingSound(b, p);
      ProvenanceAfter(b, b', id, OrderAfter(o, s, r), p);
    } else {
      assert BoughtBy(b'.orders[id], p, b'.positions[p].strategy);
    }
  }

  lemma FilledCover(b: Book, id: OrderId, s: Snapshot, r: Reading, j: OrderId)
    requires Sound(b) && id in b.orders && FirstRefusal(id, b.orders[id], s, r).None?
    requires var f := NewPart(b.orders[id], r);
             f.quantity != 0.0 && FillRefusal(b, id, b.orders[id], f, r.quantity).None?
    requires j in b.orders && Pending(b.orders[j].status)
    ensures var o := b.orders[id];
            var b' := Recorded(BookFill(b, id, o, NewPart(o, r), r.quantity), id, OrderAfter(o, s, r));
            Covered(b', b'.orders[j])
  {
    var o := b.orders[id];
    var b' := Recorded(BookFill(b, id, o, NewPart(o, r), r.quantity), id, OrderAfter(o, s, r));
    assert OrderSound(b, o) && Pending(o.status);
    FillSound(b, id, NewPart(o, r), r.quantity);
    if j != id {
      OthersStayCovered(b, id, b', j);
    }
  }

  lemma NextSound(b: Book, step: Step)
    requires Sound(b) && Disciplined(b, step)
    ensures Sound(Next(b, step))
  {
    match step
    case ReserveStep(r) => ReserveSound(b, r);
    case MarkStep(id, status, brokerId, approvalId) => MarkSound(b, id, status, brokerId, approvalId);
    case SnapshotStep(id, s, asset) =>
      if ApplySnapshot(b, id, s, asset).Ok? {
        SnapshotSound(b, id, s, asset);
      }
    case CommitStep(_, _) => StrategiesSound(b, Next(b, step));
    case AllocateStep(_) => StrategiesSound(b, Next(b, step));
    case LifecycleStep(_, _, _) => StrategiesSound(b, Next(b, step));
  }

  /** Strategy columns other than the key play no part in soundness. */
  lemma StrategiesSound(b: Book, b': Book)
    requires Sound(b) && b' == b.(strategies := b'.strategies) && b'.strategies.Keys == b.strategies.Keys
    ensures Sound(b')
  {
    assert PositionsSound(b') by {
      forall p | p in b'.positions ensures HoldingSound(b', p) && Provenance(b', p) {
        assert HoldingSound(b, p);
        var id :| id in b.orders && BoughtBy(b.orders[id], p, b.positions[p].strategy);
        assert BoughtBy(b'.orders[id], p, b'.positions[p].strategy);
      }
    }
    forall id | id in b'.orders ensures OrderSound(b', b'.orders[id]) {
      assert OrderSound(b, b.orders[id]);
    }
    forall id | id in b'.orders && Pending(b'.orders[id].status) ensures Covered(b', b'.orders[id]) {
      assert Covered(b, b.orders[id]);
    }
  }

  // ---------------------------------------------------------------- every run

  lemma {:induction false} RunSound(b: Book, steps: seq<Step>)
    requires Sound(b) && AllDisciplined(b, steps)
    ensures Sound(Run(b, steps))
    decreases |steps|
  {
    if steps != [] {
      NextSound(b, steps[0]);
      RunSound(Next(b, steps[0]), steps[1..]);
    }
  }

  /** In every reachable state the pending orders of a strategy name distinct positions,
      include at most one entry, and leave no exit uncovered; so whatever snapshot arrives
      next, no refusal of it can blame the local book. */
  lemma ReachableReservations(b: Book, steps: seq<Step>, id: OrderId, s: Snapshot, asset: AssetClass)
    requires Fresh(b) && AllDisciplined(b, steps)
    ensures var now := Run(b, steps);
            && (forall i, j | i in now.orders && j in now.orders && i != j
                              && now.orders[i].strategy == now.orders[j].strategy
                              && Pending(now.orders[i].status) && Pending(now.orders[j].status) ::
                  && now.orders[i].intent.positionId != now.orders[j].intent.positionId
                  && !(now.orders[i].intent.action.Enter? && now.orders[j].intent.action.Enter?))
            && (forall i | i in now.orders && Pending(now.orders[i].status) && now.orders[i].intent.action.Exit? ::
                  var p := now.orders[i].intent.positionId;
                  p in now.holdings && now.orders[i].quantity - now.orders[i].filled <= now.holdings[p].quantity)
            && (var applied := ApplySnapshot(now, id, s, asset); applied.Err? ==> !BlamesBook(applied.error))
  {
    RunSound(b, steps);
    var now := Run(b, steps);
    SnapshotNeverBlamesBook(now, id, s, asset);
    forall i, j | i in now.orders && j in now.orders && i != j && now.orders[i].strategy == now.orders[j].strategy
                  && Pending(now.orders[i].status) && Pending(now.orders[j].status)
      ensures now.orders[i].intent.positionId != now.orders[j].intent.positionId
      ensures !(now.orders[i].intent.action.Enter? && now.orders[j].intent.action.Enter?)
    {
      assert PendingUnique(now.orders, i, now.orders[i]);
      assert OrderSound(now, now.orders[i]) && OrderSound(now, now.orders[j]);
    }
    forall i | i in now.orders && Pending(now.orders[i].status) && now.orders[i].intent.action.Exit?
      ensures var p := now.orders[i].intent.positionId;
              p in now.holdings && now.orders[i].quantity - now.orders[i].filled <= now.holdings[p].quantity
    {
      assert OrderSound(now, now.orders[i]) && Covered(now, now.orders[i]);
    }
  }

  // ---------------------------------------------------------------- where the discipline is needed

  /** `mark` is an unconditional UPDATE. On a sound book it stays sound exactly when it does
      not bring back a closed order whose remainder is no longer covered. */
  lemma MarkSoundExactly(b: Book, id: OrderId, status: Status, brokerId: string, approvalId: string)
    requires Sound(b) && Markable(b, id, status)
    ensures Sound(Mark(b, id, status, brokerId, approvalId)) <==>
            (Pending(status) && !Pending(b.orders[id].status) ==> Covered(b, b.orders[id]))
  {
    var o, o' := b.orders[id], Marked(b.orders[id], status, brokerId, approvalId);
    var b' := Mark(b, id, status, brokerId, approvalId);
    assert OrderSound(b, o);
    if Pending(status) && !Pending(o.status) && !Covered(b, o) {
      assert b'.orders[id] == o' && !Covered(b', o');
    } else {
      assert Pending(o.status) ==> Covered(b, o);
      RowSound(b, id, o');
    }
  }

  /** What a strategy holds of a position. */
  function HeldQuantity(b: Book, p: PositionId): real {
    if p in b.holdings then b.holdings[p].quantity else 0.0
  }

  /** The whole of an order, reported filled at a price of one with no fee. */
  function WholeFill(r: Request): Snapshot {
    Snapshot("", "filled", Some(r.intent.side), None, "", Number(r.quantity), Number(1.0), Absent, Absent, Absent)
  }

  /** An intent that enters by selling more than the strategy holds of the position. */
  predicate Oversells(b: Book, r: Request) {
    && r.intent.action.Enter? && r.intent.side.Sell?
    && r.quantity > 0.0 && r.quantity > HeldQuantity(b, r.intent.positionId)
  }

  /** `reserve` checks a holding for exits only, so an intent that enters by selling slips
      through. On a sound book, a later snapshot of a just reserved order can blame the book
      exactly when it is such an intent for more than is held. */
  lemma ReservedBlameExactly(b: Book, r: Request)
    requires Sound(b) && Reservable(b, r)
    ensures (exists s: Snapshot, asset: AssetClass :: Blamed(ApplySnapshot(Reserve(b, r), r.id, s, asset)))
            <==> Oversells(b, r)
  {
    if Oversells(b, r) {
      OversoldBlamed(b, r);
      assert Blamed(ApplySnapshot(Reserve(b, r), r.id, WholeFill(r), Equity));
    } else {
      forall s: Snapshot, asset: AssetClass ensures !Blamed(ApplySnapshot(Reserve(b, r), r.id, s, asset)) {
        JustReservedUnblamed(b, r, s, asset);
      }
    }
  }

  lemma OversoldBlamed(b: Book, r: Request)
    requires Sound(b) && Reservable(b, r) && Oversells(b, r)
    ensures Blamed(ApplySnapshot(Reserve(b, r), r.id, WholeFill(r), Equity))
  {
    var b', p, f := Reserve(b, r), r.intent.positionId, Fill(r.quantity, r.quantity * 1.0, 0.0);
    assert p in b.positions ==> HoldingSound(b, p);
    PriceOfOne(r.quantity);
    WholeFillRead(r);
    assert FillRefusal(b', r.id, NewOrder(r), f, r.quantity) == Some(ExitExceedsHolding);
  }

  lemma WholeFillRead(r: Request)
    requires r.quantity > 0.0
    ensures var read := Read(WholeFill(r), Equity);
            && read == Ok(Reading(Filled, r.quantity, r.quantity * 1.0, 0.0))
            && FirstRefusal(r.id, NewOrder(r), WholeFill(r), read.value).None?
            && NewPart(NewOrder(r), read.value) == Fill(r.quantity, r.quantity * 1.0, 0.0)
  {
  }

  lemma PriceOfOne(quantity: real)
    requires quantity > 0.0
    ensures quantity * 1.0 / quantity == 1.0
  {
    var price := quantity * 1.0 / quantity;
    assert price * quantity == quantity;
  }

  predicate Blamed(applied: Result<Book, Refusal>) {
    applied.Err? && BlamesBook(applied.error)
  }

  lemma JustReservedUnblamed(b: Book, r: Request, s: Snapshot, asset: AssetClass)
    requires Sound(b) && Reservable(b, r)
    requires !Oversells(b, r)
    ensures !Blamed(ApplySnapshot(Reserve(b, r), r.id, s, asset))
  {
    var o := NewOrder(r);
    var read := Read(s, asset);
    if read.Ok? && FirstRefusal(r.id, o, s, read.value).None? && NewPart(o, read.value).quantity != 0.0 {
      FirstFillUnblamed(b, r, NewPart(o, read.value));
    } else {
      UnfilledUnblamed(Reserve(b, r), r.id, s, asset);
    }
  }

  /** A snapshot that books nothing blames nothing. */
  lemma UnfilledUnblamed(b: Book, id: OrderId, s: Snapshot, asset: AssetClass)
    requires id in b.orders
    requires var read := Read(s, asset);
             !(read.Ok? && FirstRefusal(id, b.orders[id], s, read.value).None?
               && NewPart(b.orders[id], read.value).quantity != 0.0)
    ensures !Blamed(ApplySnapshot(b, id, s, asset))
  {
  }

  lemma FirstFillUnblamed(b: Book, r: Request, f: Fill)
    requires Sound(b) && Reservable(b, r) && 0.0 < f.quantity <= r.quantity
    requires !Oversells(b, r)
    ensures var refusal := FillRefusal(Reserve(b, r), r.id, NewOrder(r), f, f.quantity);
            refusal.Some? ==> !BlamesBook(refusal.value)
  {
    var p := r.intent.positionId;
    assert p in b.positions ==> HoldingSound(b, p);
    assert (r.id, f.quantity) !in b.trades;
  }
}
