/** Snapshots are cumulative: how the broker chunks one order's fill does not matter. */
module BrokerChunking {
  import opened Sums
  import opened BrokerBook
  import opened BrokerAccounting
  import opened BrokerReservations

  /** Two books that agree on everything one order's fill decides: its filled amounts, every
      holding and unit cost, every position, and each strategy's total profit and loss. Only
      the order's own status, the split into trades and the logs may differ. */
  ghost predicate Alike(b: Book, c: Book, id: OrderId) {
    && id in b.orders && id in c.orders
    && b.orders == c.orders[id := b.orders[id]]
    && b.orders[id] == c.orders[id].(status := b.orders[id].status)
    && b.positions == c.positions && b.holdings == c.holdings && SameProfits(b, c)
  }

  ghost predicate SameProfits(b: Book, c: Book) {
    forall sid :: PnlBooked(b, sid) == PnlBooked(c, sid)
  }

  lemma SameTrades(b: Book, c: Book)
    requires b.trades == c.trades
    ensures SameProfits(b, c)
  {
  }

  /** Agreeing books hold the same cash and the same cost for every strategy. */
  lemma AlikeMoney(b: Book, c: Book, id: OrderId, sid: StrategyId)
    requires Alike(b, c, id)
    ensures CashMoved(b, sid) == CashMoved(c, sid) && CostHeld(b, sid) == CostHeld(c, sid)
            && PnlBooked(b, sid) == PnlBooked(c, sid)
  {
    FlowsSet(c.orders, id, b.orders[id], sid);
  }

  /** Two fills in a row as one. */
  function Joined(f: Fill, g: Fill): Fill {
    Fill(f.quantity + g.quantity, f.gross + g.gross, f.fees + g.fees)
  }

  lemma PositivePrice(gross: real, quantity: real)
    requires quantity > 0.0
    ensures gross / quantity <= 0.0 <==> gross <= 0.0
  {
    var price := gross / quantity;
    assert price * quantity == gross;
  }

  /** Averaging the cost twice is averaging it once. */
  lemma HoldingJoined(h: Holding, side: Side, f: Fill, g: Fill)
    requires h.quantity >= 0.0 && f.quantity > 0.0 && g.quantity > 0.0
    ensures HoldingAfter(HoldingAfter(h, side, f), side, g) == HoldingAfter(h, side, Joined(f, g))
  {
    if side.Buy? {
      var basis := h.quantity * h.unitCost + f.gross + f.fees;
      var total := h.quantity + f.quantity;
      assert total * (basis / total) == basis;
    }
  }

  lemma PnlJoined(h: Holding, side: Side, f: Fill, g: Fill)
    requires h.quantity >= 0.0 && f.quantity > 0.0 && g.quantity > 0.0
    ensures var whole := PnlOf(h, side, Joined(f, g));
            var first, second := PnlOf(h, side, f), PnlOf(HoldingAfter(h, side, f), side, g);
            && whole.Some? == first.Some? == second.Some?
            && (whole.Some? ==> whole.value == first.value + second.value)
  {
    if side.Sell? {
      assert (f.quantity + g.quantity) * h.unitCost == f.quantity * h.unitCost + g.quantity * h.unitCost;
    }
  }

  /** Two accepted fills of a pending order can be booked as one, with the same result. */
  lemma FillsJoin(b: Book, id: OrderId, o: Order, f: Fill, mid: real, g: Fill, upTo: real)
    requires Sound(b) && id in b.orders && o == b.orders[id] && Pending(o.status)
    requires f.quantity > 0.0 && g.quantity > 0.0 && o.filled < mid < upTo
    requires FillRefusal(b, id, o, f, mid).None? && FillRefusal(BookFill(b, id, o, f, mid), id, o, g, upTo).None?
    ensures FillRefusal(b, id, o, Joined(f, g), upTo).None?
    ensures var two := BookFill(BookFill(b, id, o, f, mid), id, o, g, upTo);
            var one := BookFill(b, id, o, Joined(f, g), upTo);
            two.holdings == one.holdings && two.positions == one.positions
  {
    JoinedAccepted(b, id, o, f, mid, g, upTo);
    var p := o.intent.positionId;
    assert OrderSound(b, o) && (p in b.positions ==> HoldingSound(b, p));
    HoldingJoined(HeldAt(b, p, o.strategy), o.intent.side, f, g);
    RowsJoined(b, id, o, f, mid, g, upTo);
  }

  lemma JoinedAccepted(b: Book, id: OrderId, o: Order, f: Fill, mid: real, g: Fill, upTo: real)
    requires Sound(b) && id in b.orders && o == b.orders[id]
    requires f.quantity > 0.0 && g.quantity > 0.0 && o.filled < mid < upTo
    requires FillRefusal(b, id, o, f, mid).None? && FillRefusal(BookFill(b, id, o, f, mid), id, o, g, upTo).None?
    ensures FillRefusal(b, id, o, Joined(f, g), upTo).None?
  {
    var p := o.intent.positionId;
    assert OrderSound(b, o) && (p in b.positions ==> HoldingSound(b, p));
    PositivePrice(f.gross, f.quantity);
    PositivePrice(g.gross, g.quantity);
    PositivePrice(f.gross + g.gross, f.quantity + g.quantity);
  }

  /** Writing a position's rows twice leaves what the second writing says. */
  lemma RowsJoined(b: Book, id: OrderId, o: Order, f: Fill, mid: real, g: Fill, upTo: real)
    requires f.quantity > 0.0 && g.quantity > 0.0
    requires FillRefusal(b, id, o, f, mid).None? && FillRefusal(BookFill(b, id, o, f, mid), id, o, g, upTo).None?
    requires FillRefusal(b, id, o, Joined(f, g), upTo).None?
    requires var held := HeldAt(b, PositionOf(id, o), o.strategy);
             && HoldingAfter(held, o.intent.side, Joined(f, g)) ==
                HoldingAfter(HoldingAfter(held, o.intent.side, f), o.intent.side, g)
    ensures var two := BookFill(BookFill(b, id, o, f, mid), id, o, g, upTo);
            var one := BookFill(b, id, o, Joined(f, g), upTo);
            two.holdings == one.holdings && two.positions == one.positions
  {
  }

  /** The two trades together book the profit the one would have. */
  lemma PnlsJoin(b: Book, id: OrderId, o: Order, f: Fill, mid: real, g: Fill, upTo: real, sid: StrategyId)
    requires Sound(b) && id in b.orders && o == b.orders[id] && Pending(o.status)
    requires f.quantity > 0.0 && g.quantity > 0.0 && o.filled < mid < upTo
    requires FillRefusal(b, id, o, f, mid).None? && FillRefusal(BookFill(b, id, o, f, mid), id, o, g, upTo).None?
    requires FillRefusal(b, id, o, Joined(f, g), upTo).None?
    ensures PnlBooked(BookFill(BookFill(b, id, o, f, mid), id, o, g, upTo), sid)
            == PnlBooked(BookFill(b, id, o, Joined(f, g), upTo), sid)
  {
    var p := o.intent.positionId;
    assert OrderSound(b, o) && (p in b.positions ==> HoldingSound(b, p));
    var held := HeldAt(b, p, o.strategy);
    var h1 := HoldingAfter(held, o.intent.side, f);
    var t1 := Trade(o.strategy, p, f.quantity, f.gross, f.fees, PnlOf(held, o.intent.side, f));
    var t2 := Trade(o.strategy, p, g.quantity, g.gross, g.fees, PnlOf(h1, o.intent.side, g));
    var j := Joined(f, g);
    PnlsSet(b.trades, (id, mid), t1, sid);
    PnlsSet(b.trades[(id, mid) := t1], (id, upTo), t2, sid);
    PnlsSet(b.trades, (id, upTo), Trade(o.strategy, p, j.quantity, j.gross, j.fees, PnlOf(held, o.intent.side, j)),
            sid);
    PnlJoined(held, o.intent.side, f, g);
  }

  /** What the checks before booking say of two snapshots also holds of the second alone. */
  lemma SecondAlone(id: OrderId, o: Order, s: Snapshot, r: Reading, t: Snapshot, q: Reading)
    requires FirstRefusal(id, o, s, r).None? && FirstRefusal(id, OrderAfter(o, s, r), t, q).None?
    ensures FirstRefusal(id, o, t, q).None?
    ensures NewPart(o, q) == Joined(NewPart(o, r), NewPart(OrderAfter(o, s, r), q))
    ensures OrderAfter(OrderAfter(o, s, r), t, q)
            == OrderAfter(o, t, q).(status := NextStatus(OrderAfter(o, s, r).status, q.status))
  {
  }

  /** A cumulative snapshot makes an earlier one of the same order redundant. */
  lemma SnapshotsJoin(b: Book, id: OrderId, s: Snapshot, t: Snapshot, asset: AssetClass)
    requires Sound(b) && ApplySnapshot(b, id, s, asset).Ok?
             && ApplySnapshot(ApplySnapshot(b, id, s, asset).value, id, t, asset).Ok?
    ensures ApplySnapshot(b, id, t, asset).Ok?
    ensures Alike(ApplySnapshot(ApplySnapshot(b, id, s, asset).value, id, t, asset).value,
                  ApplySnapshot(b, id, t, asset).value, id)
  {
    ReadingsJoin(b, id, s, Read(s, asset).value, t, Read(t, asset).value);
  }

  /** Both readings are accepted, one after the other. */
  predicate BothAccepted(b: Book, id: OrderId, s: Snapshot, r: Reading, t: Snapshot, q: Reading) {
    ApplyReading(b, id, s, r).Ok? && ApplyReading(ApplyReading(b, id, s, r).value, id, t, q).Ok?
  }

  /** The second reading alone is accepted and leaves the same. */
  ghost predicate SecondSuffices(b: Book, id: OrderId, s: Snapshot, r: Reading, t: Snapshot, q: Reading)
    requires BothAccepted(b, id, s, r, t, q)
  {
    && ApplyReading(b, id, t, q).Ok?
    && Alike(ApplyReading(ApplyReading(b, id, s, r).value, id, t, q).value, ApplyReading(b, id, t, q).value, id)
  }

  lemma ReadingsJoin(b: Book, id: OrderId, s: Snapshot, r: Reading, t: Snapshot, q: Reading)
    requires Sound(b) && BothAccepted(b, id, s, r, t, q)
    ensures SecondSuffices(b, id, s, r, t, q)
  {
    var o := b.orders[id];
    if NewPart(o, r).quantity == 0.0 {
      if NewPart(OrderAfter(o, s, r), q).quantity == 0.0 {
        BothEmpty(b, id, s, r, t, q);
      } else {
        FirstEmpty(b, id, s, r, t, q);
      }
    } else if NewPart(OrderAfter(o, s, r), q).quantity == 0.0 {
      SecondEmpty(b, id, s, r, t, q);
    } else {
      BothFill(b, id, s, r, t, q);
    }
  }

  lemma BothEmpty(b: Book, id: OrderId, s: Snapshot, r: Reading, t: Snapshot, q: Reading)
    requires BothAccepted(b, id, s, r, t, q)
    requires NewPart(b.orders[id], r).quantity == NewPart(OrderAfter(b.orders[id], s, r), q).quantity == 0.0
    ensures SecondSuffices(b, id, s, r, t, q)
  {
    var o, b1 := b.orders[id], ApplyReading(b, id, s, r).value;
    var o1 := OrderAfter(o, s, r);
    EmptyReading(b, id, s, r);
    EmptyReading(b1, id, t, q);
    SecondAlone(id, o, s, r, t, q);
    EmptyReading(b, id, t, q);
    SameTrades(b1, b);
    assert b1.orders == b.orders[id := o1];
    SetTwice(b.orders, id, o1, OrderAfter(o1, t, q));
    AlikeFills(b1, b, id, OrderAfter(o1, t, q), OrderAfter(o, t, q));
  }

  /** A reading that brings nothing new. */
  lemma EmptyReading(b: Book, id: OrderId, s: Snapshot, r: Reading)
    requires id in b.orders && NewPart(b.orders[id], r).quantity == 0.0
    ensures ApplyReading(b, id, s, r).Ok? <==>
              && FirstRefusal(id, b.orders[id], s, r).None?
              && NewPart(b.orders[id], r).gross == 0.0 && NewPart(b.orders[id], r).fees == 0.0
    ensures ApplyReading(b, id, s, r).Ok? ==>
              ApplyReading(b, id, s, r).value == Recorded(b, id, OrderAfter(b.orders[id], s, r))
  {
  }

  lemma SetTwice<K, V>(m: map<K, V>, k: K, v: V, w: V)
    ensures m[k := v][k := w] == m[k := w]
  {
  }

  lemma FirstEmpty(b: Book, id: OrderId, s: Snapshot, r: Reading, t: Snapshot, q: Reading)
    requires BothAccepted(b, id, s, r, t, q)
    requires NewPart(b.orders[id], r).quantity == 0.0 && NewPart(OrderAfter(b.orders[id], s, r), q).quantity != 0.0
    ensures SecondSuffices(b, id, s, r, t, q)
  {
    var o, b1 := b.orders[id], ApplyReading(b, id, s, r).value;
    var o1 := OrderAfter(o, s, r);
    var g := NewPart(o1, q);
    SecondAlone(id, o, s, r, t, q);
    assert NewPart(o, q) == g;
    SameFill(b, b1, id, o, o1, g, q.quantity);
    SameTrades(BookFill(b1, id, o1, g, q.quantity), BookFill(b, id, o, g, q.quantity));
    AlikeFills(BookFill(b1, id, o1, g, q.quantity), BookFill(b, id, o, g, q.quantity), id, OrderAfter(o1, t, q),
               OrderAfter(o, t, q));
  }

  lemma SecondEmpty(b: Book, id: OrderId, s: Snapshot, r: Reading, t: Snapshot, q: Reading)
    requires BothAccepted(b, id, s, r, t, q)
    requires NewPart(b.orders[id], r).quantity != 0.0 && NewPart(OrderAfter(b.orders[id], s, r), q).quantity == 0.0
    ensures SecondSuffices(b, id, s, r, t, q)
  {
    var o, b1 := b.orders[id], ApplyReading(b, id, s, r).value;
    var o1 := OrderAfter(o, s, r);
    SecondAlone(id, o, s, r, t, q);
    assert NewPart(o, q) == NewPart(o, r) && q.quantity == r.quantity;
    SameTrades(b1, BookFill(b, id, o, NewPart(o, q), q.quantity));
    AlikeFills(b1, BookFill(b, id, o, NewPart(o, q), q.quantity), id, OrderAfter(o1, t, q), OrderAfter(o, t, q));
  }

  lemma BothFill(b: Book, id: OrderId, s: Snapshot, r: Reading, t: Snapshot, q: Reading)
    requires Sound(b) && BothAccepted(b, id, s, r, t, q)
    requires NewPart(b.orders[id], r).quantity != 0.0 && NewPart(OrderAfter(b.orders[id], s, r), q).quantity != 0.0
    ensures SecondSuffices(b, id, s, r, t, q)
  {
    var o, b1 := b.orders[id], ApplyReading(b, id, s, r).value;
    var o1 := OrderAfter(o, s, r);
    var f, g := NewPart(o, r), NewPart(o1, q);
    var mid := BookFill(b, id, o, f, r.quantity);
    SecondAlone(id, o, s, r, t, q);
    SameFill(mid, b1, id, o, o1, g, q.quantity);
    FillsJoin(b, id, o, f, r.quantity, g, q.quantity);
    forall sid
      ensures PnlBooked(BookFill(b1, id, o1, g, q.quantity), sid)
              == PnlBooked(BookFill(b, id, o, Joined(f, g), q.quantity), sid)
    {
      PnlsJoin(b, id, o, f, r.quantity, g, q.quantity, sid);
    }
    AlikeFills(BookFill(b1, id, o1, g, q.quantity), BookFill(b, id, o, Joined(f, g), q.quantity), id,
               OrderAfter(o1, t, q), OrderAfter(o, t, q));
  }

  /** A fill reads no more of its order than the intent and the strategy. */
  lemma SameFill(b: Book, b1: Book, id: OrderId, o: Order, o1: Order, f: Fill, upTo: real)
    requires f.quantity != 0.0 && o1.intent == o.intent && o1.strategy == o.strategy
    requires b1.positions == b.positions && b1.holdings == b.holdings && b1.trades == b.trades
    ensures FillRefusal(b1, id, o1, f, upTo) == FillRefusal(b, id, o, f, upTo)
    ensures FillRefusal(b, id, o, f, upTo).None? ==>
              var c1, c := BookFill(b1, id, o1, f, upTo), BookFill(b, id, o, f, upTo);
              c1.positions == c.positions && c1.holdings == c.holdings && c1.trades == c.trades
              && c1.orders == b1.orders
  {
  }

  lemma AlikeFills(b: Book, c: Book, id: OrderId, o: Order, o': Order)
    requires b.positions == c.positions && b.holdings == c.holdings && o == o'.(status := o.status)
    requires b.orders[id := o] == c.orders[id := o]
    requires SameProfits(b, c)
    ensures Alike(Recorded(b, id, o), Recorded(c, id, o'), id)
  {
    forall sid ensures PnlBooked(Recorded(b, id, o), sid) == PnlBooked(Recorded(c, id, o'), sid) {
      assert PnlBooked(b, sid) == PnlBooked(c, sid);
    }
    assert c.orders[id := o'][id := o] == c.orders[id := o];
  }

  function ApplyAll(b: Book, id: OrderId, snapshots: seq<Snapshot>, asset: AssetClass): Result<Book, Refusal>
    decreases |snapshots|
  {
    if snapshots == [] then Ok(b)
    else
      var first := ApplySnapshot(b, id, snapshots[0], asset);
      if first.Err? then first else ApplyAll(first.value, id, snapshots[1..], asset)
  }

  lemma AlikeThrough(a: Book, b: Book, c: Book, id: OrderId)
    requires Alike(a, b, id) && Alike(b, c, id)
    ensures Alike(a, c, id)
  {
    assert a.orders == c.orders[id := a.orders[id]];
    forall sid ensures PnlBooked(a, sid) == PnlBooked(c, sid) {
      assert PnlBooked(a, sid) == PnlBooked(b, sid);
    }
  }

  /** Any accepted sequence of snapshots of one order leaves the same filled amounts,
      holdings, unit costs, positions, cash and total profit as the last one alone, which is
      then accepted too. */
  lemma {:induction false} ChunkingIndependent(b: Book, id: OrderId, snapshots: seq<Snapshot>, asset: AssetClass)
    requires Sound(b) && snapshots != [] && ApplyAll(b, id, snapshots, asset).Ok?
    ensures ApplySnapshot(b, id, snapshots[|snapshots| - 1], asset).Ok?
    ensures Alike(ApplyAll(b, id, snapshots, asset).value,
                  ApplySnapshot(b, id, snapshots[|snapshots| - 1], asset).value, id)
    decreases |snapshots|
  {
    var first := ApplySnapshot(b, id, snapshots[0], asset);
    var last := snapshots[|snapshots| - 1];
    if |snapshots| > 1 {
      SnapshotSound(b, id, snapshots[0], asset);
      ChunkingIndependent(first.value, id, snapshots[1..], asset);
      SnapshotsJoin(b, id, snapshots[0], last, asset);
      AlikeThrough(ApplyAll(b, id, snapshots, asset).value, ApplySnapshot(first.value, id, last, asset).value,
                   ApplySnapshot(b, id, last, asset).value, id);
    } else {
      assert ApplyAll(first.value, id, snapshots[1..], asset) == first;
      AlikeSelf(first.value, id);
    }
  }

  lemma AlikeSelf(b: Book, id: OrderId)
    requires id in b.orders
    ensures Alike(b, b, id)
  {
    assert b.orders == b.orders[id := b.orders[id]];
  }

  /** The status a run of reports leaves, one report at a time. */
  function StatusAfter(current: Status, reported: seq<Status>): Status
    decreases |reported|
  {
    if reported == [] then current else StatusAfter(NextStatus(current, reported[0]), reported[1..])
  }

  /** A closed order accepts only the report of its own status. */
  predicate Acceptable(current: Status, reported: seq<Status>)
    decreases |reported|
  {
    reported == []
    || ((!Pending(current) ==> reported[0] == current) && Acceptable(NextStatus(current, reported[0]), reported[1..]))
  }

  /** Every snapshot reports a state the journal knows. */
  predicate StatesKnown(snapshots: seq<Snapshot>) {
    forall k | 0 <= k < |snapshots| :: StatusNamed(snapshots[k].state).Some?
  }

  function Reported(snapshots: seq<Snapshot>): seq<Status>
    requires StatesKnown(snapshots)
  {
    seq(|snapshots|, k requires 0 <= k < |snapshots| => StatusNamed(snapshots[k].state).value)
  }

  lemma AppliedStatus(b: Book, id: OrderId, s: Snapshot, asset: AssetClass)
    requires ApplySnapshot(b, id, s, asset).Ok?
    ensures StatusNamed(s.state).Some? && id in b.orders && id in ApplySnapshot(b, id, s, asset).value.orders
    ensures var current, reported := b.orders[id].status, StatusNamed(s.state).value;
            && (!Pending(current) ==> reported == current)
            && ApplySnapshot(b, id, s, asset).value.orders[id].status == NextStatus(current, reported)
  {
  }

  lemma {:induction false} ApplyAllStatus(b: Book, id: OrderId, snapshots: seq<Snapshot>, asset: AssetClass)
    requires id in b.orders && ApplyAll(b, id, snapshots, asset).Ok?
    ensures StatesKnown(snapshots)
    ensures id in ApplyAll(b, id, snapshots, asset).value.orders && Acceptable(b.orders[id].status, Reported(snapshots))
    ensures ApplyAll(b, id, snapshots, asset).value.orders[id].status
            == StatusAfter(b.orders[id].status, Reported(snapshots))
    decreases |snapshots|
  {
    if snapshots != [] {
      AppliedStatus(b, id, snapshots[0], asset);
      ApplyAllStatus(ApplySnapshot(b, id, snapshots[0], asset).value, id, snapshots[1..], asset);
      assert Reported(snapshots)[1..] == Reported(snapshots[1..]);
    }
  }

  lemma {:induction false} StatusAfterIs(current: Status, reported: seq<Status>)
    requires reported != [] && Acceptable(current, reported)
    ensures var last := reported[|reported| - 1];
            && StatusAfter(current, reported)
               == (if Pending(last) && (current.CancelPending? || CancelPending in reported) then CancelPending
                   else last)
            && (!Pending(current) ==> last == current)
    decreases |reported|
  {
    if |reported| > 1 {
      StatusAfterIs(NextStatus(current, reported[0]), reported[1..]);
      assert reported == [reported[0]] + reported[1..];
    }
  }

  /** Status is what chunking can change: once a cancellation is outstanding, a later open or
      partial report no longer shows. Otherwise the last report decides. */
  lemma FinalStatus(b: Book, id: OrderId, snapshots: seq<Snapshot>, asset: AssetClass)
    requires snapshots != [] && id in b.orders && ApplyAll(b, id, snapshots, asset).Ok?
    ensures StatesKnown(snapshots)
    ensures var last := Reported(snapshots)[|snapshots| - 1];
            var whole := ApplyAll(b, id, snapshots, asset).value;
            && id in whole.orders
            && whole.orders[id].status ==
                 if Pending(last) && (b.orders[id].status.CancelPending? || CancelPending in Reported(snapshots))
                 then CancelPending else last
  {
    ApplyAllStatus(b, id, snapshots, asset);
    StatusAfterIs(b.orders[id].status, Reported(snapshots));
  }

  /** Applying an accepted snapshot again is accepted and writes one more event, nothing else. */
  lemma ReapplyIsHarmless(b: Book, id: OrderId, s: Snapshot, asset: AssetClass)
    requires ApplySnapshot(b, id, s, asset).Ok?
    ensures var once := ApplySnapshot(b, id, s, asset).value;
            var twice := ApplySnapshot(once, id, s, asset);
            && twice.Ok?
            && twice.value == once.(events := once.events + [Event(id, once.orders[id].status, once.orders[id].filled)])
  {
    var once := ApplySnapshot(b, id, s, asset).value;
    var o, r := b.orders[id], Read(s, asset).value;
    var o1 := OrderAfter(o, s, r);
    assert once.orders[id] == o1 && OrderAfter(o1, s, r) == o1;
    assert once.orders[id := o1] == once.orders;
  }
}
