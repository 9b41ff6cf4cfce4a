/** Runs from a fresh journal to the states where its callers' discipline is needed. */
module BrokerCorners {
  import opened Sums
  import opened BrokerBook
  import opened BrokerAccounting
  import opened BrokerReservations

  lemma FreshSound(b: Book)
    requires Fresh(b)
    ensures Sound(b)
  {
  }

  /** An entry that sells is reserved on any fresh book with a live strategy, and its fill is then
      refused for the book's sake. */
  lemma OversellingIsBlamed(b: Book, r: Request)
    requires Fresh(b) && Reservable(b, r) && r.intent.action.Enter? && r.intent.side.Sell? && r.quantity > 0.0
    ensures Run(b, [ReserveStep(r)]) == Reserve(b, r) && r.id in Reserve(b, r).orders
    ensures Blamed(ApplySnapshot(Run(b, [ReserveStep(r)]), r.id, WholeFill(r), Equity))
  {
    FreshSound(b);
    assert Run(b, [ReserveStep(r)]) == Run(Next(b, ReserveStep(r)), []);
    OversoldBlamed(b, r);
  }

  const POSITION: PositionId := "position"
  const ENTRY: OrderId := "entry"
  const EXIT: OrderId := "exit"

  function Bought(sid: StrategyId, revision: (nat, nat)): Request {
    Request(sid, "evaluation", Intent(Enter, Buy, "ETH", 1.0, POSITION, None), 1.0, ENTRY, Some(revision))
  }

  function Sold(sid: StrategyId): Request {
    Request(sid, "evaluation", Intent(Exit, Sell, "ETH", 1.0, POSITION, None), 1.0, EXIT, None)
  }

  /** Buy one unit, then sell it. */
  function RoundTrip(sid: StrategyId, revision: (nat, nat)): seq<Step> {
    [ReserveStep(Bought(sid, revision)), SnapshotStep(ENTRY, WholeFill(Bought(sid, revision)), Equity),
     ReserveStep(Sold(sid)), SnapshotStep(EXIT, WholeFill(Sold(sid)), Equity)]
  }

  function FilledOrder(r: Request): Order {
    NewOrder(r).(status := Filled, filled := 1.0, notional := 1.0)
  }

  /** A one-unit order's first snapshot books it whole. */
  lemma OneUnit(b: Book, r: Request)
    requires r.quantity == 1.0 && r.id in b.orders && b.orders[r.id] == NewOrder(r) && r.intent.positionId != ""
    requires FillRefusal(b, r.id, NewOrder(r), Fill(1.0, 1.0, 0.0), 1.0).None?
    ensures Next(b, SnapshotStep(r.id, WholeFill(r), Equity))
            == Recorded(BookFill(b, r.id, NewOrder(r), Fill(1.0, 1.0, 0.0), 1.0), r.id, FilledOrder(r))
  {
    WholeFillRead(r);
    assert 1.0 * 1.0 == 1.0;
  }

  lemma FourSteps(b: Book, steps: seq<Step>)
    requires |steps| == 4
    ensures Run(b, steps) == Next(Next(Next(Next(b, steps[0]), steps[1]), steps[2]), steps[3])
  {
    var b1 := Next(b, steps[0]);
    var b2 := Next(b1, steps[1]);
    var b3 := Next(b2, steps[2]);
    assert steps[1..][1..] == steps[2..] && steps[2..][1..] == steps[3..] && steps[3..][1..] == [];
    assert Run(b, steps) == Run(b1, steps[1..]) == Run(b2, steps[2..]) == Run(b3, steps[3..]);
    assert Run(b3, steps[3..]) == Run(Next(b3, steps[3]), []);
  }

  lemma BuyRun(b: Book, sid: StrategyId)
    requires Fresh(b) && sid in b.strategies && b.strategies[sid].status.Live?
    ensures var revision := (b.strategies[sid].executionRevision, b.strategies[sid].bookRevision);
            var now := Next(Next(b, ReserveStep(Bought(sid, revision))),
                            SnapshotStep(ENTRY, WholeFill(Bought(sid, revision)), Equity));
            && now.orders == map[ENTRY := FilledOrder(Bought(sid, revision))]
            && now.positions == map[POSITION := Position(sid, true)]
            && now.holdings == map[POSITION := Holding(sid, 1.0, 1.0)]
            && now.trades.Keys == {(ENTRY, 1.0)}
            && sid in now.strategies && now.strategies[sid].status.Live?
  {
    var revision := (b.strategies[sid].executionRevision, b.strategies[sid].bookRevision);
    var r := Bought(sid, revision);
    var reserved := Next(b, ReserveStep(r));
    assert reserved == b.(orders := map[ENTRY := NewOrder(r)]);
    OneUnit(reserved, r);
  }

  lemma SellRun(b: Book, sid: StrategyId)
    requires sid in b.strategies && b.strategies[sid].status.Live?
    requires ENTRY in b.orders && b.orders.Keys == {ENTRY} && !Pending(b.orders[ENTRY].status)
    requires b.orders[ENTRY].key == KeyOf("evaluation", Intent(Enter, Buy, "ETH", 1.0, POSITION, None))
    requires b.positions == map[POSITION := Position(sid, true)]
             && b.holdings == map[POSITION := Holding(sid, 1.0, 1.0)]
    requires b.trades.Keys == {(ENTRY, 1.0)}
    ensures var now := Next(Next(b, ReserveStep(Sold(sid))), SnapshotStep(EXIT, WholeFill(Sold(sid)), Equity));
            && now.orders == b.orders[EXIT := FilledOrder(Sold(sid))]
            && now.positions == map[POSITION := Position(sid, false)]
  {
    var r := Sold(sid);
    var reserved := Next(b, ReserveStep(r));
    assert reserved == b.(orders := b.orders[EXIT := NewOrder(r)]);
    OneUnit(reserved, r);
  }

  /** From any fresh book with a live strategy: after buying and selling a position, a mark brings the
      closed entry back, pending for a position that is closed. */
  lemma MarkRevivesClosedEntry(b: Book, sid: StrategyId)
    requires Fresh(b) && sid in b.strategies && b.strategies[sid].status.Live?
    ensures var revision := (b.strategies[sid].executionRevision, b.strategies[sid].bookRevision);
            var now := Run(b, RoundTrip(sid, revision));
            && Sound(now) && ENTRY in now.orders && now.orders[ENTRY].status.Filled? && Markable(now, ENTRY, Uncertain)
            && !Sound(Mark(now, ENTRY, Uncertain, "", ""))
  {
    var revision := (b.strategies[sid].executionRevision, b.strategies[sid].bookRevision);
    var steps := RoundTrip(sid, revision);
    var bought := Next(Next(b, steps[0]), steps[1]);
    var now := Run(b, steps);
    FourSteps(b, steps);
    BuyRun(b, sid);
    SellRun(bought, sid);
    RoundTripSound(b, sid, revision);
    ClosedEntryRevived(now, sid, revision);
  }

  lemma ClosedEntryRevived(b: Book, sid: StrategyId, revision: (nat, nat))
    requires Sound(b) && b.positions == map[POSITION := Position(sid, false)]
    requires b.orders == map[ENTRY := FilledOrder(Bought(sid, revision)), EXIT := FilledOrder(Sold(sid))]
    ensures ENTRY in b.orders && b.orders[ENTRY].status.Filled? && Markable(b, ENTRY, Uncertain)
    ensures !Sound(Mark(b, ENTRY, Uncertain, "", ""))
  {
    assert !Covered(b, b.orders[ENTRY]);
    MarkSoundExactly(b, ENTRY, Uncertain, "", "");
  }

  lemma RoundTripSound(b: Book, sid: StrategyId, revision: (nat, nat))
    requires Fresh(b)
    ensures Sound(Run(b, RoundTrip(sid, revision)))
  {
    var steps := RoundTrip(sid, revision);
    var b1 := Next(b, steps[0]);
    var b2 := Next(b1, steps[1]);
    var b3 := Next(b2, steps[2]);
    FreshSound(b);
    NextSound(b, steps[0]);
    NextSound(b1, steps[1]);
    OneOwner(b, sid, revision);
    NextSound(b2, steps[2]);
    NextSound(b3, steps[3]);
    FourSteps(b, steps);
  }

  lemma OneOwner(b: Book, sid: StrategyId, revision: (nat, nat))
    requires Fresh(b)
    ensures var b2 := Next(Next(b, RoundTrip(sid, revision)[0]), RoundTrip(sid, revision)[1]);
            forall j | j in b2.orders :: b2.orders[j].strategy == sid
  {
  }
}
