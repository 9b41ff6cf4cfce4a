/** Two runs after which an inactive strategy holds a swap position, or has a swap out, unmonitored. */
module MonitorRaces {
  import opened Sums
  import opened BrokerBook
  import opened DexBook
  import opened ExitMonitor
  import opened DexMonitor

  const READER: ReaderId := 0

  const AGREED: Surroundings := Surroundings(false, false, false, true, true, true)

  /** A second process reads an entry's row, the entry is closed with its fees alone, and its strategy,
      flat now, is made inactive. */
  function Retirement(r: DexRequest): seq<Occurrence> {
    [Journal(DexReserveStep(r)), Journal(DexReadStep(READER, r.id)), Journal(FeeOnlyStep(r.id, true)),
     Lifecycle(Update(r.strategy, Inactive, AGREED, 1))]
  }

  predicate OrdinaryEntry(d: DexRows, r: DexRequest) {
    && DexFresh(d) && Monitored(AsBook(d)) && DexReservable(d, r) && r.action.Enter?
    && !d.strategies[r.strategy].bound && d.strategies[r.strategy].exitMonitor.None?
  }

  function ClosedEntry(r: DexRequest): DexOrder {
    ReservedOrder(r).(status := FeesOnly, context := Context(None, true, false))
  }

  lemma HandleFour(d: DexRows, events: seq<Occurrence>)
    requires |events| == 4
    ensures HandleAll(d, events) == Handle(Handle(Handle(Handle(d, events[0]), events[1]), events[2]), events[3])
  {
    var d1 := Handle(d, events[0]);
    var d2 := Handle(d1, events[1]);
    var d3 := Handle(d2, events[2]);
    assert events[1..][1..] == events[2..] && events[2..][1..] == events[3..] && events[3..][1..] == [];
    assert HandleAll(d, events) == HandleAll(d1, events[1..]) == HandleAll(d2, events[2..])
           == HandleAll(d3, events[3..]);
    assert HandleAll(d3, events[3..]) == HandleAll(Handle(d3, events[3]), []);
  }

  lemma {:induction false} HandleSnoc(d: DexRows, events: seq<Occurrence>, last: Occurrence)
    ensures HandleAll(d, events + [last]) == Handle(HandleAll(d, events), last)
    decreases |events|
  {
    if events == [] {
      assert ([] + [last])[1..] == [];
    } else {
      assert (events + [last])[1..] == events[1..] + [last];
      HandleSnoc(Handle(d, events[0]), events[1..], last);
    }
  }

  lemma RetirementRun(d: DexRows, r: DexRequest)
    requires OrdinaryEntry(d, r)
    ensures var now := HandleAll(d, Retirement(r));
            && now.orders == map[r.id := ClosedEntry(r)] && now.read == map[READER := OrderRead(r.id, NO_CONTEXT)]
            && now.positions == map[] && now.holdings == map[] && now.trades == map[]
            && r.strategy in now.strategies && now.strategies[r.strategy].status.Inactive?
            && now.strategies[r.strategy].exitMonitor.None?
            && Monitored(AsBook(now))
  {
    HandleFour(d, Retirement(r));
    ClosedRun(d, r);
    var events := Retirement(r);
    RetiredRow(Handle(Handle(Handle(d, events[0]), events[1]), events[2]), r.strategy);
  }

  /** A flat live strategy without a monitor becomes inactive without one. */
  lemma RetiredRow(d: DexRows, sid: StrategyId)
    requires Monitored(AsBook(d)) && sid in d.strategies && d.strategies[sid].status.Live?
    requires !d.strategies[sid].bound && d.strategies[sid].exitMonitor.None? && d.positions == map[]
    requires forall id | id in d.orders :: !Unfinished(d.orders[id].status)
    ensures var d' := DexPerform(d, Update(sid, Inactive, AGREED, 1));
            && d' == d.(strategies := d.strategies[sid := d.strategies[sid].(status := Inactive)])
            && Monitored(AsBook(d'))
  {
    var b, op := AsBook(d), Update(sid, Inactive, AGREED, 1);
    assert !Exposed(b, sid);
    assert UpdateCommits(b, sid, Inactive, AGREED) == [LifecycleStep(sid, Inactive, None)];
    assert Commits(b, op) == [LifecycleStep(sid, Inactive, None)];
    LastCommitStands(b, op);
    OperationMonitored(d, op);
    SameRowTwice(d.strategies[sid]);
  }

  lemma SameRowTwice(s: Strategy)
    requires s.exitMonitor.None?
    ensures s.(status := Inactive, exitMonitor := None) == s.(status := Inactive)
  {
  }

  /** The three transactions before the status change. */
  lemma ClosedRun(d: DexRows, r: DexRequest)
    requires OrdinaryEntry(d, r)
    ensures var events := Retirement(r);
            var now := Handle(Handle(Handle(d, events[0]), events[1]), events[2]);
            && now.orders == map[r.id := ClosedEntry(r)] && now.read == map[READER := OrderRead(r.id, NO_CONTEXT)]
            && now.positions == map[] && now.holdings == map[] && now.trades == map[]
            && now.strategies == BookRevised(d.strategies, r.strategy)
            && Monitored(AsBook(now))
  {
    var events := Retirement(r);
    var d1 := Handle(d, events[0]);
    var d2 := Handle(d1, events[1]);
    var d3 := Handle(d2, events[2]);
    assert d1 == d.(orders := map[r.id := ReservedOrder(r)]);
    assert d2 == d1.(read := map[READER := OrderRead(r.id, NO_CONTEXT)]);
    assert d3.orders == map[r.id := ClosedEntry(r)];
    DexMonitor.StepMonitored(d, DexReserveStep(r));
    DexMonitor.StepMonitored(d1, DexReadStep(READER, r.id));
    DexMonitor.StepMonitored(d2, FeeOnlyStep(r.id, true));
  }

  /** The late fill: the old reading books the entry after all. */
  lemma LateFillUnmonitored(d: DexRows, r: DexRequest, swap: Swap)
    requires OrdinaryEntry(d, r) && Proven(swap)
    ensures Monitored(AsBook(HandleAll(d, Retirement(r))))
    ensures var after := HandleAll(d, Retirement(r) + [Journal(FillStep(READER, swap, true))]);
            && r.position in after.positions && after.positions[r.position] == Position(r.strategy, true)
            && !Monitored(AsBook(after))
  {
    var retired, late := HandleAll(d, Retirement(r)), FillStep(READER, swap, true);
    RetirementRun(d, r);
    HandleSnoc(d, Retirement(r), Journal(late));
    assert DexNext(retired, late) == ApplyFill(retired, r.id, NO_CONTEXT, swap, true);
    LateFill(retired, r, swap);
  }

  lemma LateFill(d: DexRows, r: DexRequest, swap: Swap)
    requires Monitored(AsBook(d)) && r.action.Enter? && Proven(swap)
    requires d.orders == map[r.id := ClosedEntry(r)] && d.positions == map[] && d.holdings == map[] && d.trades == map[]
    requires r.strategy in d.strategies && !MayTrade(d.strategies[r.strategy])
    ensures var after := ApplyFill(d, r.id, NO_CONTEXT, swap, true);
            && r.position in after.positions && after.positions[r.position] == Position(r.strategy, true)
            && !Monitored(AsBook(after))
  {
    EntryFillMonitoredExactly(d, r.id, NO_CONTEXT, swap, true);
  }

  /** The late update: the executor of the old reading takes the closed order up again. */
  lemma LateUpdateUnmonitored(d: DexRows, r: DexRequest, hash: string)
    requires OrdinaryEntry(d, r)
    ensures Monitored(AsBook(HandleAll(d, Retirement(r))))
    ensures var after :=
            HandleAll(d, Retirement(r) + [Journal(DexWriteStep(READER, Patch(Some(Broadcasting), Some(hash), false)))]);
            && r.id in after.orders && after.orders[r.id].status.Broadcasting?
            && !Monitored(AsBook(after))
  {
    RetirementRun(d, r);
    var patch := Patch(Some(Broadcasting), Some(hash), false);
    HandleSnoc(d, Retirement(r), Journal(DexWriteStep(READER, patch)));
    UpdateMonitoredExactly(HandleAll(d, Retirement(r)), r.id, NO_CONTEXT, patch);
  }
}
