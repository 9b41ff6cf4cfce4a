/** Two runs in which one process commits what it read before another process booked a fill. */
module DexRaces {
  import opened Sums
  import opened BrokerBook
  import opened DexBook
  import opened DexAccounting

  lemma {:induction false} RunSnoc(b: DexRows, steps: seq<DexStep>, last: DexStep)
    ensures DexRun(b, steps + [last]) == DexNext(DexRun(b, steps), last)
    decreases |steps|
  {
    if steps == [] {
      assert ([] + [last])[1..] == [];
    } else {
      assert (steps + [last])[1..] == steps[1..] + [last];
      RunSnoc(DexNext(b, steps[0]), steps[1..], last);
    }
  }

  const SENDER: ReaderId := 0
  const RECONCILER: ReaderId := 1
  const LATECOMER: ReaderId := 2

  const NOTHING_NEW: Patch := Patch(None, None, false)

  /** An order is reserved; its executor records the hash it is about to broadcast; a reconciler and
      another process then read the row. */
  function Approach(r: DexRequest, hash: string): seq<DexStep> {
    [DexReserveStep(r), DexReadStep(SENDER, r.id), DexWriteStep(SENDER, Patch(Some(Broadcasting), Some(hash), false)),
     DexReadStep(RECONCILER, r.id), DexReadStep(LATECOMER, r.id)]
  }

  function Sent(r: DexRequest, hash: string): DexOrder {
    ReservedOrder(r).(status := Broadcasting, txHash := Some(hash))
  }

  lemma ReservedAndSent(b: DexRows, r: DexRequest, hash: string)
    requires DexFresh(b) && DexReservable(b, r)
    ensures var steps := Approach(r, hash);
            var b1 := DexNext(b, steps[0]);
            var b2 := DexNext(b1, steps[1]);
            && b1 == b.(orders := map[r.id := ReservedOrder(r)])
            && b2 == b1.(read := map[SENDER := OrderRead(r.id, NO_CONTEXT)])
            && DexNext(b2, steps[2]) == b2.(orders := map[r.id := Sent(r, hash)])
  {
    var steps := Approach(r, hash);
    var b1 := DexNext(b, steps[0]);
    assert b1 == b.(orders := map[r.id := ReservedOrder(r)]);
  }

  lemma {:induction false} ApproachRun(b: DexRows, r: DexRequest, hash: string)
    requires DexFresh(b) && DexReservable(b, r)
    ensures var seen := OrderRead(r.id, NO_CONTEXT);
            DexRun(b, Approach(r, hash)) ==
            b.(orders := map[r.id := Sent(r, hash)], read := map[SENDER := seen, RECONCILER := seen, LATECOMER := seen])
    ensures AllCurrent(b, Approach(r, hash))
  {
    var steps := Approach(r, hash);
    var b1 := DexNext(b, steps[0]);
    var b2 := DexNext(b1, steps[1]);
    var b3 := DexNext(b2, steps[2]);
    var b4 := DexNext(b3, steps[3]);
    ReservedAndSent(b, r, hash);
    assert b4.read == map[SENDER := OrderRead(r.id, NO_CONTEXT), RECONCILER := OrderRead(r.id, NO_CONTEXT)];
    FiveSteps(b, steps);
    NothingConfirmed(b1, steps[1]);
    NothingConfirmed(b2, steps[2]);
  }

  /** Whatever was read of orders that are not confirmed may be written back. */
  lemma NothingConfirmed(b: DexRows, step: DexStep)
    requires forall id | id in b.orders :: !b.orders[id].status.Confirmed?
    ensures StepCurrent(b, step)
  {
  }

  lemma FiveSteps(b: DexRows, steps: seq<DexStep>)
    requires |steps| == 5
    ensures var b1 := DexNext(b, steps[0]);
            var b2 := DexNext(b1, steps[1]);
            var b3 := DexNext(b2, steps[2]);
            var b4 := DexNext(b3, steps[3]);
            && DexRun(b, steps) == DexNext(b4, steps[4])
            && (AllCurrent(b, steps) <==>
                  && StepCurrent(b, steps[0]) && StepCurrent(b1, steps[1]) && StepCurrent(b2, steps[2])
                  && StepCurrent(b3, steps[3]) && StepCurrent(b4, steps[4]))
  {
    var b1 := DexNext(b, steps[0]);
    var b2 := DexNext(b1, steps[1]);
    var b3 := DexNext(b2, steps[2]);
    var b4 := DexNext(b3, steps[3]);
    var s1, s2, s3, s4 := steps[1..], steps[2..], steps[3..], steps[4..];
    assert s1[1..] == s2 && s2[1..] == s3 && s3[1..] == s4 && s4[1..] == [];
    assert DexRun(b, steps) == DexRun(b1, s1);
    assert DexRun(b1, s1) == DexRun(b2, s2);
    assert DexRun(b2, s2) == DexRun(b3, s3);
    assert DexRun(b3, s3) == DexRun(b4, s4);
    assert DexRun(b4, s4) == DexRun(DexNext(b4, steps[4]), []);
    assert AllCurrent(b, steps) <==> StepCurrent(b, steps[0]) && AllCurrent(b1, s1);
    assert AllCurrent(b1, s1) <==> StepCurrent(b1, steps[1]) && AllCurrent(b2, s2);
    assert AllCurrent(b2, s2) <==> StepCurrent(b2, steps[2]) && AllCurrent(b3, s3);
    assert AllCurrent(b3, s3) <==> StepCurrent(b3, steps[3]) && AllCurrent(b4, s4);
    assert AllCurrent(b4, s4) <==> StepCurrent(b4, steps[4]) && AllCurrent(DexNext(b4, steps[4]), []);
  }

  lemma {:induction false} CurrentSnoc(b: DexRows, steps: seq<DexStep>, last: DexStep)
    ensures AllCurrent(b, steps + [last]) <==> AllCurrent(b, steps) && StepCurrent(DexRun(b, steps), last)
    decreases |steps|
  {
    if steps == [] {
      assert ([] + [last])[1..] == [];
    } else {
      assert (steps + [last])[1..] == steps[1..] + [last];
      CurrentSnoc(DexNext(b, steps[0]), steps[1..], last);
    }
  }

  /** The reconciler books the fill. */
  function Settlement(r: DexRequest, hash: string, swap: Swap): seq<DexStep> {
    Approach(r, hash) + [FillStep(RECONCILER, swap, true)]
  }

  lemma SettlementRun(b: DexRows, r: DexRequest, hash: string, swap: Swap)
    requires DexFresh(b) && r.action.Enter? && DexReservable(b, r) && Proven(swap)
    ensures var now := DexRun(b, Settlement(r, hash, swap));
            && AllCurrent(b, Settlement(r, hash, swap))
            && now.orders
               == map[r.id := Sent(r, hash).(status := Confirmed, context := Context(Some(swap), true, false))]
            && now.trades == map[r.id := DexTrade(r.strategy, Enter, swap, true, None)]
            && now.holdings
               == map[r.position := DexHolding(r.strategy, swap.received, swap.spent / swap.received, true)]
            && (forall reader | reader in now.read :: now.read[reader] == OrderRead(r.id, NO_CONTEXT))
            && LATECOMER in now.read
  {
    var fill := FillStep(RECONCILER, swap, true);
    ApproachRun(b, r, hash);
    RunSnoc(b, Approach(r, hash), fill);
    CurrentSnoc(b, Approach(r, hash), fill);
  }

  /** An order that only paid fees, by its status, though its fill is booked and held; the strategy's
      books do not balance. */
  ghost predicate ConfirmationUndone(b: DexRows, r: DexRequest, swap: Swap) {
    && r.id in b.orders && b.orders[r.id].status.FeesOnly?
    && r.id in b.trades && r.position in b.holdings && b.holdings[r.position].quantity == swap.received
    && !Settled(b) && !DexBalancedFor(b, r.strategy)
  }

  /** The fee record of an old reading. An approval is read while its swap is unsigned, the swap is
      filled and booked, and then the record of fees alone commits: the order is confirmed no more,
      its fill is booked and held, and the complete book is out of balance. */
  lemma StaleFeeRecordUndoesConfirmation(b: DexRows, r: DexRequest, hash: string, swap: Swap)
    requires DexFresh(b) && r.action.Enter? && DexReservable(b, r) && Proven(swap)
    ensures ConfirmationUndone(DexRun(b, Settlement(r, hash, swap) + [FeeOnlyStep(r.id, true)]), r, swap)
  {
    SettlementBalances(b, r, hash, swap);
    RunSnoc(b, Settlement(r, hash, swap), FeeOnlyStep(r.id, true));
    FeesRecordedLate(DexRun(b, Settlement(r, hash, swap)), r, swap);
  }

  lemma SettlementBalances(b: DexRows, r: DexRequest, hash: string, swap: Swap)
    requires DexFresh(b) && r.action.Enter? && DexReservable(b, r) && Proven(swap)
    ensures BookedWhole(DexRun(b, Settlement(r, hash, swap)), r, swap)
  {
    SettlementRun(b, r, hash, swap);
    DexFreshBalances(b, r.strategy);
    CurrentRunBalances(b, Settlement(r, hash, swap), r.strategy);
  }

  /** An entry's fill is confirmed, booked and held, and the strategy's books balance. */
  ghost predicate BookedWhole(b: DexRows, r: DexRequest, swap: Swap) {
    && DexSound(b) && Settled(b) && DexBalancedFor(b, r.strategy) && FinanciallyComplete(b, r.strategy)
    && r.id in b.orders && b.orders[r.id].status.Confirmed? && b.orders[r.id].strategy == r.strategy
    && r.id in b.trades && r.position in b.holdings && b.holdings[r.position].quantity == swap.received
  }

  lemma FeesRecordedLate(b: DexRows, r: DexRequest, swap: Swap)
    requires BookedWhole(b, r, swap)
    ensures ConfirmationUndone(FeeOnly(b, r.id, true), r, swap)
  {
    StaleFeeRecordMisstatesCash(b, r.id, true);
    FeeOnlySettledExactly(b, r.id, true);
  }

  /** What a stale fee record costs: the fill stays booked and held, but its cash is forgotten, so
      a balanced complete book is off by exactly the order's flow. */
  lemma StaleFeeRecordMisstatesCash(b: DexRows, id: OrderId, complete: bool)
    requires DexSound(b) && Settled(b) && id in b.orders && b.orders[id].status.Confirmed?
    requires DexBalancedFor(b, b.orders[id].strategy) && FinanciallyComplete(b, b.orders[id].strategy)
    ensures var sid, b' := b.orders[id].strategy, FeeOnly(b, id, complete);
            && Total(DexFlows(b'.orders, sid)) + Total(DexCosts(b'.holdings, sid))
               == Total(DexPnls(b'.trades, sid)) - DexFlow(b.orders[id])
            && !DexBalancedFor(b', sid)
  {
    assert TradeKept(b, id) && Settles(b.orders[id].context, b.trades[id]);
    DexFlowsSet(b.orders, id, FeeOnly(b, id, complete).orders[id], b.orders[id].strategy);
  }

  /** The context of an old reading. A second process reads the row to record an error, the fill is
      booked, and then the update writes the old context back: the order stays confirmed, but its
      settlement and its completeness are gone. Every step before the last is current. */
  lemma StaleContextLosesSettlement(b: DexRows, r: DexRequest, hash: string, swap: Swap)
    requires DexFresh(b) && r.action.Enter? && DexReservable(b, r) && Proven(swap)
    ensures AllCurrent(b, Settlement(r, hash, swap))
    ensures var after := DexRun(b, Settlement(r, hash, swap) + [DexWriteStep(LATECOMER, NOTHING_NEW)]);
            && r.id in after.orders && after.orders[r.id].status.Confirmed?
            && after.orders[r.id].context == NO_CONTEXT
            && r.id in after.trades && r.position in after.holdings
            && after.holdings[r.position].quantity == swap.received
            && !Settled(after) && SettlementLost(after, r.id)
  {
    SettlementRun(b, r, hash, swap);
    RunSnoc(b, Settlement(r, hash, swap), DexWriteStep(LATECOMER, NOTHING_NEW));
  }

  /** A booked order without its settlement, which no reader holds either. */
  predicate SettlementLost(b: DexRows, id: OrderId) {
    && id in b.orders && id in b.trades && b.orders[id].context.fill.None?
    && forall reader | reader in b.read && b.read[reader].id == id :: b.read[reader].context.fill.None?
  }

  lemma LostByStep(b: DexRows, step: DexStep, id: OrderId)
    requires SettlementLost(b, id)
    ensures SettlementLost(DexNext(b, step), id)
  {
    match step
    case FillStep(_, _, _) =>
    case DexWriteStep(_, _) =>
    case DexReadStep(_, _) =>
    case DexReserveStep(_) =>
    case FeeOnlyStep(_, _) =>
    case DexCommitStep(_, _) =>
    case DexAllocateStep(_) =>
    case DexLifecycleStep(_, _, _) =>
  }

  /** Nothing brings a lost settlement back: the fill is booked already, so it is never booked again,
      and no context in use holds it. */
  lemma {:induction false} LostForGood(b: DexRows, steps: seq<DexStep>, id: OrderId)
    requires SettlementLost(b, id)
    ensures SettlementLost(DexRun(b, steps), id)
    decreases |steps|
  {
    if steps != [] {
      LostByStep(b, steps[0], id);
      LostForGood(DexNext(b, steps[0]), steps[1..], id);
    }
  }
}
