/** The fences of a swap entry: from the evaluation's reading to its reservation, and from there to
    its broadcast. */
module DexFences {
  import opened Sums
  import opened BrokerBook
  import opened DexBook
  import opened DexAccounting

  /** The step is an evaluation's accepted commit for this strategy. */
  predicate Committed(b: DexRows, step: DexStep, sid: StrategyId) {
    && step.DexCommitStep? && step.sid == sid && sid in b.strategies
    && step.revision == (b.strategies[sid].executionRevision, b.strategies[sid].bookRevision)
  }

  /** The step is the strategy's first allocation of capital. */
  predicate Allocated(b: DexRows, step: DexStep, sid: StrategyId) {
    step.DexAllocateStep? && step.sid == sid && DexAllocatable(b, sid)
  }

  /** The step settles an order of the strategy: by its fill, or by its fees alone. */
  predicate Booked(b: DexRows, step: DexStep, sid: StrategyId) {
    match step
    case FillStep(reader, swap, _) =>
      && reader in b.read && Proven(swap) && Fillable(b, b.read[reader].id, swap)
      && b.orders[b.read[reader].id].strategy == sid
    case FeeOnlyStep(id, _) => id in b.orders && !b.orders[id].status.FeesOnly? && b.orders[id].strategy == sid
    case _ => false
  }

  function CommitsIn(b: DexRows, steps: seq<DexStep>, sid: StrategyId): nat
    decreases |steps|
  {
    if steps == [] then 0
    else (if Committed(b, steps[0], sid) then 1 else 0) + CommitsIn(DexNext(b, steps[0]), steps[1..], sid)
  }

  function AllocationsIn(b: DexRows, steps: seq<DexStep>, sid: StrategyId): nat
    decreases |steps|
  {
    if steps == [] then 0
    else (if Allocated(b, steps[0], sid) then 1 else 0) + AllocationsIn(DexNext(b, steps[0]), steps[1..], sid)
  }

  function BookingsIn(b: DexRows, steps: seq<DexStep>, sid: StrategyId): nat
    decreases |steps|
  {
    if steps == [] then 0
    else (if Booked(b, steps[0], sid) then 1 else 0) + BookingsIn(DexNext(b, steps[0]), steps[1..], sid)
  }

  /** One strategy row's two revisions advance by so much. */
  predicate Advances(rows: map<StrategyId, Strategy>, rows': map<StrategyId, Strategy>, sid: StrategyId,
                     executions: nat, bookings: nat)
    requires sid in rows
  {
    && sid in rows'
    && rows'[sid].executionRevision == rows[sid].executionRevision + executions
    && rows'[sid].bookRevision == rows[sid].bookRevision + bookings
  }

  lemma FillAdvances(b: DexRows, id: OrderId, context: Context, swap: Swap, feesKnown: bool, sid: StrategyId)
    requires sid in b.strategies
    ensures Advances(b.strategies, ApplyFill(b, id, context, swap, feesKnown).strategies, sid, 0,
                     if Fillable(b, id, swap) && b.orders[id].strategy == sid then 1 else 0)
  {
  }

  lemma FeeOnlyAdvances(b: DexRows, id: OrderId, complete: bool, sid: StrategyId)
    requires sid in b.strategies
    ensures Advances(b.strategies, FeeOnly(b, id, complete).strategies, sid, 0,
                     if id in b.orders && !b.orders[id].status.FeesOnly? && b.orders[id].strategy == sid then 1 else 0)
  {
  }

  lemma ExecutionAdvances(rows: map<StrategyId, Strategy>, owner: StrategyId, sid: StrategyId)
    requires sid in rows
    ensures Advances(rows, ExecutionRevised(rows, owner), sid, if owner == sid then 1 else 0, 0)
  {
  }

  lemma WriteAdvances(b: DexRows, id: OrderId, context: Context, patch: Patch, sid: StrategyId)
    requires sid in b.strategies
    ensures Advances(b.strategies, DexWrite(b, id, context, patch).strategies, sid, 0, 0)
  {
  }

  lemma RevisionStep(b: DexRows, step: DexStep, sid: StrategyId)
    requires sid in b.strategies
    ensures Advances(b.strategies, DexNext(b, step).strategies, sid,
                     (if Committed(b, step, sid) then 1 else 0) + (if Allocated(b, step, sid) then 1 else 0),
                     if Booked(b, step, sid) then 1 else 0)
  {
    match step
    case FillStep(reader, swap, feesKnown) =>
      if reader in b.read {
        FillAdvances(b, b.read[reader].id, b.read[reader].context, swap, feesKnown, sid);
      }
    case FeeOnlyStep(id, complete) => FeeOnlyAdvances(b, id, complete, sid);
    case DexWriteStep(reader, patch) =>
      if reader in b.read {
        WriteAdvances(b, b.read[reader].id, b.read[reader].context, patch, sid);
      }
    case DexCommitStep(owner, _) => ExecutionAdvances(b.strategies, owner, sid);
    case DexAllocateStep(owner) => ExecutionAdvances(b.strategies, owner, sid);
    case DexReserveStep(_) =>
    case DexReadStep(_, _) =>
    case DexLifecycleStep(_, _, _) =>
  }

  /** The revisions count settlements, and commits and first allocations, and nothing else moves
      them. */
  lemma {:induction false} RevisionsMove(b: DexRows, steps: seq<DexStep>, sid: StrategyId)
    requires sid in b.strategies
    ensures sid in DexRun(b, steps).strategies
    ensures DexRun(b, steps).strategies[sid].executionRevision
            == b.strategies[sid].executionRevision + CommitsIn(b, steps, sid) + AllocationsIn(b, steps, sid)
    ensures DexRun(b, steps).strategies[sid].bookRevision
            == b.strategies[sid].bookRevision + BookingsIn(b, steps, sid)
    decreases |steps|
  {
    if steps != [] {
      RevisionStep(b, steps[0], sid);
      RevisionsMove(DexNext(b, steps[0]), steps[1..], sid);
    }
  }

  lemma OrderKeptByStep(b: DexRows, step: DexStep, id: OrderId)
    requires id in b.orders
    ensures id in DexNext(b, step).orders && SameOrder(b.orders[id], DexNext(b, step).orders[id])
  {
    if !(step.FillStep? && step.reader in b.read && Proven(step.swap)) {
      OtherStep(b, step);
    }
  }

  /** No step rewrites an order's intent or the revision it was reserved at. */
  lemma {:induction false} OrderKept(b: DexRows, steps: seq<DexStep>, id: OrderId)
    requires id in b.orders
    ensures id in DexRun(b, steps).orders && SameOrder(b.orders[id], DexRun(b, steps).orders[id])
    decreases |steps|
  {
    if steps != [] {
      OrderKeptByStep(b, steps[0], id);
      OrderKept(DexNext(b, steps[0]), steps[1..], id);
    }
  }

  /** If a swap entry is reserved at the revision its evaluation's commit has reached, then since the
      evaluation read its revision nothing of the strategy was settled; and if that commit was
      accepted, it is the only one, from the revision read, and no capital was allocated. */
  lemma ReservationFence(b: DexRows, steps: seq<DexStep>, r: DexRequest)
    requires r.strategy in b.strategies && r.action.Enter?
    requires var s := b.strategies[r.strategy]; r.revision == Some((s.executionRevision + 1, s.bookRevision))
    requires DexReservable(DexRun(b, steps), r)
    ensures BookingsIn(b, steps, r.strategy) == 0
    ensures CommitsIn(b, steps, r.strategy) + AllocationsIn(b, steps, r.strategy) == 1
    ensures forall k | 0 <= k < |steps| && Committed(DexRun(b, steps[..k]), steps[k], r.strategy) ::
              && steps[k].revision
                 == (b.strategies[r.strategy].executionRevision, b.strategies[r.strategy].bookRevision)
              && CommitsIn(b, steps, r.strategy) == 1 && AllocationsIn(b, steps, r.strategy) == 0
    ensures DexRun(b, steps).strategies[r.strategy].status.Live?
  {
    RevisionsMove(b, steps, r.strategy);
    forall k | 0 <= k < |steps| && Committed(DexRun(b, steps[..k]), steps[k], r.strategy)
      ensures steps[k].revision == (b.strategies[r.strategy].executionRevision, b.strategies[r.strategy].bookRevision)
      ensures CommitsIn(b, steps, r.strategy) == 1 && AllocationsIn(b, steps, r.strategy) == 0
    {
      CountsSplit(b, steps, k, r.strategy);
      UncountedKeeps(b, steps[..k], r.strategy);
    }
  }

  lemma UncountedKeeps(b: DexRows, steps: seq<DexStep>, sid: StrategyId)
    requires sid in b.strategies && BookingsIn(b, steps, sid) == 0
    requires CommitsIn(b, steps, sid) == 0 && AllocationsIn(b, steps, sid) == 0
    ensures var now := DexRun(b, steps);
            && sid in now.strategies
            && now.strategies[sid].executionRevision == b.strategies[sid].executionRevision
            && now.strategies[sid].bookRevision == b.strategies[sid].bookRevision
  {
    RevisionsMove(b, steps, sid);
  }

  lemma {:induction false} CountsSplit(b: DexRows, steps: seq<DexStep>, k: nat, sid: StrategyId)
    requires k < |steps|
    ensures BookingsIn(b, steps, sid) >= BookingsIn(b, steps[..k], sid)
    ensures AllocationsIn(b, steps, sid) >= AllocationsIn(b, steps[..k], sid)
    ensures CommitsIn(b, steps, sid)
            >= CommitsIn(b, steps[..k], sid) + (if Committed(DexRun(b, steps[..k]), steps[k], sid) then 1 else 0)
    decreases k
  {
    if k > 0 {
      CountsSplit(DexNext(b, steps[0]), steps[1..], k - 1, sid);
      assert steps[..k][1..] == steps[1..][..k - 1];
    }
  }

  /** An entry is broadcast only if, since it was reserved, nothing of its strategy was settled, no
      evaluation was committed and no capital allocated, and the strategy is still live. */
  lemma BroadcastFence(b: DexRows, r: DexRequest, steps: seq<DexStep>)
    requires r.action.Enter? && DexReservable(b, r) && BroadcastAuthorized(DexRun(DexReserve(b, r), steps), r.id)
    ensures var reserved, sid := DexReserve(b, r), r.strategy;
            && BookingsIn(reserved, steps, sid) == 0
            && CommitsIn(reserved, steps, sid) == 0 && AllocationsIn(reserved, steps, sid) == 0
            && sid in DexRun(reserved, steps).strategies && DexRun(reserved, steps).strategies[sid].status.Live?
  {
    RevisionsMove(DexReserve(b, r), steps, r.strategy);
    OrderKept(DexReserve(b, r), steps, r.id);
  }
}
