/** The two revision counters that fence an evaluation against newer evaluations and fills. */
module RevisionFence {
  import opened Sums
  import opened BrokerBook

  /** The step books a fill for this strategy. */
  predicate BooksFill(b: Book, step: Step, sid: StrategyId) {
    step.SnapshotStep? && step.id in b.orders && b.orders[step.id].strategy == sid && Next(b, step).trades != b.trades
  }

  /** The step is an evaluation's accepted commit for this strategy. */
  predicate Commits(b: Book, step: Step, sid: StrategyId) {
    step.CommitStep? && step.sid == sid && Current(b, sid, step.revision)
  }

  /** The step is the strategy's first allocation of capital. */
  predicate Allocates(b: Book, step: Step, sid: StrategyId) {
    step.AllocateStep? && step.sid == sid && Allocatable(b, sid)
  }

  function FillsBooked(b: Book, steps: seq<Step>, sid: StrategyId): nat
    decreases |steps|
  {
    if steps == [] then 0
    else (if BooksFill(b, steps[0], sid) then 1 else 0) + FillsBooked(Next(b, steps[0]), steps[1..], sid)
  }

  function RisksCommitted(b: Book, steps: seq<Step>, sid: StrategyId): nat
    decreases |steps|
  {
    if steps == [] then 0
    else (if Commits(b, steps[0], sid) then 1 else 0) + RisksCommitted(Next(b, steps[0]), steps[1..], sid)
  }

  function Allocations(b: Book, steps: seq<Step>, sid: StrategyId): nat
    decreases |steps|
  {
    if steps == [] then 0
    else (if Allocates(b, steps[0], sid) then 1 else 0) + Allocations(Next(b, steps[0]), steps[1..], sid)
  }

  lemma StepCounts(b: Book, step: Step, sid: StrategyId)
    requires sid in b.strategies
    ensures sid in Next(b, step).strategies
    ensures Next(b, step).strategies[sid].bookRevision
            == b.strategies[sid].bookRevision + (if BooksFill(b, step, sid) then 1 else 0)
    ensures Next(b, step).strategies[sid].executionRevision
            == b.strategies[sid].executionRevision
               + (if Commits(b, step, sid) then 1 else 0) + (if Allocates(b, step, sid) then 1 else 0)
  {
    if step.SnapshotStep? && ApplySnapshot(b, step.id, step.snapshot, step.asset).Ok? {
      SnapshotCounts(b, step.id, step.snapshot, step.asset, sid);
    }
  }

  lemma SnapshotCounts(b: Book, id: OrderId, s: Snapshot, asset: AssetClass, sid: StrategyId)
    requires sid in b.strategies && ApplySnapshot(b, id, s, asset).Ok?
    ensures var b' := ApplySnapshot(b, id, s, asset).value;
            && sid in b'.strategies
            && b'.strategies[sid].executionRevision == b.strategies[sid].executionRevision
            && b'.strategies[sid].bookRevision
               == b.strategies[sid].bookRevision
               + (if b.orders[id].strategy == sid && b'.trades != b.trades then 1 else 0)
  {
    var o, r := b.orders[id], Read(s, asset).value;
    if NewPart(o, r).quantity != 0.0 {
      assert (id, r.quantity) !in b.trades;
      assert (id, r.quantity) in ApplySnapshot(b, id, s, asset).value.trades;
    }
  }

  /** The counters count: one per booked fill; one per accepted evaluation and per first
      allocation; and nothing else ever moves them. */
  lemma {:induction false} RevisionsCount(b: Book, steps: seq<Step>, sid: StrategyId)
    requires sid in b.strategies
    ensures sid in Run(b, steps).strategies
    ensures Run(b, steps).strategies[sid].bookRevision == b.strategies[sid].bookRevision + FillsBooked(b, steps, sid)
    ensures Run(b, steps).strategies[sid].executionRevision
            == b.strategies[sid].executionRevision + RisksCommitted(b, steps, sid) + Allocations(b, steps, sid)
    decreases |steps|
  {
    if steps != [] {
      StepCounts(b, steps[0], sid);
      RevisionsCount(Next(b, steps[0]), steps[1..], sid);
    }
  }

  /** A tick reads the revision, runs, and reserves an entry with the execution revision its own
      commit has reached. If the entry is reserved, no fill of the strategy was booked in
      between; and if its commit was accepted, that is the only evaluation committed, from the
      revision read, and no capital was allocated. */
  lemma EntryFence(b: Book, steps: seq<Step>, r: Request)
    requires r.strategy in b.strategies && r.intent.action.Enter?
    requires var s := b.strategies[r.strategy]; r.expected == Some((s.executionRevision + 1, s.bookRevision))
    requires Reservable(Run(b, steps), r)
    ensures FillsBooked(b, steps, r.strategy) == 0
    ensures RisksCommitted(b, steps, r.strategy) + Allocations(b, steps, r.strategy) == 1
    ensures forall k | 0 <= k < |steps| && Commits(Run(b, steps[..k]), steps[k], r.strategy) ::
              && steps[k].revision
                 == (b.strategies[r.strategy].executionRevision, b.strategies[r.strategy].bookRevision)
              && RisksCommitted(b, steps, r.strategy) == 1 && Allocations(b, steps, r.strategy) == 0
    ensures Run(b, steps).strategies[r.strategy].status.Live?
  {
    RevisionsCount(b, steps, r.strategy);
    forall k | 0 <= k < |steps| && Commits(Run(b, steps[..k]), steps[k], r.strategy)
      ensures steps[k].revision == (b.strategies[r.strategy].executionRevision, b.strategies[r.strategy].bookRevision)
      ensures RisksCommitted(b, steps, r.strategy) == 1 && Allocations(b, steps, r.strategy) == 0
    {
      OnlyCommit(b, steps, k, r.strategy);
    }
  }

  /** A commit in a run that fills nothing and moves the execution revision once is that one move,
      from the starting revision. */
  lemma OnlyCommit(b: Book, steps: seq<Step>, k: nat, sid: StrategyId)
    requires sid in b.strategies && FillsBooked(b, steps, sid) == 0
    requires RisksCommitted(b, steps, sid) + Allocations(b, steps, sid) == 1
    requires k < |steps| && Commits(Run(b, steps[..k]), steps[k], sid)
    ensures steps[k].revision == (b.strategies[sid].executionRevision, b.strategies[sid].bookRevision)
    ensures RisksCommitted(b, steps, sid) == 1 && Allocations(b, steps, sid) == 0
  {
    CountsSplit(b, steps, k, sid);
    UncountedKeeps(b, steps[..k], sid);
  }

  lemma UncountedKeeps(b: Book, steps: seq<Step>, sid: StrategyId)
    requires sid in b.strategies && FillsBooked(b, steps, sid) == 0
    requires RisksCommitted(b, steps, sid) == 0 && Allocations(b, steps, sid) == 0
    ensures Current(Run(b, steps), sid, (b.strategies[sid].executionRevision, b.strategies[sid].bookRevision))
  {
    RevisionsCount(b, steps, sid);
  }

  /** Counts of a run are counts of a prefix, of the step after it, and of the rest. */
  lemma {:induction false} CountsSplit(b: Book, steps: seq<Step>, k: nat, sid: StrategyId)
    requires k < |steps|
    ensures FillsBooked(b, steps, sid) >= FillsBooked(b, steps[..k], sid)
    ensures Allocations(b, steps, sid) >= Allocations(b, steps[..k], sid)
    ensures RisksCommitted(b, steps, sid) >=
            RisksCommitted(b, steps[..k], sid) + (if Commits(Run(b, steps[..k]), steps[k], sid) then 1 else 0)
    decreases k
  {
    if k > 0 {
      CountsSplit(Next(b, steps[0]), steps[1..], k - 1, sid);
      assert steps[..k][1..] == steps[1..][..k - 1];
    }
  }

  /** Of all evaluations started from one revision at most one is ever accepted: once one is,
      that revision is never current again. */
  lemma RevisionSpentOnce(b: Book, sid: StrategyId, revision: (nat, nat), steps: seq<Step>)
    requires Current(b, sid, revision)
    ensures !Current(Run(CommitRisk(b, sid, revision), steps), sid, revision)
  {
    RevisionsCount(CommitRisk(b, sid, revision), steps, sid);
  }
}
