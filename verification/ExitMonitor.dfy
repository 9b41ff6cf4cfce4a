/** Live exposure is never left without an active strategy or an exit monitor. */
module ExitMonitor {
  import opened Sums
  import opened BrokerBook

  /** An open position or an unresolved order of the strategy. */
  predicate Exposed(b: Book, sid: StrategyId) {
    || (exists p :: p in b.positions && b.positions[p].open && b.positions[p].strategy == sid)
    || (exists id :: id in b.orders && Pending(b.orders[id].status) && b.orders[id].strategy == sid)
  }

  predicate MonitoredRow(b: Book, sid: StrategyId, s: Strategy) {
    && (Exposed(b, sid) ==> s.status.Live? || s.exitMonitor == Some(LiveMode))
    && (s.status.Live? ==> s.exitMonitor != Some(PaperMode))
    && (s.status.Paper? ==> s.exitMonitor != Some(LiveMode))
    && (s.bound ==> (s.status.Live? || s.status.Inactive?) && s.exitMonitor != Some(PaperMode))
  }

  /** Every exposed strategy is live or has its exits monitored; the rest of the row keeps
      paper and live monitoring apart. */
  predicate Monitored(b: Book) {
    && (forall id | id in b.orders :: b.orders[id].strategy in b.strategies)
    && forall sid | sid in b.strategies :: MonitoredRow(b, sid, b.strategies[sid])
  }

  // ---------------------------------------------------------------- the lifecycle operations

  predicate Allowed(current: Lifecycle, target: Lifecycle) {
    match current
    case Draft => target.Inactive? || target.Archived?
    case Inactive => target.Paper? || target.Live? || target.Archived?
    case Paper => target.Live? || target.Inactive? || target.Archived?
    case Live => target.Inactive? || target.Archived?
    case Archived => false
  }

  /** What the operations read besides the strategy row and the journal. */
  datatype Surroundings = Surroundings(stateless: bool, paperExposed: bool, routed: bool, confirmed: bool,
                                       remoteAgrees: bool, schedulerWorks: bool)

  function MonitorMode(b: Book, sid: StrategyId, current: Lifecycle, w: Surroundings): Option<Mode>
    requires sid in b.strategies
  {
    var s := b.strategies[sid];
    var paperMonitor := s.exitMonitor == Some(PaperMode) || (current.Paper? && w.stateless);
    var exposure := if paperMonitor then w.paperExposed else Exposed(b, sid);
    if (current.Live? || s.exitMonitor == Some(LiveMode) || paperMonitor) && exposure then
      Some(if paperMonitor then PaperMode else LiveMode)
    else None
  }

  predicate UpdateRefused(s: Strategy, target: Lifecycle, w: Surroundings) {
    || s.bound || !Allowed(s.status, target)
    || (target.Paper? && (s.exitMonitor == Some(LiveMode) || w.routed))
    || (target.Live? && (s.exitMonitor == Some(PaperMode) || w.paperExposed))
    || ((target.Live? || (s.status.Live? && (target.Inactive? || target.Archived?))) && !w.confirmed)
    || !w.remoteAgrees
  }

  /** The commits of a status change, in order: first the retained monitor, then the status. */
  function UpdateCommits(b: Book, sid: StrategyId, target: Lifecycle, w: Surroundings): seq<Step> {
    if sid !in b.strategies || UpdateRefused(b.strategies[sid], target, w) then []
    else
      var s := b.strategies[sid];
      var mode := if target.Paper? || target.Live? then None else MonitorMode(b, sid, s.status, w);
      if mode.Some? then [LifecycleStep(sid, s.status, mode), LifecycleStep(sid, target, mode)]
      else [LifecycleStep(sid, target, s.exitMonitor)]
  }

  /** An adopted strategy stops in one commit; scheduling then writes the monitor again. */
  function StopCommits(b: Book, sid: StrategyId, w: Surroundings): seq<Step> {
    if sid !in b.strategies || !b.strategies[sid].bound || !w.confirmed then []
    else
      var mode := MonitorMode(b, sid, b.strategies[sid].status, w);
      var stop := LifecycleStep(sid, Inactive, mode);
      if mode.Some? then [stop, stop] else [stop]
  }

  /** Activation commits before scheduling and takes the status back when scheduling fails. */
  function ActivateCommits(b: Book, sid: StrategyId, w: Surroundings): seq<Step> {
    if sid !in b.strategies || !b.strategies[sid].bound || !w.confirmed || !w.remoteAgrees
       || !b.strategies[sid].status.Inactive? || !w.routed
       || (exists id :: id in b.orders && Pending(b.orders[id].status) && b.orders[id].strategy == sid) then []
    else
      var s := b.strategies[sid];
      [LifecycleStep(sid, Live, s.exitMonitor)]
      + (if w.schedulerWorks then [] else [LifecycleStep(sid, Inactive, s.exitMonitor)])
  }

  function FinishCommits(b: Book, sid: StrategyId, w: Surroundings): seq<Step> {
    if sid !in b.strategies || b.strategies[sid].exitMonitor.None? then []
    else
      var s := b.strategies[sid];
      var exposure := if s.exitMonitor == Some(PaperMode) then w.paperExposed else Exposed(b, sid);
      if exposure then [] else [LifecycleStep(sid, s.status, None)]
  }

  /** Broker transactions run one at a time. A lifecycle operation holds the same locks, so
      nothing comes between its commits, but the process may die after any of them. */
  datatype Operation =
    | Broker(step: Step)
    | Update(sid: StrategyId, target: Lifecycle, w: Surroundings, commits: nat)
    | Stop(sid: StrategyId, w: Surroundings, commits: nat)
    | Activate(sid: StrategyId, w: Surroundings, commits: nat)
    | Finish(sid: StrategyId, w: Surroundings)

  function Prefix<T>(s: seq<T>, n: nat): seq<T> {
    if n <= |s| then s[..n] else s
  }

  function Commits(b: Book, op: Operation): seq<Step> {
    match op
    case Broker(step) => [step]
    case Update(sid, target, w, n) => Prefix(UpdateCommits(b, sid, target, w), n)
    case Stop(sid, w, n) => Prefix(StopCommits(b, sid, w), n)
    case Activate(sid, w, n) => Prefix(ActivateCommits(b, sid, w), n)
    case Finish(sid, w) => FinishCommits(b, sid, w)
  }

  /** The broker's callers mark only pending orders, and write no lifecycle columns. */
  predicate WellCalled(b: Book, op: Operation) {
    op.Broker? ==>
      && !op.step.LifecycleStep?
      && (op.step.MarkStep? && op.step.id in b.orders && Pending(op.step.status)
         ==> Pending(b.orders[op.step.id].status))
  }

  function Perform(b: Book, op: Operation): Book {
    Run(b, Commits(b, op))
  }

  function PerformAll(b: Book, ops: seq<Operation>): Book
    decreases |ops|
  {
    if ops == [] then b else PerformAll(Perform(b, ops[0]), ops[1..])
  }

  predicate AllWellCalled(b: Book, ops: seq<Operation>)
    decreases |ops|
  {
    ops == [] || (WellCalled(b, ops[0]) && AllWellCalled(Perform(b, ops[0]), ops[1..]))
  }

  // ---------------------------------------------------------------- one transaction

  /** A broker transaction exposes only a strategy that was exposed or may trade. */
  lemma StepExposes(b: Book, step: Step, sid: StrategyId)
    requires Monitored(b) && WellCalled(b, Broker(step)) && Exposed(Next(b, step), sid)
    ensures Exposed(b, sid)
            || (sid in b.strategies
               && (b.strategies[sid].status.Live? || b.strategies[sid].exitMonitor == Some(LiveMode)))
  {
    match step
    case SnapshotStep(id, s, asset) => SnapshotExposes(b, id, s, asset, sid);
    case ReserveStep(r) => ReserveExposes(b, r, sid);
    case MarkStep(id, status, brokerId, approvalId) => MarkExposes(b, id, status, brokerId, approvalId, sid);
    case CommitStep(_, _) => SameExposure(b, Next(b, step), sid);
    case AllocateStep(_) => SameExposure(b, Next(b, step), sid);
  }

  lemma ReserveExposes(b: Book, r: Request, sid: StrategyId)
    requires Exposed(Reserve(b, r), sid)
    ensures Exposed(b, sid)
            || (sid in b.strategies
               && (b.strategies[sid].status.Live? || b.strategies[sid].exitMonitor == Some(LiveMode)))
  {
    if Reservable(b, r) && sid != r.strategy {
      var b' := Reserve(b, r);
      assert forall id | id in b'.orders && b'.orders[id].strategy == sid ::
               id in b.orders && b.orders[id] == b'.orders[id];
    }
  }

  lemma MarkExposes(b: Book, id: OrderId, status: Status, brokerId: string, approvalId: string, sid: StrategyId)
    requires id in b.orders && Pending(status) ==> Pending(b.orders[id].status)
    requires Exposed(Mark(b, id, status, brokerId, approvalId), sid)
    ensures Exposed(b, sid)
  {
    var b' := Mark(b, id, status, brokerId, approvalId);
    assert forall j | j in b'.orders && Pending(b'.orders[j].status) ::
        j in b.orders && Pending(b.orders[j].status) && b.orders[j].strategy == b'.orders[j].strategy;
  }

  lemma SnapshotExposes(b: Book, id: OrderId, s: Snapshot, asset: AssetClass, sid: StrategyId)
    requires Exposed(Next(b, SnapshotStep(id, s, asset)), sid)
    ensures Exposed(b, sid)
  {
    if ApplySnapshot(b, id, s, asset).Ok? {
      var b' := ApplySnapshot(b, id, s, asset).value;
      var o := b.orders[id];
      assert b'.orders == b.orders[id := OrderAfter(o, s, Read(s, asset).value)];
      assert Pending(b'.orders[id].status) ==> Pending(o.status);
      if p :| p in b'.positions && b'.positions[p].open && b'.positions[p].strategy == sid {
        FilledPositionOwner(b, id, s, asset, p);
      } else {
        var j :| j in b'.orders && Pending(b'.orders[j].status) && b'.orders[j].strategy == sid;
        assert j in b.orders && Pending(b.orders[j].status) && b.orders[j].strategy == sid;
      }
    }
  }

  /** A position a fill changed belongs to the strategy of the pending order that filled. */
  lemma FilledPositionOwner(b: Book, id: OrderId, s: Snapshot, asset: AssetClass, p: PositionId)
    requires ApplySnapshot(b, id, s, asset).Ok? && p in ApplySnapshot(b, id, s, asset).value.positions
    ensures var q := ApplySnapshot(b, id, s, asset).value.positions[p];
            || (p in b.positions && b.positions[p] == q)
            || (Pending(b.orders[id].status) && q.strategy == b.orders[id].strategy)
  {
  }

  lemma StepMonitored(b: Book, step: Step)
    requires Monitored(b) && WellCalled(b, Broker(step))
    ensures Monitored(Next(b, step))
  {
    var b' := Next(b, step);
    StepKeepsOwners(b, step);
    StepKeepsColumns(b, step);
    forall sid | sid in b'.strategies ensures MonitoredRow(b', sid, b'.strategies[sid]) {
      assert MonitoredRow(b, sid, b.strategies[sid]);
      if Exposed(b', sid) {
        StepExposes(b, step, sid);
      }
    }
  }

  lemma StepKeepsOwners(b: Book, step: Step)
    requires forall id | id in b.orders :: b.orders[id].strategy in b.strategies
    ensures var b' := Next(b, step); forall id | id in b'.orders :: b'.orders[id].strategy in b'.strategies
  {
  }

  /** The columns monitoring reads of a strategy row. */
  predicate SameColumns(rows: map<StrategyId, Strategy>, rows': map<StrategyId, Strategy>) {
    rows'.Keys == rows.Keys && forall sid | sid in rows :: SameRow(rows[sid], rows'[sid])
  }

  predicate SameRow(s: Strategy, s': Strategy) {
    s'.status == s.status && s'.exitMonitor == s.exitMonitor && s'.bound == s.bound
  }

  lemma RowColumns(rows: map<StrategyId, Strategy>, sid: StrategyId, s: Strategy)
    requires sid in rows && SameRow(rows[sid], s)
    ensures SameColumns(rows, rows[sid := s])
  {
  }

  /** A settlement revises one row's revision at most. */
  lemma RevisedColumns(rows: map<StrategyId, Strategy>, sid: StrategyId)
    ensures SameColumns(rows, BookRevised(rows, sid))
  {
    if sid in rows {
      RowColumns(rows, sid, BookRevised(rows, sid)[sid]);
    }
  }

  /** A commit or an allocation revises one row's revision at most. */
  lemma ExecutionColumns(rows: map<StrategyId, Strategy>, sid: StrategyId)
    ensures SameColumns(rows, ExecutionRevised(rows, sid))
  {
    if sid in rows {
      RowColumns(rows, sid, ExecutionRevised(rows, sid)[sid]);
    }
  }

  lemma SnapshotColumns(b: Book, id: OrderId, s: Snapshot, asset: AssetClass)
    requires ApplySnapshot(b, id, s, asset).Ok?
    ensures SameColumns(b.strategies, ApplySnapshot(b, id, s, asset).value.strategies)
  {
    RevisedColumns(b.strategies, b.orders[id].strategy);
  }

  /** Broker transactions write no lifecycle column. */
  lemma StepKeepsColumns(b: Book, step: Step)
    requires !step.LifecycleStep?
    ensures SameColumns(b.strategies, Next(b, step).strategies)
  {
    match step
    case SnapshotStep(id, s, asset) =>
      if ApplySnapshot(b, id, s, asset).Ok? {
        SnapshotColumns(b, id, s, asset);
      }
    case ReserveStep(_) =>
    case MarkStep(_, _, _, _) =>
    case CommitStep(sid, _) => ExecutionColumns(b.strategies, sid);
    case AllocateStep(sid) => ExecutionColumns(b.strategies, sid);
  }

  /** Writing one strategy's lifecycle columns keeps the book monitored when its new row is. */
  lemma RowMonitored(b: Book, sid: StrategyId, lifecycle: Lifecycle, exitMonitor: Option<Mode>)
    requires Monitored(b) && sid in b.strategies
    requires MonitoredRow(b, sid, b.strategies[sid].(status := lifecycle, exitMonitor := exitMonitor))
    ensures Monitored(Lifecycles(b, sid, lifecycle, exitMonitor))
    ensures Exposed(Lifecycles(b, sid, lifecycle, exitMonitor), sid) == Exposed(b, sid)
  {
    var b' := Lifecycles(b, sid, lifecycle, exitMonitor);
    assert b'.positions == b.positions && b'.orders == b.orders;
    forall t | t in b'.strategies ensures MonitoredRow(b', t, b'.strategies[t]) {
      assert t != sid ==> MonitoredRow(b, t, b.strategies[t]);
      SameExposure(b, b', t);
    }
    SameExposure(b, b', sid);
  }

  lemma SameExposure(b: Book, b': Book, sid: StrategyId)
    requires b'.positions == b.positions && b'.orders == b.orders
    ensures Exposed(b', sid) == Exposed(b, sid)
  {
  }

  // ---------------------------------------------------------------- one operation

  lemma {:induction false} OneOrTwo(b: Book, steps: seq<Step>)
    ensures |steps| == 1 ==> Run(b, steps) == Next(b, steps[0])
    ensures |steps| == 2 ==> Run(b, steps) == Next(Next(b, steps[0]), steps[1])
  {
    if |steps| == 2 {
      assert Run(Next(b, steps[0]), steps[1..]) == Next(Next(b, steps[0]), steps[1..][0]);
    }
  }

  /** Commits on one strategy's lifecycle columns, each leaving a monitored row. */
  predicate RightCommits(b: Book, sid: StrategyId, steps: seq<Step>)
    requires sid in b.strategies
  {
    forall k | 0 <= k < |steps| ::
      && steps[k].LifecycleStep? && steps[k].sid == sid
      && MonitoredRow(b, sid, b.strategies[sid].(status := steps[k].lifecycle, exitMonitor := steps[k].exitMonitor))
  }

  /** However many of them are made. */
  lemma {:induction false} CommitsMonitored(b: Book, sid: StrategyId, steps: seq<Step>)
    requires Monitored(b) && sid in b.strategies && RightCommits(b, sid, steps)
    ensures Monitored(Run(b, steps))
    decreases |steps|
  {
    if steps != [] {
      var s, s', b' := b.strategies[sid], steps[0], Next(b, steps[0]);
      RowMonitored(b, sid, s'.lifecycle, s'.exitMonitor);
      forall k | 0 <= k < |steps[1..]|
        ensures steps[1..][k].LifecycleStep? && steps[1..][k].sid == sid
        ensures MonitoredRow(b', sid, b'.strategies[sid].(status := steps[1..][k].lifecycle,
                                                          exitMonitor := steps[1..][k].exitMonitor))
      {
        var c := steps[k + 1];
        assert MonitoredRow(b, sid, s.(status := c.lifecycle, exitMonitor := c.exitMonitor));
        assert b'.strategies[sid].(status := c.lifecycle, exitMonitor := c.exitMonitor)
            == s.(status := c.lifecycle, exitMonitor := c.exitMonitor);
      }
      CommitsMonitored(b', sid, steps[1..]);
    }
  }

  lemma UpdateMonitored(b: Book, sid: StrategyId, target: Lifecycle, w: Surroundings, n: nat)
    requires Monitored(b)
    ensures Monitored(Run(b, Prefix(UpdateCommits(b, sid, target, w), n)))
  {
    var steps := Prefix(UpdateCommits(b, sid, target, w), n);
    if steps != [] {
      assert MonitoredRow(b, sid, b.strategies[sid]);
      CommitsMonitored(b, sid, steps);
    }
  }

  lemma StopMonitored(b: Book, sid: StrategyId, w: Surroundings, n: nat)
    requires Monitored(b)
    ensures Monitored(Run(b, Prefix(StopCommits(b, sid, w), n)))
  {
    var steps := Prefix(StopCommits(b, sid, w), n);
    if steps != [] {
      assert MonitoredRow(b, sid, b.strategies[sid]);
      CommitsMonitored(b, sid, steps);
    }
  }

  lemma ActivateMonitored(b: Book, sid: StrategyId, w: Surroundings, n: nat)
    requires Monitored(b)
    ensures Monitored(Run(b, Prefix(ActivateCommits(b, sid, w), n)))
  {
    var steps := Prefix(ActivateCommits(b, sid, w), n);
    if steps != [] {
      assert MonitoredRow(b, sid, b.strategies[sid]);
      CommitsMonitored(b, sid, steps);
    }
  }

  lemma FinishMonitored(b: Book, sid: StrategyId, w: Surroundings)
    requires Monitored(b)
    ensures Monitored(Run(b, FinishCommits(b, sid, w)))
  {
    var steps := FinishCommits(b, sid, w);
    if steps != [] {
      assert MonitoredRow(b, sid, b.strategies[sid]);
      CommitsMonitored(b, sid, steps);
    }
  }

  lemma PerformMonitored(b: Book, op: Operation)
    requires Monitored(b) && WellCalled(b, op)
    ensures Monitored(Perform(b, op))
  {
    match op
    case Broker(step) => StepMonitored(b, step); OneOrTwo(b, [step]);
    case Update(sid, target, w, n) => UpdateMonitored(b, sid, target, w, n);
    case Stop(sid, w, n) => StopMonitored(b, sid, w, n);
    case Activate(sid, w, n) => ActivateMonitored(b, sid, w, n);
    case Finish(sid, w) => FinishMonitored(b, sid, w);
  }

  // ---------------------------------------------------------------- every run

  /** Whatever operations run, and wherever the process dies between an operation's commits,
      a strategy with an open position or an unresolved order is live or exit monitored. */
  lemma {:induction false} NoUnmonitoredExposure(b: Book, ops: seq<Operation>, sid: StrategyId)
    requires Monitored(b) && AllWellCalled(b, ops)
    ensures Monitored(PerformAll(b, ops))
    ensures sid in PerformAll(b, ops).strategies && Exposed(PerformAll(b, ops), sid) ==>
              var s := PerformAll(b, ops).strategies[sid]; s.status.Live? || s.exitMonitor == Some(LiveMode)
    decreases |ops|
  {
    if ops != [] {
      PerformMonitored(b, ops[0]);
      NoUnmonitoredExposure(Perform(b, ops[0]), ops[1..], sid);
    } else if sid in b.strategies {
      assert MonitoredRow(b, sid, b.strategies[sid]);
    }
  }

  // ---------------------------------------------------------------- between processes

  /** The process's locks keep everything else out between what an operation reads and what it
      commits. Without them what counts is the moment of the commit: leaving a live or inactive
      status without a monitor is right exactly when the strategy is flat then. */
  lemma StatusCommitMonitoredExactly(b: Book, sid: StrategyId, target: Lifecycle)
    requires Monitored(b) && sid in b.strategies && !b.strategies[sid].bound
    requires b.strategies[sid].exitMonitor.None? && (target.Inactive? || target.Archived?)
    ensures Monitored(Next(b, LifecycleStep(sid, target, None))) <==> !Exposed(b, sid)
  {
    var b' := Next(b, LifecycleStep(sid, target, None));
    SameExposure(b, b', sid);
    if Exposed(b, sid) {
      assert !MonitoredRow(b', sid, b'.strategies[sid]);
    } else {
      RowMonitored(b, sid, target, None);
    }
  }

  /** The commits of a status change decided before an entry was reserved, and made after it: from any
      fresh monitored book the strategy is left inactive and unmonitored with the order out. */
  lemma StaleStatusChangeLosesMonitor(b: Book, r: Request, w: Surroundings)
    requires Fresh(b) && Monitored(b) && Reservable(b, r) && r.intent.action.Enter?
    requires !b.strategies[r.strategy].bound && b.strategies[r.strategy].exitMonitor.None? && w.confirmed
             && w.remoteAgrees
    ensures UpdateCommits(b, r.strategy, Inactive, w) == [LifecycleStep(r.strategy, Inactive, None)]
    ensures !Monitored(Run(b, [ReserveStep(r)] + UpdateCommits(b, r.strategy, Inactive, w)))
  {
    var reserved := Next(b, ReserveStep(r));
    assert !Exposed(b, r.strategy);
    OneOrTwo(b, [ReserveStep(r), LifecycleStep(r.strategy, Inactive, None)]);
    StepMonitored(b, ReserveStep(r));
    assert Pending(reserved.orders[r.id].status) && reserved.orders[r.id].strategy == r.strategy;
    StatusCommitMonitoredExactly(reserved, r.strategy, Inactive);
  }

  /** An operation clears a live monitor only when the strategy is flat. */
  lemma MonitorClearedOnlyWhenFlat(b: Book, op: Operation, sid: StrategyId)
    requires Monitored(b) && WellCalled(b, op)
    requires sid in b.strategies && b.strategies[sid].exitMonitor == Some(LiveMode)
    requires sid in Perform(b, op).strategies && Perform(b, op).strategies[sid].exitMonitor != Some(LiveMode)
    ensures !Exposed(b, sid)
  {
    assert MonitoredRow(b, sid, b.strategies[sid]);
    if op.Broker? {
      OneOrTwo(b, [op.step]);
      StepKeepsColumns(b, op.step);
    } else {
      LifecycleClears(b, op, sid);
    }
  }

  lemma LifecycleClears(b: Book, op: Operation, sid: StrategyId)
    requires !op.Broker? && sid in b.strategies && b.strategies[sid].exitMonitor == Some(LiveMode)
    requires MonitoredRow(b, sid, b.strategies[sid])
    requires sid in Perform(b, op).strategies && Perform(b, op).strategies[sid].exitMonitor != Some(LiveMode)
    ensures !Exposed(b, sid)
  {
    if Commits(b, op) != [] {
      LastCommitStands(b, op);
    }
  }

  /** A lifecycle operation writes its own strategy only, and leaves what its last commit wrote. */
  lemma LastCommitStands(b: Book, op: Operation)
    requires !op.Broker? && Commits(b, op) != []
    ensures var last := Commits(b, op)[|Commits(b, op)| - 1];
            && last.LifecycleStep? && last.sid == op.sid && op.sid in b.strategies
            && Perform(b, op).strategies ==
                 b.strategies[op.sid := b.strategies[op.sid].(status := last.lifecycle,
                                                              exitMonitor := last.exitMonitor)]
  {
    var steps := Commits(b, op);
    OneOrTwo(b, steps);
    assert steps[0].LifecycleStep? && steps[0].sid == op.sid && op.sid in b.strategies;
    if |steps| == 2 {
      assert steps[1].LifecycleStep? && steps[1].sid == op.sid;
    }
  }

  /** A lifecycle operation writes nothing but strategy rows. */
  lemma OnlyStrategies(b: Book, op: Operation)
    requires !op.Broker?
    ensures Perform(b, op) == b.(strategies := Perform(b, op).strategies)
  {
    var steps := Commits(b, op);
    OneOrTwo(b, steps);
    if steps != [] {
      LastCommitStands(b, op);
    }
  }
}
