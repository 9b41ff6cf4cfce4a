/** What a status operation does when it runs to its end: exactly when it is accepted, and the row it
    then leaves. */
module MonitorProgress {
  import opened Sums
  import opened BrokerBook
  import opened ExitMonitor

  /** The status changes a person may ask for. */
  const TRANSITIONS: set<(Lifecycle, Lifecycle)> :=
    {(Draft, Inactive), (Draft, Archived), (Inactive, Lifecycle.Paper), (Inactive, Live), (Inactive, Archived),
     (Lifecycle.Paper, Live), (Lifecycle.Paper, Inactive), (Lifecycle.Paper, Archived), (Live, Inactive),
     (Live, Archived)}

  /** The strategy's simulated positions are watched, rather than its live ones. */
  predicate WatchesPaper(s: Strategy, w: Surroundings) {
    s.exitMonitor == Some(PaperMode) || (s.status.Paper? && w.stateless)
  }

  /** It trades or is monitored, and has something left to exit. */
  predicate MustWatch(b: Book, sid: StrategyId, w: Surroundings)
    requires sid in b.strategies
  {
    var s := b.strategies[sid];
    if WatchesPaper(s, w) then w.paperExposed
    else (s.status.Live? || s.exitMonitor == Some(LiveMode)) && Exposed(b, sid)
  }

  function WatchMode(s: Strategy, w: Surroundings): Mode {
    if WatchesPaper(s, w) then PaperMode else LiveMode
  }

  /** A status change is accepted exactly for a strategy that is not adopted, along a permitted
      transition the server confirms, into paper trading only without a live monitor or route, into live
      trading only without paper exposure or monitor, and with a person's confirmation wherever live
      trading begins or ends. */
  predicate MayChange(s: Strategy, target: Lifecycle, w: Surroundings) {
    && !s.bound && (s.status, target) in TRANSITIONS && w.remoteAgrees
    && (target.Paper? ==> s.exitMonitor != Some(LiveMode) && !w.routed)
    && (target.Live? ==> s.exitMonitor != Some(PaperMode) && !w.paperExposed && w.confirmed)
    && (s.status.Live? ==> w.confirmed)
  }

  /** The strategy row a finished operation leaves. */
  predicate Leaves(b: Book, b': Book, sid: StrategyId, lifecycle: Lifecycle, exitMonitor: Option<Mode>)
    requires sid in b.strategies
  {
    b' == b.(strategies := b.strategies[sid := b.strategies[sid].(status := lifecycle, exitMonitor := exitMonitor)])
  }

  /** An accepted status change reaches its target; one that ends trading keeps exactly the monitor its
      exposure needs, and any other keeps the one there is. */
  lemma UpdateTakesEffect(b: Book, sid: StrategyId, target: Lifecycle, w: Surroundings, n: nat)
    requires sid in b.strategies && n >= 2
    ensures var s, b' := b.strategies[sid], Perform(b, Update(sid, target, w, n));
            if !MayChange(s, target, w) then b' == b
            else Leaves(b, b', sid, target,
                        if (target.Inactive? || target.Archived?) && MustWatch(b, sid, w) then Some(WatchMode(s, w))
                        else s.exitMonitor)
  {
    AllowedExactly(b.strategies[sid].status, target);
    WholeOperation(b, Update(sid, target, w, n), UpdateCommits(b, sid, target, w));
  }

  lemma AllowedExactly(current: Lifecycle, target: Lifecycle)
    ensures Allowed(current, target) <==> (current, target) in TRANSITIONS
  {
  }

  /** With room for every commit, an operation makes them all. */
  lemma WholeOperation(b: Book, op: Operation, steps: seq<Step>)
    requires Commits(b, op) == steps && |steps| <= 2
    ensures |steps| == 0 ==> Perform(b, op) == b
    ensures |steps| == 1 ==> Perform(b, op) == Next(b, steps[0])
    ensures |steps| == 2 ==> Perform(b, op) == Next(Next(b, steps[0]), steps[1])
  {
    OneOrTwo(b, steps);
  }

  /** Stopping an adopted strategy takes a confirmation, and leaves it inactive with exactly the monitor
      its exposure needs. */
  lemma StopTakesEffect(b: Book, sid: StrategyId, w: Surroundings, n: nat)
    requires sid in b.strategies && n >= 2
    ensures var s, b' := b.strategies[sid], Perform(b, Stop(sid, w, n));
            if !(s.bound && w.confirmed) then b' == b
            else Leaves(b, b', sid, Inactive, if MustWatch(b, sid, w) then Some(WatchMode(s, w)) else None)
  {
    WholeOperation(b, Stop(sid, w, n), StopCommits(b, sid, w));
  }

  /** An adopted inactive strategy becomes live exactly with a confirmation, the server's consent, a route
      and nothing unresolved, if it can be scheduled; otherwise its row is as it was. */
  lemma ActivateTakesEffect(b: Book, sid: StrategyId, w: Surroundings, n: nat)
    requires sid in b.strategies && n >= 2
    ensures var s, b' := b.strategies[sid], Perform(b, Activate(sid, w, n));
            if s.bound && w.confirmed && w.remoteAgrees && s.status.Inactive? && w.routed && w.schedulerWorks
               && (forall id | id in b.orders && b.orders[id].strategy == sid ::
                     b.orders[id].status.Filled? || b.orders[id].status.Canceled? || b.orders[id].status.Rejected?)
            then Leaves(b, b', sid, Live, s.exitMonitor) else b' == b
  {
    WholeOperation(b, Activate(sid, w, n), ActivateCommits(b, sid, w));
    var s := b.strategies[sid];
    assert s.status.Inactive? ==> s.(status := Inactive) == s;
    assert b.strategies[sid := s] == b.strategies;
  }

  /** A monitor is cleared exactly when its kind of exposure is gone. */
  lemma FinishTakesEffect(b: Book, sid: StrategyId, w: Surroundings)
    requires sid in b.strategies
    ensures var s, b' := b.strategies[sid], Perform(b, Finish(sid, w));
            if (s.exitMonitor == Some(LiveMode) && !Exposed(b, sid))
               || (s.exitMonitor == Some(PaperMode) && !w.paperExposed)
            then Leaves(b, b', sid, s.status, None) else b' == b
  {
    var s := b.strategies[sid];
    WholeOperation(b, Finish(sid, w), FinishCommits(b, sid, w));
    match s.exitMonitor
    case None =>
    case Some(PaperMode) =>
    case Some(LiveMode) =>
  }

  /** Exposure is an open position, or an order that a broker may still fill. */
  lemma ExposedExactly(b: Book, sid: StrategyId)
    ensures Exposed(b, sid) <==>
            || (exists p :: p in b.positions && b.positions[p] == Position(sid, true))
            || (exists id :: id in b.orders && b.orders[id].strategy == sid
                  && !b.orders[id].status.Filled? && !b.orders[id].status.Canceled? && !b.orders[id].status.Rejected?)
  {
    if p :| p in b.positions && b.positions[p].open && b.positions[p].strategy == sid {
      assert b.positions[p] == Position(sid, true);
    }
  }
}
