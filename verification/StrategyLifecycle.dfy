/** Status changes as the program makes them: one commit after another on the strategy row, with the
    process free to die after any of them. */
module StrategyLifecycle {
  import opened Sums
  import opened BrokerBook
  import opened ExitMonitor
  import BrokerStore

  method HasExposure(journal: BrokerStore.Journal, sid: StrategyId) returns (exposed: bool)
    ensures exposed == Exposed(journal.Rows(), sid)
  {
    var open := journal.positions.Keys;
    while open != {}
      invariant open <= journal.positions.Keys
      invariant forall p | p in journal.positions && p !in open ::
                  !(journal.positions[p].open && journal.positions[p].strategy == sid)
    {
      var p :| p in open;
      if journal.positions[p].open && journal.positions[p].strategy == sid {
        return true;
      }
      open := open - {p};
    }
    exposed := Unresolved(journal, sid);
  }

  method Unresolved(journal: BrokerStore.Journal, sid: StrategyId) returns (any: bool)
    ensures any <==> exists id ::
              id in journal.orders && Pending(journal.orders[id].status) && journal.orders[id].strategy == sid
  {
    var rest := journal.orders.Keys;
    while rest != {}
      invariant rest <= journal.orders.Keys
      invariant forall id | id in journal.orders && id !in rest ::
                  !(Pending(journal.orders[id].status) && journal.orders[id].strategy == sid)
    {
      var id :| id in rest;
      if Pending(journal.orders[id].status) && journal.orders[id].strategy == sid {
        return true;
      }
      rest := rest - {id};
    }
    return false;
  }

  method RetainedMonitor(journal: BrokerStore.Journal, sid: StrategyId, w: Surroundings) returns (mode: Option<Mode>)
    requires sid in journal.strategies
    ensures mode == MonitorMode(journal.Rows(), sid, journal.strategies[sid].status, w)
  {
    var s := journal.strategies[sid];
    var paperMonitor := s.exitMonitor == Some(PaperMode) || (s.status.Paper? && w.stateless);
    var exposure := w.paperExposed;
    if !paperMonitor {
      exposure := HasExposure(journal, sid);
    }
    mode := None;
    if (s.status.Live? || s.exitMonitor == Some(LiveMode) || paperMonitor) && exposure {
      mode := Some(if paperMonitor then PaperMode else LiveMode);
    }
  }

  method Commit(journal: BrokerStore.Journal, sid: StrategyId, lifecycle: Lifecycle, exitMonitor: Option<Mode>)
    requires sid in journal.strategies
    modifies journal`strategies
    ensures journal.Rows() == Next(old(journal.Rows()), LifecycleStep(sid, lifecycle, exitMonitor))
  {
    journal.strategies :=
      journal.strategies[sid := journal.strategies[sid].(status := lifecycle, exitMonitor := exitMonitor)];
  }

  /** Retain the monitor first, then change the status; `commits` is how many survive. */
  method UpdateStatus(journal: BrokerStore.Journal, sid: StrategyId, target: Lifecycle, w: Surroundings, commits: nat)
    modifies journal`strategies
    ensures journal.Rows() == Perform(old(journal.Rows()), Update(sid, target, w, commits))
  {
    ghost var before := journal.Rows();
    ghost var steps := ExitMonitor.Commits(before, Update(sid, target, w, commits));
    OneOrTwo(before, steps);
    if sid !in journal.strategies || UpdateRefused(journal.strategies[sid], target, w) {
      return;
    }
    var mode: Option<Mode> := None;
    if !target.Paper? && !target.Live? {
      mode := RetainedMonitor(journal, sid, w);
    }
    if commits == 0 {
      return;
    }
    if mode.Some? {
      Commit(journal, sid, journal.strategies[sid].status, mode);
      if commits == 1 {
        return;
      }
    }
    Commit(journal, sid, target, journal.strategies[sid].exitMonitor);
  }

  /** An adopted strategy's stop writes status and monitor together; scheduling repeats the monitor. */
  method StopAdopted(journal: BrokerStore.Journal, sid: StrategyId, w: Surroundings, commits: nat)
    modifies journal`strategies
    ensures journal.Rows() == Perform(old(journal.Rows()), Stop(sid, w, commits))
  {
    ghost var before := journal.Rows();
    OneOrTwo(before, ExitMonitor.Commits(before, Stop(sid, w, commits)));
    if sid !in journal.strategies || !journal.strategies[sid].bound || !w.confirmed {
      return;
    }
    var mode := RetainedMonitor(journal, sid, w);
    if commits == 0 {
      return;
    }
    Commit(journal, sid, Inactive, mode);
    if mode.Some? && commits > 1 {
      Commit(journal, sid, Inactive, mode);
    }
  }

  /** Activation commits before scheduling, and takes the status back if scheduling fails. */
  method ActivateAdopted(journal: BrokerStore.Journal, sid: StrategyId, w: Surroundings, commits: nat)
    modifies journal`strategies
    ensures journal.Rows() == Perform(old(journal.Rows()), Activate(sid, w, commits))
  {
    ghost var before := journal.Rows();
    OneOrTwo(before, ExitMonitor.Commits(before, Activate(sid, w, commits)));
    if sid !in journal.strategies || !journal.strategies[sid].bound || !w.confirmed || !w.remoteAgrees {
      return;
    }
    var unresolved := Unresolved(journal, sid);
    if !journal.strategies[sid].status.Inactive? || !w.routed || unresolved || commits == 0 {
      return;
    }
    var monitor := journal.strategies[sid].exitMonitor;
    Commit(journal, sid, Live, monitor);
    if !w.schedulerWorks && commits > 1 {
      Commit(journal, sid, Inactive, monitor);
    }
  }

  /** The monitor goes only when its exposure is gone. */
  method FinishIfFlat(journal: BrokerStore.Journal, sid: StrategyId, w: Surroundings)
    modifies journal`strategies
    ensures journal.Rows() == Perform(old(journal.Rows()), Finish(sid, w))
  {
    ghost var before := journal.Rows();
    OneOrTwo(before, ExitMonitor.Commits(before, Finish(sid, w)));
    if sid !in journal.strategies || journal.strategies[sid].exitMonitor.None? {
      return;
    }
    var exposure := w.paperExposed;
    if journal.strategies[sid].exitMonitor != Some(PaperMode) {
      exposure := HasExposure(journal, sid);
    }
    if !exposure {
      Commit(journal, sid, journal.strategies[sid].status, None);
    }
  }
}
