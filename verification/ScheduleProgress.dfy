/** What becomes of a schedule: that a confirmed start or pause takes hold, that what is due is served,
    and what every reply, recovery and failure leaves behind. */
module ScheduleProgress {
  import opened Sums
  import opened PaperSchedule

  // ---------------------------------------------------------------- starts

  /** The row of a new run: nothing evaluated, no slot claimed. */
  predicate NewRun(row: Row, request: RequestId) {
    && row.state.Starting? && row.request == request && row.evaluations == 0
    && row.pending.None? && row.last.None? && row.claims == []
  }

  /** A start is sent exactly for valid settings: those of a new schedule, or the same again for one
      that has no tick and no pending slot and is stopped or was never confirmed. An unconfirmed start is
      sent again as it is; any other begins a new run under a new request. */
  lemma StartIsSent(w: World, t: ThreadId, s: ScheduleId, interval: nat, limit: nat, minted: RequestId)
    requires WorldSound(w) && t !in w.threads && minted !in w.used
    ensures var w' := Next(w, PaperSchedule.Start(t, s, interval, limit, minted));
            if interval in INTERVALS && 1 <= limit <= 10000
               && (s in w.rows ==>
                     && s !in w.inflight && w.rows[s].interval == interval && w.rows[s].limit == limit
                     && w.rows[s].pending.None?
                     && !w.rows[s].state.Active? && !w.rows[s].state.Attention? && !w.rows[s].state.Pausing?)
            then
              && s in w'.rows && w' == w.(rows := w.rows[s := w'.rows[s]], used := w.used + {minted},
                                          threads := w.threads[t := Starter(s, w'.rows[s].request)])
              && w'.rows[s].interval == interval && w'.rows[s].limit == limit
              && (if s in w.rows && (w.rows[s].state.Starting? || w.rows[s].state.StartUncertain?)
                  then w'.rows[s] == w.rows[s].(state := Starting)
                  else NewRun(w'.rows[s], minted) && w'.rows[s].run == if s in w.rows then w.rows[s].run else None)
            else w' == w
  {
  }

  /** The reply to the current request of an unconfirmed start makes it active with its run, uncertain or
      rejected; any other reply changes no row. */
  lemma StartIsAnswered(w: World, t: ThreadId, outcome: StartOutcome)
    requires WorldSound(w) && t in w.threads && w.threads[t].Starter?
    ensures var w', s := Next(w, StartReply(t, outcome)), w.threads[t].schedule;
            && s in w.rows && s in w'.rows
            && w' == w.(rows := w.rows[s := w'.rows[s]], threads := w.threads - {t})
            && if w.rows[s].state.Starting? && w.rows[s].request == w.threads[t].request
               then w'.rows[s] ==
                    (match outcome
                     case Confirmed(run) => w.rows[s].(state := Active, run := Some(run))
                     case Uncertain => w.rows[s].(state := StartUncertain)
                     case Rejected => w.rows[s].(state := StartRejected))
               else w'.rows[s] == w.rows[s]
  {
    assert ThreadSound(w, w.threads[t]);
  }

  /** Nothing but a pause, another reply to a start of this schedule, or a crash comes between. */
  predicate Undisputed(w: World, step: Step, t: ThreadId, s: ScheduleId) {
    match step
    case Crash => false
    case Pause(_, p, _) => p != s
    case StartReply(u, _) => u in w.threads && w.threads[u].Starter? ==> w.threads[u].schedule != s
    case _ => true
  }

  predicate AllUndisputed(w: World, steps: seq<Step>, t: ThreadId, s: ScheduleId)
    decreases |steps|
  {
    steps == [] || (Undisputed(w, steps[0], t, s) && AllUndisputed(Next(w, steps[0]), steps[1..], t, s))
  }

  predicate Awaiting(w: World, t: ThreadId, s: ScheduleId, request: RequestId) {
    && t in w.threads && w.threads[t] == Starter(s, request)
    && s in w.rows && w.rows[s].state.Starting? && w.rows[s].request == request
  }

  lemma StillAwaiting(w: World, t: ThreadId, s: ScheduleId, request: RequestId, step: Step)
    requires WorldSound(w) && Awaiting(w, t, s, request) && Undisputed(w, step, t, s)
    ensures Awaiting(Next(w, step), t, s, request)
    ensures Next(w, step).rows[s] == w.rows[s]
  {
    if step.TickBegin? || step.TickReply? || step.TickLeave? {
      if step.thread in w.threads {
        assert ThreadSound(w, w.threads[step.thread]);
      }
    }
  }

  /** A confirmed start makes its schedule active with its run, whatever else happened while it was
      asked, and nothing of the run was lost or counted. */
  lemma {:induction false} ConfirmedStartRuns(w: World, t: ThreadId, s: ScheduleId, request: RequestId,
                                              steps: seq<Step>, run: RunId)
    requires WorldSound(w) && Awaiting(w, t, s, request) && AllUndisputed(w, steps, t, s)
    ensures var w' := Next(Run(w, steps), StartReply(t, Confirmed(run)));
            s in w'.rows && w'.rows[s] == w.rows[s].(state := Active, run := Some(run))
    decreases |steps|
  {
    if steps == [] {
      StartIsAnswered(w, t, Confirmed(run));
    } else {
      StillAwaiting(w, t, s, request, steps[0]);
      NextSound(w, steps[0]);
      ConfirmedStartRuns(Next(w, steps[0]), t, s, request, steps[1..], run);
    }
  }

  // ---------------------------------------------------------------- pauses

  /** A pause of a known schedule is sent at once, whatever its state: a repeated one under the request
      before. */
  lemma PauseIsSent(w: World, t: ThreadId, s: ScheduleId, minted: RequestId)
    requires t !in w.threads && minted !in w.used && s in w.rows
    ensures var w' := Next(w, Pause(t, s, minted));
            var request := if w.rows[s].state.Pausing? then w.rows[s].request else minted;
            w' == w.(rows := w.rows[s := w.rows[s].(state := Pausing, request := request)],
                     threads := w.threads[t := Pauser(s, request)], used := w.used + {minted})
  {
  }

  /** The pause was asked under this request; it is still pausing, or confirmed. */
  predicate PauseAskedFor(w: World, t: ThreadId, s: ScheduleId, request: RequestId) {
    && t in w.threads && w.threads[t] == Pauser(s, request)
    && s in w.rows && (w.rows[s].state.Paused? || (w.rows[s].state.Pausing? && w.rows[s].request == request))
  }

  predicate LeavesPause(step: Step, t: ThreadId, s: ScheduleId) {
    && !step.Crash? && !(step.Start? && step.schedule == s) && !(step.PauseReply? && step.thread == t)
    && !(step.Pause? && step.schedule == s)
  }

  lemma StillAskedFor(w: World, t: ThreadId, s: ScheduleId, request: RequestId, step: Step)
    requires PauseAskedFor(w, t, s, request) && LeavesPause(step, t, s)
    ensures PauseAskedFor(Next(w, step), t, s, request)
  {
  }

  /** A confirmed pause pauses, whatever else was running, unless someone started or paused the schedule
      again, or the process died. */
  lemma {:induction false} ConfirmedPausePauses(w: World, t: ThreadId, s: ScheduleId, request: RequestId,
                                                steps: seq<Step>)
    requires PauseAskedFor(w, t, s, request) && forall i | 0 <= i < |steps| :: LeavesPause(steps[i], t, s)
    ensures var w' := Next(Run(w, steps), PauseReply(t, true));
            s in w'.rows && w'.rows[s].state.Paused?
    decreases |steps|
  {
    if steps != [] {
      StillAskedFor(w, t, s, request, steps[0]);
      ConfirmedPausePauses(Next(w, steps[0]), t, s, request, steps[1..]);
    }
  }

  // ---------------------------------------------------------------- ticks

  /** A schedule's tick is submitted exactly when it is active, its current slot is not closed or a claim
      is pending, and there is a free place for it. */
  lemma DispatchedExactly(w: World, t: ThreadId, s: ScheduleId)
    requires WorldSound(w) && t !in w.threads
    ensures var w' := Next(w, Dispatch(t, s));
            if s in w.rows && w.rows[s].state.Active?
               && (w.rows[s].pending.Some? || w.rows[s].last != Some(w.now / w.rows[s].interval))
               && s !in w.inflight && |w.inflight| < 4
            then w' == w.(inflight := w.inflight + {s}, threads := w.threads[t := Ticker(s, false, Submitted)])
            else w' == w
  {
    assert s in w.rows ==> RowSound(w.rows[s], w.now);
  }

  /** A recovery is submitted exactly when a claim is pending on a schedule that needs attention or is
      being or has been paused, and no tick of it is out. */
  lemma ReconciledExactly(w: World, t: ThreadId, s: ScheduleId)
    requires t !in w.threads
    ensures var w' := Next(w, Reconcile(t, s));
            if s in w.rows && w.rows[s].pending.Some? && s !in w.inflight
               && (w.rows[s].state.Attention? || w.rows[s].state.Pausing? || w.rows[s].state.Paused?)
            then w' == w.(inflight := w.inflight + {s}, threads := w.threads[t := Ticker(s, true, Submitted)])
            else w' == w
  {
  }

  /** The row with one more claim, for the slot of this moment. */
  predicate ClaimedNow(row: Row, slot: nat, row': Row) {
    row' == row.(pending := Some(slot), evaluations := row.evaluations + 1, claims := row.claims + [slot])
  }

  /** In every reachable state a tick has its schedule, and one that called has its slot pending there,
      of the run it called for. */
  predicate InStep(w: World, t: ThreadId) {
    Ticking(w, t) && (w.threads[t].phase.Calling? ==> InCall(w.rows[w.threads[t].schedule], w.threads[t].phase))
  }

  predicate InCall(row: Row, phase: Phase)
    requires phase.Calling?
  {
    row.pending == Some(phase.slot) && row.run == phase.captured.run
  }

  lemma TicksInStep(w: World, t: ThreadId)
    requires WorldSound(w) && t in w.threads && w.threads[t].Ticker?
    ensures InStep(w, t)
  {
    assert ThreadSound(w, w.threads[t]);
    assert RowSound(w.rows[w.threads[t].schedule], w.now);
  }

  /** What a submitted tick does first: call for the pending slot, claim the current one while the run
      has evaluations left, exhaust a run that has none, or leave. */
  lemma TickBegins(w: World, t: ThreadId)
    requires InStep(w, t) && w.threads[t].phase.Submitted?
    ensures var w', k := Next(w, TickBegin(t)), w.threads[t];
            && k.schedule in w.rows && t in w'.threads && k.schedule in w'.rows
            && w' == w.(rows := w.rows[k.schedule := w'.rows[k.schedule]],
                        threads := w.threads[t := k.(phase := w'.threads[t].phase)])
            && var row, row', phase := w.rows[k.schedule], w'.rows[k.schedule], w'.threads[t].phase;
               && row.interval > 0
               && var slot := w.now / row.interval;
                  if !(if k.recovery
                       then row.pending.Some? && (row.state.Attention? || row.state.Pausing? || row.state.Paused?)
                       else row.state.Active?)
                  then phase.Leaving? && row' == row
                  else if row.pending.Some? then phase == Calling(row, row.pending.value) && row' == row
                  else if row.last == Some(slot) then phase.Leaving? && row' == row
                  else if row.evaluations < row.limit then phase == Calling(row, slot) && ClaimedNow(row, slot, row')
                  else phase.Leaving? && row' == row.(state := Exhausted)
  {
    var k := w.threads[t];
    assert w.rows[k.schedule := w.rows[k.schedule]] == w.rows;
  }

  /** A successful reply closes its slot; it resumes a schedule that still needs attention exactly as the
      recovery found it, and leaves every other state alone. */
  lemma SuccessCloses(w: World, t: ThreadId)
    requires InStep(w, t) && w.threads[t].phase.Calling?
    ensures var w', k := Next(w, TickReply(t, true)), w.threads[t];
            && k.schedule in w.rows
            && var row, was := w.rows[k.schedule], k.phase.captured;
               var resumed := k.recovery && row.state.Attention? && was.state.Attention? && row.request == was.request;
               w' == w.(rows := w.rows[k.schedule := row.(pending := None, last := Some(k.phase.slot),
                                                          state := if resumed then Active else row.state)],
                        threads := w.threads[t := k.(phase := Leaving)])
  {
  }

  /** A failure before or during the call leaves the slot pending, and an active schedule in need of
      attention. */
  lemma FailureNeedsAttention(w: World, t: ThreadId)
    requires InStep(w, t) && !w.threads[t].phase.Leaving?
    ensures var w', k := Next(w, TickReply(t, false)), w.threads[t];
            && k.schedule in w.rows
            && var row := w.rows[k.schedule];
               w' == w.(rows := w.rows[k.schedule := row.(state := if row.state.Active? then Attention else row.state)],
                        threads := w.threads[t := k.(phase := Leaving)])
  {
  }

  /** A tick that leaves frees its place. */
  lemma LeavingFrees(w: World, t: ThreadId)
    requires InStep(w, t) && w.threads[t].phase.Leaving?
    ensures Next(w, TickLeave(t)) == w.(inflight := w.inflight - {w.threads[t].schedule}, threads := w.threads - {t})
  {
  }

  // ---------------------------------------------------------------- a whole tick

  function WholeTick(w: World, t: ThreadId, submit: Step): World {
    Next(Next(Next(Next(w, submit), TickBegin(t)), TickReply(t, true)), TickLeave(t))
  }

  /** A due schedule with a free place is served: its pending slot, or else the current one as one more
      evaluation of the run, is closed, it stays active, and its place is free again. */
  lemma DueIsServed(w: World, t: ThreadId, s: ScheduleId)
    requires WorldSound(w) && t !in w.threads && s in w.rows && s !in w.inflight && |w.inflight| < 4
    requires w.rows[s].state.Active? && w.rows[s].interval > 0
    requires var row := w.rows[s];
             row.pending.Some? || (row.last != Some(w.now / row.interval) && row.evaluations < row.limit)
    ensures var row, slot := w.rows[s], w.now / w.rows[s].interval;
            WholeTick(w, t, Dispatch(t, s)) ==
            w.(rows := w.rows[s := if row.pending.Some? then row.(pending := None, last := row.pending)
                                   else row.(last := Some(slot), evaluations := row.evaluations + 1,
                                             claims := row.claims + [slot])])
  {
    DispatchedExactly(w, t, s);
    CalledAndLeft(w, Next(w, Dispatch(t, s)), t, s);
  }

  /** An undisturbed recovery closes the pending slot without counting anything, and a schedule in need
      of attention is active again. */
  lemma RecoveryResumes(w: World, t: ThreadId, s: ScheduleId)
    requires WorldSound(w) && t !in w.threads && s in w.rows && s !in w.inflight && w.rows[s].pending.Some?
    requires w.rows[s].state.Attention? || w.rows[s].state.Pausing? || w.rows[s].state.Paused?
    ensures var row := w.rows[s];
            WholeTick(w, t, Reconcile(t, s)) ==
            w.(rows := w.rows[s := row.(pending := None, last := row.pending,
                                        state := if row.state.Attention? then Active else row.state)])
  {
    assert RowSound(w.rows[s], w.now);
    ReconciledExactly(w, t, s);
    CalledAndLeft(w, Next(w, Reconcile(t, s)), t, s);
  }

  /** A submitted tick of which the first section calls. */
  lemma CalledAndLeft(w: World, w1: World, t: ThreadId, s: ScheduleId)
    requires t !in w.threads && s in w.rows && s !in w.inflight && w.rows[s].interval > 0
    requires t in w1.threads && w1.threads[t].Ticker? && w1.threads[t].schedule == s && w1.threads[t].phase.Submitted?
    requires w1 == w.(inflight := w.inflight + {s}, threads := w.threads[t := w1.threads[t]])
    requires if w1.threads[t].recovery then Recoverable(w.rows[s]) else w.rows[s].state.Active?
    requires w.rows[s].pending.Some?
             || (w.rows[s].last != Some(w.now / w.rows[s].interval) && w.rows[s].evaluations < w.rows[s].limit)
    ensures var row, slot := w.rows[s], w.now / w.rows[s].interval;
            Next(Next(Next(w1, TickBegin(t)), TickReply(t, true)), TickLeave(t)) ==
            w.(rows := w.rows[s := if row.pending.Some?
                                   then row.(pending := None, last := row.pending,
                                             state := if row.state.Attention? then Active else row.state)
                                   else row.(last := Some(slot), evaluations := row.evaluations + 1,
                                             claims := row.claims + [slot])])
  {
    TickBegins(w1, t);
    AnsweredAndLeft(w, Next(w1, TickBegin(t)), t, s);
  }

  lemma AnsweredAndLeft(w: World, w2: World, t: ThreadId, s: ScheduleId)
    requires t !in w.threads && s !in w.inflight && s in w2.rows && t in w2.threads && w2.rows[s].interval > 0
    requires w2 == w.(inflight := w.inflight + {s}, rows := w.rows[s := w2.rows[s]],
                      threads := w.threads[t := w2.threads[t]])
    requires w2.threads[t].Ticker? && w2.threads[t].schedule == s && w2.threads[t].phase.Calling?
             && InCall(w2.rows[s], w2.threads[t].phase)
    ensures var k, row := w2.threads[t], w2.rows[s];
            var resumed := k.recovery && row.state.Attention? && k.phase.captured.state.Attention?
                           && row.request == k.phase.captured.request;
            Next(Next(w2, TickReply(t, true)), TickLeave(t)) ==
            w.(rows := w.rows[s := row.(pending := None, last := Some(k.phase.slot),
                                        state := if resumed then Active else row.state)])
  {
    var w3 := Next(w2, TickReply(t, true));
    SuccessCloses(w2, t);
    LeavingFrees(w3, t);
    assert w3.inflight - {s} == w.inflight;
    assert w3.threads - {t} == w.threads;
  }

  // ---------------------------------------------------------------- over runs

  /** A run is exhausted only when all its evaluations were claimed, and one that was active has its
      server run. */
  predicate RunFacts(row: Row) {
    && (row.state.Exhausted? ==> row.evaluations == row.limit)
    && (row.state.Active? || row.state.Attention? ==> row.run.Some?)
  }

  predicate AllFacts(rows: map<ScheduleId, Row>) {
    forall s | s in rows :: RunFacts(rows[s])
  }

  /** A step writes at most one row. */
  lemma StepFacts(w: World, step: Step, s: ScheduleId)
    requires s in w.rows ==> RunFacts(w.rows[s]) && w.rows[s].evaluations <= w.rows[s].limit
    requires s in Next(w, step).rows
    ensures RunFacts(Next(w, step).rows[s])
  {
  }

  lemma {:induction false} FactsOverRuns(w: World, steps: seq<Step>)
    requires WorldSound(w) && AllFacts(w.rows)
    ensures AllFacts(Run(w, steps).rows)
    decreases |steps|
  {
    if steps != [] {
      forall s | s in Next(w, steps[0]).rows ensures RunFacts(Next(w, steps[0]).rows[s]) {
        assert s in w.rows ==> RowSound(w.rows[s], w.now);
        StepFacts(w, steps[0], s);
      }
      NextSound(w, steps[0]);
      FactsOverRuns(Next(w, steps[0]), steps[1..]);
    }
  }
}
