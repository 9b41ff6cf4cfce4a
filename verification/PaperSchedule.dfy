/** Paper schedules: the rows, the ticks in flight, and the requests whose replies are still out.

    Every function here is one critical section. Calls to the server happen between sections, so
    what a thread carries across a call is kept as its own value and may be stale on return.
 */
module PaperSchedule {
  import opened Sums

  type ScheduleId = string
  type RequestId = string
  type RunId = string
  type ThreadId = nat

  const CONCURRENT: nat := 4

  const INTERVALS: set<nat> := {60, 300, 900, 3600, 14400, 86400}

  predicate ValidSettings(interval: nat, limit: nat) {
    interval in INTERVALS && 1 <= limit <= 10000
  }

  datatype State = Starting | StartUncertain | StartRejected | Active | Attention | Pausing | Paused | Exhausted

  /** `claims` remembers the slots claimed since the count was last reset; it is history the
      table itself does not keep. */
  datatype Row = Row(state: State, interval: nat, limit: nat, evaluations: nat, request: RequestId, run: Option<RunId>,
                     pending: Option<nat>, last: Option<nat>, claims: seq<nat>)

  // ---------------------------------------------------------------- critical sections, on one row

  predicate Startable(state: State) {
    state.Starting? || state.StartUncertain? || state.StartRejected? || state.Paused? || state.Exhausted?
  }

  predicate StartRefused(row: Row, busy: bool, interval: nat, limit: nat) {
    busy || row.interval != interval || row.limit != limit
    || (!row.state.Active? && (row.pending.Some? || !Startable(row.state)))
  }

  /** An unconfirmed start is repeated under its own request; any other start is a new run. */
  function Started(row: Row, minted: RequestId): Row {
    if row.state.Active? then row
    else if row.state.Starting? || row.state.StartUncertain? then row.(state := Starting)
    else row.(state := Starting, request := minted, evaluations := 0, pending := None, last := None, claims := [])
  }

  function NewRow(interval: nat, limit: nat, minted: RequestId): Row {
    Row(Starting, interval, limit, 0, minted, None, None, None, [])
  }

  datatype StartOutcome = Confirmed(run: RunId) | Uncertain | Rejected

  function StartAnswered(row: Row, request: RequestId, outcome: StartOutcome): Row {
    if !row.state.Starting? || row.request != request then row
    else match outcome
      case Confirmed(run) => row.(state := Active, run := Some(run))
      case Uncertain => row.(state := StartUncertain)
      case Rejected => row.(state := StartRejected)
  }

  function PauseAsked(row: Row, minted: RequestId): Row {
    row.(state := Pausing, request := if row.state.Pausing? then row.request else minted)
  }

  function PauseAnswered(row: Row, request: RequestId, confirmed: bool): Row {
    if confirmed && row.state.Pausing? && row.request == request then row.(state := Paused) else row
  }

  predicate Recoverable(row: Row) {
    row.pending.Some? && (row.state.Attention? || row.state.Paused? || row.state.Pausing?)
  }

  datatype Turn = Quit | Exhaust | Call(slot: nat, row: Row)

  function SlotAt(row: Row, now: nat): nat
    requires row.interval > 0
  {
    now / row.interval
  }

  /** What a tick does before it calls the server: retry the pending slot, claim the current
      one, or neither. */
  function TurnOf(row: Row, recovery: bool, now: nat): Turn
    requires row.interval > 0
  {
    if recovery && !Recoverable(row) then Quit
    else if !recovery && !row.state.Active? then Quit
    else if row.pending.Some? then Call(row.pending.value, row)
    else
      var slot := SlotAt(row, now);
      if row.last == Some(slot) then Quit
      else if row.evaluations >= row.limit then Exhaust
      else Call(slot, row.(pending := Some(slot), evaluations := row.evaluations + 1, claims := row.claims + [slot]))
  }

  /** A successful reply closes the slot it was for; only an undisturbed recovery resumes. */
  function ResultRecorded(row: Row, captured: Row, slot: nat, recovery: bool): Row {
    if row.run != captured.run || row.pending != Some(slot) then row
    else
      var closed := row.(pending := None, last := Some(slot));
      if row.request == captured.request && row.state == captured.state && recovery && row.state.Attention?
      then closed.(state := Active) else closed
  }

  function Failed(row: Row): Row {
    if row.state.Active? then row.(state := Attention) else row
  }

  predicate Due(row: Row, now: nat)
    requires row.interval > 0
  {
    row.state.Active? && !(row.pending.None? && row.last == Some(SlotAt(row, now)))
  }

  // ---------------------------------------------------------------- the machine

  datatype Phase = Submitted | Calling(captured: Row, slot: nat) | Leaving

  datatype Thread =
    | Starter(schedule: ScheduleId, request: RequestId)
    | Pauser(schedule: ScheduleId, request: RequestId)
    | Ticker(schedule: ScheduleId, recovery: bool, phase: Phase)

  /** `used` is every request identity minted so far. */
  datatype World = World(rows: map<ScheduleId, Row>, inflight: set<ScheduleId>, threads: map<ThreadId, Thread>,
                         now: nat, used: set<RequestId>)

  datatype Step =
    | Advance(seconds: nat)
    | Start(thread: ThreadId, schedule: ScheduleId, interval: nat, limit: nat, minted: RequestId)
    | StartReply(thread: ThreadId, outcome: StartOutcome)
    | Pause(thread: ThreadId, schedule: ScheduleId, minted: RequestId)
    | PauseReply(thread: ThreadId, confirmed: bool)
    | Dispatch(thread: ThreadId, schedule: ScheduleId)
    | Reconcile(thread: ThreadId, schedule: ScheduleId)
    | TickBegin(thread: ThreadId)
    | TickReply(thread: ThreadId, success: bool)
    | TickLeave(thread: ThreadId)
    | Crash

  predicate Ticking(w: World, t: ThreadId) {
    t in w.threads && w.threads[t].Ticker? && w.threads[t].schedule in w.rows
    && w.rows[w.threads[t].schedule].interval > 0
  }

  function DoStart(w: World, t: ThreadId, s: ScheduleId, interval: nat, limit: nat, minted: RequestId): World {
    if t in w.threads || minted in w.used || !ValidSettings(interval, limit) then w
    else if s in w.rows && StartRefused(w.rows[s], s in w.inflight, interval, limit) then w
    else if s in w.rows && w.rows[s].state.Active? then w
    else
      var row := if s in w.rows then Started(w.rows[s], minted) else NewRow(interval, limit, minted);
      w.(rows := w.rows[s := row], threads := w.threads[t := Starter(s, row.request)], used := w.used + {minted})
  }

  function DoPause(w: World, t: ThreadId, s: ScheduleId, minted: RequestId): World {
    if t in w.threads || minted in w.used || s !in w.rows then w
    else
      var row := PauseAsked(w.rows[s], minted);
      w.(rows := w.rows[s := row], threads := w.threads[t := Pauser(s, row.request)], used := w.used + {minted})
  }

  function DoDispatch(w: World, t: ThreadId, s: ScheduleId): World {
    if t in w.threads || s !in w.rows || s in w.inflight || |w.inflight| >= CONCURRENT || w.rows[s].interval == 0
       || !Due(w.rows[s], w.now)
    then w
    else w.(inflight := w.inflight + {s}, threads := w.threads[t := Ticker(s, false, Submitted)])
  }

  function DoReconcile(w: World, t: ThreadId, s: ScheduleId): World {
    if t in w.threads || s !in w.rows || s in w.inflight || !Recoverable(w.rows[s]) then w
    else w.(inflight := w.inflight + {s}, threads := w.threads[t := Ticker(s, true, Submitted)])
  }

  function DoBegin(w: World, t: ThreadId): World {
    if !Ticking(w, t) || !w.threads[t].phase.Submitted? then w
    else
      var k := w.threads[t];
      match TurnOf(w.rows[k.schedule], k.recovery, w.now)
      case Quit => w.(threads := w.threads[t := k.(phase := Leaving)])
      case Exhaust =>
        w.(rows := w.rows[k.schedule := w.rows[k.schedule].(state := Exhausted)],
           threads := w.threads[t := k.(phase := Leaving)])
      case Call(slot, row) =>
        w.(rows := w.rows[k.schedule := row], threads := w.threads[t := k.(phase := Calling(w.rows[k.schedule], slot))])
  }

  /** An exception can come from the call, from an unsuccessful reply, or before the call. */
  function DoReply(w: World, t: ThreadId, success: bool): World {
    if !Ticking(w, t) || w.threads[t].phase.Leaving? || (success && !w.threads[t].phase.Calling?) then w
    else
      var k := w.threads[t];
      var row := if success then ResultRecorded(w.rows[k.schedule], k.phase.captured, k.phase.slot, k.recovery)
                 else Failed(w.rows[k.schedule]);
      w.(rows := w.rows[k.schedule := row], threads := w.threads[t := k.(phase := Leaving)])
  }

  function DoLeave(w: World, t: ThreadId): World {
    if !Ticking(w, t) || !w.threads[t].phase.Leaving? then w
    else w.(inflight := w.inflight - {w.threads[t].schedule}, threads := w.threads - {t})
  }

  function Next(w: World, step: Step): World {
    match step
    case Advance(seconds) => w.(now := w.now + seconds)
    case Start(t, s, interval, limit, minted) => DoStart(w, t, s, interval, limit, minted)
    case StartReply(t, outcome) =>
      if t !in w.threads || !w.threads[t].Starter? || w.threads[t].schedule !in w.rows then w
      else
        var k := w.threads[t];
        w.(rows := w.rows[k.schedule := StartAnswered(w.rows[k.schedule], k.request, outcome)],
           threads := w.threads - {t})
    case Pause(t, s, minted) => DoPause(w, t, s, minted)
    case PauseReply(t, confirmed) =>
      if t !in w.threads || !w.threads[t].Pauser? || w.threads[t].schedule !in w.rows then w
      else
        var k := w.threads[t];
        w.(rows := w.rows[k.schedule := PauseAnswered(w.rows[k.schedule], k.request, confirmed)],
           threads := w.threads - {t})
    case Dispatch(t, s) => DoDispatch(w, t, s)
    case Reconcile(t, s) => DoReconcile(w, t, s)
    case TickBegin(t) => DoBegin(w, t)
    case TickReply(t, success) => DoReply(w, t, success)
    case TickLeave(t) => DoLeave(w, t)
    case Crash => w.(inflight := {}, threads := map[])
  }

  function Run(w: World, steps: seq<Step>): World
    decreases |steps|
  {
    if steps == [] then w else Run(Next(w, steps[0]), steps[1..])
  }

  // ---------------------------------------------------------------- what every state keeps

  predicate Increasing(claims: seq<nat>) {
    forall i, j | 0 <= i < j < |claims| :: claims[i] < claims[j]
  }

  function LastOf(claims: seq<nat>): Option<nat> {
    if claims == [] then None else Some(claims[|claims| - 1])
  }

  predicate BeforeRun(state: State) {
    state.Starting? || state.StartUncertain? || state.StartRejected?
  }

  /** The count is the number of claims, claims increase and are not in the future, and the last
      of them is either pending or the last one closed. */
  predicate RowSound(row: Row, now: nat) {
    && row.interval > 0
    && row.evaluations == |row.claims| <= row.limit
    && Increasing(row.claims)
    && (forall i | 0 <= i < |row.claims| :: row.claims[i] <= now / row.interval)
    && (if row.pending.Some? then
          && row.claims != [] && row.pending == LastOf(row.claims)
          && row.last == LastOf(row.claims[..|row.claims| - 1])
        else row.last == LastOf(row.claims))
    && (BeforeRun(row.state) ==> row.pending.None?)
  }

  /** While a tick is out, its slot stays pending and no new run can begin. */
  predicate ThreadSound(w: World, k: Thread) {
    && k.schedule in w.rows
    && (k.Ticker? ==> k.schedule in w.inflight && !BeforeRun(w.rows[k.schedule].state))
    && (k.Ticker? && k.phase.Calling? ==>
          && w.rows[k.schedule].pending == Some(k.phase.slot) && w.rows[k.schedule].run == k.phase.captured.run
          && k.phase.captured.request in w.used)
    && (!k.Ticker? ==> k.request in w.used)
  }

  predicate OneTicker(threads: map<ThreadId, Thread>) {
    forall t, u | t in threads && u in threads && t != u && threads[t].Ticker? && threads[u].Ticker? ::
      threads[t].schedule != threads[u].schedule
  }

  predicate WorldSound(w: World) {
    && (forall s | s in w.rows :: RowSound(w.rows[s], w.now) && w.rows[s].request in w.used)
    && (forall t | t in w.threads :: ThreadSound(w, w.threads[t]))
    && (forall s | s in w.inflight :: exists t :: t in w.threads && w.threads[t].Ticker? && w.threads[t].schedule == s)
    && OneTicker(w.threads)
  }

  // ---------------------------------------------------------------- one step

  /** No ticker of the schedule can tell the rows apart. */
  predicate Undisturbed(row: Row, row': Row) {
    row'.pending == row.pending && row'.run == row.run && (BeforeRun(row'.state) ==> BeforeRun(row.state))
  }

  /** One row is rewritten, and at most one thread with it; every other ticker of the schedule is
      undisturbed. */
  lemma RowWritten(w: World, s: ScheduleId, row: Row, w': World)
    requires WorldSound(w) && w'.rows == w.rows[s := row] && w'.now == w.now && w.used <= w'.used
             && w'.inflight == w.inflight
    requires RowSound(row, w.now) && row.request in w'.used
    requires s in w.rows && Undisturbed(w.rows[s], row)
    requires forall t | t in w'.threads && (t !in w.threads || w'.threads[t] != w.threads[t]) ::
               ThreadSound(w', w'.threads[t])
    requires forall t | t in w.threads && w.threads[t].Ticker? ::
               t in w'.threads && w'.threads[t].Ticker? && w'.threads[t].schedule == w.threads[t].schedule
    requires forall t | t in w'.threads && w'.threads[t].Ticker? :: t in w.threads && w.threads[t].Ticker?
    ensures WorldSound(w')
  {
    forall t | t in w'.threads ensures ThreadSound(w', w'.threads[t]) {
      if t in w.threads && w'.threads[t] == w.threads[t] {
        assert ThreadSound(w, w.threads[t]);
      }
    }
    forall z | z in w'.inflight
      ensures exists t :: t in w'.threads && w'.threads[t].Ticker? && w'.threads[t].schedule == z
    {
      var t :| t in w.threads && w.threads[t].Ticker? && w.threads[t].schedule == z;
      assert w'.threads[t].schedule == z;
    }
  }

  lemma AdvanceSound(w: World, seconds: nat)
    requires WorldSound(w)
    ensures WorldSound(w.(now := w.now + seconds))
  {
    var w' := w.(now := w.now + seconds);
    forall s | s in w'.rows ensures RowSound(w'.rows[s], w'.now) {
      assert RowSound(w.rows[s], w.now);
      SlotsGrow(w.now, seconds, w.rows[s].interval);
    }
    forall t | t in w'.threads ensures ThreadSound(w', w'.threads[t]) {
      assert ThreadSound(w, w.threads[t]);
    }
  }

  lemma SlotsGrow(now: nat, seconds: nat, interval: nat)
    requires interval > 0
    ensures now / interval <= (now + seconds) / interval
  {
    var q, q' := now / interval, (now + seconds) / interval;
    assert q >= q' + 1 ==> interval * q >= interval * (q' + 1);
  }

  lemma StartSound(w: World, t: ThreadId, s: ScheduleId, interval: nat, limit: nat, minted: RequestId)
    requires WorldSound(w)
    ensures WorldSound(DoStart(w, t, s, interval, limit, minted))
  {
    if DoStart(w, t, s, interval, limit, minted) != w {
      if s in w.rows {
        StartedSound(w.rows[s], minted, w.now);
      }
      assert s !in w.inflight by {
        if s in w.inflight {
          TickerOf(w, s);
        }
      }
      StarterAdded(w, t, s, if s in w.rows then Started(w.rows[s], minted) else NewRow(interval, limit, minted),
                   minted);
    }
  }

  lemma StartedSound(row: Row, minted: RequestId, now: nat)
    requires RowSound(row, now) && row.pending.None? && !row.state.Active?
    ensures RowSound(Started(row, minted), now)
            && (Started(row, minted).request == row.request || Started(row, minted).request == minted)
  {
  }

  lemma TickerOf(w: World, s: ScheduleId)
    requires WorldSound(w) && s in w.inflight
    ensures s in w.rows
  {
    var t :| t in w.threads && w.threads[t].Ticker? && w.threads[t].schedule == s;
    assert ThreadSound(w, w.threads[t]);
  }

  /** With no tick out, a schedule may begin a run. */
  lemma StarterAdded(w: World, t: ThreadId, s: ScheduleId, row: Row, minted: RequestId)
    requires WorldSound(w) && t !in w.threads && s !in w.inflight
    requires RowSound(row, w.now) && (row.request == minted || row.request in w.used)
    ensures WorldSound(w.(rows := w.rows[s := row], threads := w.threads[t := Starter(s, row.request)],
                          used := w.used + {minted}))
  {
    var w' := w.(rows := w.rows[s := row], threads := w.threads[t := Starter(s, row.request)],
                 used := w.used + {minted});
    forall u | u in w'.threads ensures ThreadSound(w', w'.threads[u]) {
      if u != t {
        assert ThreadSound(w, w.threads[u]);
      }
    }
    forall z | z in w'.inflight
      ensures exists u :: u in w'.threads && w'.threads[u].Ticker? && w'.threads[u].schedule == z
    {
      var u :| u in w.threads && w.threads[u].Ticker? && w.threads[u].schedule == z;
      assert w'.threads[u].schedule == z;
    }
  }

  lemma PauseSound(w: World, t: ThreadId, s: ScheduleId, minted: RequestId)
    requires WorldSound(w)
    ensures WorldSound(DoPause(w, t, s, minted))
  {
    if t !in w.threads && minted !in w.used && s in w.rows {
      assert RowSound(w.rows[s], w.now);
      RowWritten(w, s, PauseAsked(w.rows[s], minted), DoPause(w, t, s, minted));
    }
  }

  /** The reply of a start or a pause; the thread ends with it. */
  lemma AnswerSound(w: World, t: ThreadId, row: Row)
    requires WorldSound(w) && t in w.threads && !w.threads[t].Ticker? && w.threads[t].schedule in w.rows
    requires Undisturbed(w.rows[w.threads[t].schedule], row) || row.state.Active?
    requires row.state.Active? && !Undisturbed(w.rows[w.threads[t].schedule], row)
             ==> BeforeRun(w.rows[w.threads[t].schedule].state)
    requires RowSound(row, w.now) && row.request in w.used
    ensures WorldSound(w.(rows := w.rows[w.threads[t].schedule := row], threads := w.threads - {t}))
  {
    var s := w.threads[t].schedule;
    var w' := w.(rows := w.rows[s := row], threads := w.threads - {t});
    forall u | u in w'.threads ensures ThreadSound(w', w'.threads[u]) {
      assert ThreadSound(w, w.threads[u]);
    }
    forall z | z in w'.inflight
      ensures exists u :: u in w'.threads && w'.threads[u].Ticker? && w'.threads[u].schedule == z
    {
      var u :| u in w.threads && w.threads[u].Ticker? && w.threads[u].schedule == z;
      assert w'.threads[u].schedule == z;
    }
  }

  lemma StartReplySound(w: World, t: ThreadId, outcome: StartOutcome)
    requires WorldSound(w)
    ensures WorldSound(Next(w, StartReply(t, outcome)))
  {
    if t in w.threads && w.threads[t].Starter? && w.threads[t].schedule in w.rows {
      assert RowSound(w.rows[w.threads[t].schedule], w.now);
      AnswerSound(w, t, StartAnswered(w.rows[w.threads[t].schedule], w.threads[t].request, outcome));
    }
  }

  lemma PauseReplySound(w: World, t: ThreadId, confirmed: bool)
    requires WorldSound(w)
    ensures WorldSound(Next(w, PauseReply(t, confirmed)))
  {
    if t in w.threads && w.threads[t].Pauser? && w.threads[t].schedule in w.rows {
      assert RowSound(w.rows[w.threads[t].schedule], w.now);
      AnswerSound(w, t, PauseAnswered(w.rows[w.threads[t].schedule], w.threads[t].request, confirmed));
    }
  }

  lemma SubmitSound(w: World, t: ThreadId, s: ScheduleId, recovery: bool)
    requires WorldSound(w) && t !in w.threads && s in w.rows && s !in w.inflight && !BeforeRun(w.rows[s].state)
    ensures WorldSound(w.(inflight := w.inflight + {s}, threads := w.threads[t := Ticker(s, recovery, Submitted)]))
  {
    var w' := w.(inflight := w.inflight + {s}, threads := w.threads[t := Ticker(s, recovery, Submitted)]);
    forall u | u in w'.threads ensures ThreadSound(w', w'.threads[u]) {
      assert u != t ==> ThreadSound(w, w.threads[u]);
    }
    forall z | z in w'.inflight
      ensures exists u :: u in w'.threads && w'.threads[u].Ticker? && w'.threads[u].schedule == z
    {
      if z == s {
        assert w'.threads[t].schedule == s;
      } else {
        var u :| u in w.threads && w.threads[u].Ticker? && w.threads[u].schedule == z;
        assert w'.threads[u].schedule == z;
      }
    }
  }

  /** A claim is later than every earlier one, because the clock does not run backwards and the
      last claim is the last slot closed. */
  lemma ClaimSound(row: Row, recovery: bool, now: nat)
    requires RowSound(row, now)
    ensures var turn := TurnOf(row, recovery, now);
            turn.Call? ==>
              && RowSound(turn.row, now) && turn.row.pending == Some(turn.slot)
              && LastOf(turn.row.claims) == Some(turn.slot)
  {
    var turn := TurnOf(row, recovery, now);
    if turn.Call? && row.pending.None? {
      assert turn.row.claims[..|turn.row.claims| - 1] == row.claims;
    }
  }

  lemma BeginSound(w: World, t: ThreadId)
    requires WorldSound(w)
    ensures WorldSound(DoBegin(w, t))
  {
    if Ticking(w, t) && w.threads[t].phase.Submitted? {
      var k := w.threads[t];
      var row := w.rows[k.schedule];
      assert RowSound(row, w.now) && ThreadSound(w, k);
      ClaimSound(row, k.recovery, w.now);
      var turn := TurnOf(row, k.recovery, w.now);
      var row' := if turn.Quit? then row else if turn.Exhaust? then row.(state := Exhausted) else turn.row;
      TickerMoves(w, t, row', DoBegin(w, t));
    }
  }

  /** A ticker's own section: no other ticker works on the schedule, so it may change the row. */
  lemma TickerMoves(w: World, t: ThreadId, row: Row, w': World)
    requires WorldSound(w) && t in w.threads && w.threads[t].Ticker? && t in w'.threads && w'.threads[t].Ticker?
    requires var s := w.threads[t].schedule;
             && w'.threads[t].schedule == s
             && w'.rows == w.rows[s := row] && w'.threads == w.threads[t := w'.threads[t]]
             && w'.now == w.now && w'.used == w.used && w'.inflight == w.inflight
             && RowSound(row, w.now) && row.request in w.used && !BeforeRun(row.state)
             && ThreadSound(w', w'.threads[t])
    ensures WorldSound(w')
  {
    forall u | u in w'.threads ensures ThreadSound(w', w'.threads[u]) {
      if u != t {
        assert ThreadSound(w, w.threads[u]);
      }
    }
    forall z | z in w'.inflight
      ensures exists u :: u in w'.threads && w'.threads[u].Ticker? && w'.threads[u].schedule == z
    {
      var u :| u in w.threads && w.threads[u].Ticker? && w.threads[u].schedule == z;
      assert w'.threads[u].schedule == z;
    }
  }

  lemma ReplySound(w: World, t: ThreadId, success: bool)
    requires WorldSound(w)
    ensures WorldSound(DoReply(w, t, success))
  {
    if Ticking(w, t) && !w.threads[t].phase.Leaving? && (success ==> w.threads[t].phase.Calling?) {
      var k := w.threads[t];
      assert RowSound(w.rows[k.schedule], w.now) && ThreadSound(w, k);
      TickerMoves(w, t, DoReply(w, t, success).rows[k.schedule], DoReply(w, t, success));
    }
  }

  lemma LeaveSound(w: World, t: ThreadId)
    requires WorldSound(w)
    ensures WorldSound(DoLeave(w, t))
  {
    if Ticking(w, t) && w.threads[t].phase.Leaving? {
      var w' := DoLeave(w, t);
      forall u | u in w'.threads ensures ThreadSound(w', w'.threads[u]) {
        assert ThreadSound(w, w.threads[u]);
      }
      forall z | z in w'.inflight
        ensures exists u :: u in w'.threads && w'.threads[u].Ticker? && w'.threads[u].schedule == z
      {
        var u :| u in w.threads && w.threads[u].Ticker? && w.threads[u].schedule == z;
        assert w'.threads[u].schedule == z;
      }
    }
  }

  lemma DispatchSound(w: World, t: ThreadId, s: ScheduleId)
    requires WorldSound(w)
    ensures WorldSound(DoDispatch(w, t, s))
  {
    if DoDispatch(w, t, s) != w {
      SubmitSound(w, t, s, false);
    }
  }

  lemma ReconcileSound(w: World, t: ThreadId, s: ScheduleId)
    requires WorldSound(w)
    ensures WorldSound(DoReconcile(w, t, s))
  {
    if DoReconcile(w, t, s) != w {
      SubmitSound(w, t, s, true);
    }
  }

  lemma NextSound(w: World, step: Step)
    requires WorldSound(w)
    ensures WorldSound(Next(w, step))
  {
    match step
    case Advance(seconds) => AdvanceSound(w, seconds);
    case Start(t, s, interval, limit, minted) => StartSound(w, t, s, interval, limit, minted);
    case StartReply(t, outcome) => StartReplySound(w, t, outcome);
    case Pause(t, s, minted) => PauseSound(w, t, s, minted);
    case PauseReply(t, confirmed) => PauseReplySound(w, t, confirmed);
    case Dispatch(t, s) => DispatchSound(w, t, s);
    case Reconcile(t, s) => ReconcileSound(w, t, s);
    case TickBegin(t) => BeginSound(w, t);
    case TickReply(t, success) => ReplySound(w, t, success);
    case TickLeave(t) => LeaveSound(w, t);
    case Crash =>
  }

  lemma {:induction false} RunSound(w: World, steps: seq<Step>)
    requires WorldSound(w)
    ensures WorldSound(Run(w, steps))
    decreases |steps|
  {
    if steps != [] {
      NextSound(w, steps[0]);
      RunSound(Next(w, steps[0]), steps[1..]);
    }
  }

  // ---------------------------------------------------------------- every run

  function Opening(now: nat): World {
    World(map[], {}, map[], now, {})
  }

  /** Under any interleaving of starts, pauses, ticks, recoveries, late replies and crashes: a
      run's evaluations stay within its maximum, every slot it claims is later than the one
      before, and a schedule has at most one tick out. */
  lemma ScheduleBounds(now: nat, steps: seq<Step>, s: ScheduleId)
    requires s in Run(Opening(now), steps).rows
    ensures var w := Run(Opening(now), steps);
            && w.rows[s].evaluations == |w.rows[s].claims| <= w.rows[s].limit
            && Increasing(w.rows[s].claims)
            && OneTicker(w.threads)
            && (forall t | t in w.threads && w.threads[t].Ticker? :: w.threads[t].schedule in w.inflight)
  {
    RunSound(Opening(now), steps);
    var w := Run(Opening(now), steps);
    assert RowSound(w.rows[s], w.now);
    forall t | t in w.threads && w.threads[t].Ticker? ensures w.threads[t].schedule in w.inflight {
      assert ThreadSound(w, w.threads[t]);
    }
  }

  /** Every call is for a slot not yet closed: a new claim, later than all before it and counted
      once, or a retry of the pending claim that counts nothing. */
  lemma CallsCarryOpenSlots(w: World, t: ThreadId)
    requires WorldSound(w) && Ticking(w, t) && w.threads[t].phase.Submitted? && DoBegin(w, t).threads[t].phase.Calling?
    ensures var s, slot := w.threads[t].schedule, DoBegin(w, t).threads[t].phase.slot;
            var row, row' := w.rows[s], DoBegin(w, t).rows[s];
            && row'.pending == Some(slot) && row.last != Some(slot)
            && (row.pending.None? ==>
                  row'.evaluations == row.evaluations + 1 && row'.claims == row.claims + [slot]
                  && forall i | 0 <= i < |row.claims| :: row.claims[i] < slot)
            && (row.pending.Some? ==> row' == row && LastOf(row.claims) == Some(slot))
  {
    var k := w.threads[t];
    assert RowSound(w.rows[k.schedule], w.now);
    ClaimSound(w.rows[k.schedule], k.recovery, w.now);
  }

  /** The guard on a reply never turns a success away: nothing can have moved the schedule on
      while its tick was out. */
  lemma SuccessIsRecorded(w: World, t: ThreadId)
    requires WorldSound(w) && Ticking(w, t) && w.threads[t].phase.Calling?
    ensures var s, slot := w.threads[t].schedule, w.threads[t].phase.slot;
            var row, row' := w.rows[s], DoReply(w, t, true).rows[s];
            && row'.last == Some(slot) && row'.pending.None?
            && row'.evaluations == row.evaluations && row'.claims == row.claims
  {
    assert ThreadSound(w, w.threads[t]);
  }

  /** Once a request has been replaced it stays replaced, so however late its reply comes, it
      changes nothing. */
  lemma {:induction false} SupersededNeverActivates(w: World, s: ScheduleId, stale: RequestId, steps: seq<Step>,
                                                    t: ThreadId, outcome: StartOutcome)
    requires s in w.rows && stale in w.used && w.rows[s].request != stale
    ensures var w' := Run(w, steps);
            && s in w'.rows && w'.rows[s].request != stale
            && (t in w'.threads && w'.threads[t] == Starter(s, stale)
               ==> Next(w', StartReply(t, outcome)).rows == w'.rows)
    decreases |steps|
  {
    if steps != [] {
      SupersededStep(w, s, stale, steps[0]);
      SupersededNeverActivates(Next(w, steps[0]), s, stale, steps[1..], t, outcome);
    }
  }

  lemma SupersededStep(w: World, s: ScheduleId, stale: RequestId, step: Step)
    requires s in w.rows && stale in w.used && w.rows[s].request != stale
    ensures var w' := Next(w, step); s in w'.rows && stale in w'.used && w'.rows[s].request != stale
  {
  }

  predicate Stopped(state: State) {
    state.Pausing? || state.Paused? || state.Exhausted? || state.StartRejected?
  }

  predicate Starts(step: Step, s: ScheduleId) {
    step.Start? && step.schedule == s
  }

  /** A stopped schedule stays stopped, and claims nothing, until someone starts it: no reply that
      was still out and no recovery brings it back. */
  lemma {:induction false} StoppedUntilStarted(w: World, s: ScheduleId, steps: seq<Step>)
    requires s in w.rows && Stopped(w.rows[s].state)
    requires forall i | 0 <= i < |steps| :: !Starts(steps[i], s)
    ensures var w' := Run(w, steps);
            s in w'.rows && Stopped(w'.rows[s].state) && w'.rows[s].claims == w.rows[s].claims
            && w'.rows[s].evaluations == w.rows[s].evaluations
    decreases |steps|
  {
    if steps != [] {
      StoppedStep(w, s, steps[0]);
      StoppedUntilStarted(Next(w, steps[0]), s, steps[1..]);
    }
  }

  lemma StoppedStep(w: World, s: ScheduleId, step: Step)
    requires s in w.rows && Stopped(w.rows[s].state) && !Starts(step, s)
    ensures var w' := Next(w, step);
            s in w'.rows && Stopped(w'.rows[s].state) && w'.rows[s].claims == w.rows[s].claims
            && w'.rows[s].evaluations == w.rows[s].evaluations
  {
  }

  // ---------------------------------------------------------------- the service

  predicate Known(rows: map<ScheduleId, Row>, order: seq<ScheduleId>) {
    forall i | 0 <= i < |order| :: order[i] in rows && rows[order[i]].interval > 0
  }

  /** Submit due schedules in the given order while fewer than four ticks are out. */
  function Chosen(rows: map<ScheduleId, Row>, inflight: set<ScheduleId>, order: seq<ScheduleId>,
                  now: nat): seq<ScheduleId>
    requires Known(rows, order)
    decreases |order|
  {
    if order == [] || |inflight| >= CONCURRENT then []
    else if order[0] in inflight || !Due(rows[order[0]], now) then Chosen(rows, inflight, order[1..], now)
    else [order[0]] + Chosen(rows, inflight + {order[0]}, order[1..], now)
  }

  /** Dispatch fills free places in order: what it submits was due and not in flight, each once;
      it never exceeds four, and leaves a due schedule out only when four are in flight. */
  lemma {:induction false} DispatchFills(rows: map<ScheduleId, Row>, inflight: set<ScheduleId>, order: seq<ScheduleId>,
                                         now: nat)
    requires Known(rows, order)
    ensures var out := Chosen(rows, inflight, order, now);
            && (forall i | 0 <= i < |out| ::
                 out[i] in order && out[i] !in inflight && out[i] in rows && rows[out[i]].interval > 0
                 && Due(rows[out[i]], now))
            && (forall i, j | 0 <= i < j < |out| :: out[i] != out[j])
            && (|inflight| + |out| <= CONCURRENT || out == [])
            && (forall i | 0 <= i < |order| && Due(rows[order[i]], now) && order[i] !in inflight && order[i] !in out ::
                 |inflight| + |out| >= CONCURRENT)
    decreases |order|
  {
    if order != [] && |inflight| < CONCURRENT {
      if order[0] in inflight || !Due(rows[order[0]], now) {
        DispatchFills(rows, inflight, order[1..], now);
      } else {
        DispatchFills(rows, inflight + {order[0]}, order[1..], now);
      }
    }
  }

  lemma OneMoreOut(before: set<ScheduleId>, out: seq<ScheduleId>, s: ScheduleId)
    ensures before + (set x | x in out + [s]) == before + (set x | x in out) + {s}
  {
  }

  class Service {
    var rows: map<ScheduleId, Row>
    var inflight: set<ScheduleId>

    ghost predicate Valid()
      reads this
    {
      forall s | s in rows :: rows[s].interval > 0
    }

    /** The claim of a start: the request to send, or nothing when refused or already active. */
    method Start(s: ScheduleId, interval: nat, limit: nat, minted: RequestId) returns (request: Option<RequestId>)
      requires Valid()
      modifies this`rows
      ensures Valid()
      ensures var known := s in old(rows);
              if !ValidSettings(interval, limit)
                 || (known && (StartRefused(old(rows)[s], s in inflight, interval, limit)
                               || old(rows)[s].state.Active?))
              then request.None? && rows == old(rows)
              else
                var row := if known then Started(old(rows)[s], minted) else NewRow(interval, limit, minted);
                rows == old(rows)[s := row] && request == Some(row.request)
    {
      if !ValidSettings(interval, limit) {
        return None;
      }
      if s in rows {
        var row := rows[s];
        if s in inflight || row.interval != interval || row.limit != limit || row.state.Active? {
          return None;
        }
        if row.pending.Some? || !Startable(row.state) {
          return None;
        }
        if !row.state.Starting? && !row.state.StartUncertain? {
          row := row.(request := minted, evaluations := 0, pending := None, last := None, claims := []);
        }
        rows := rows[s := row.(state := Starting)];
      } else {
        rows := rows[s := NewRow(interval, limit, minted)];
      }
      request := Some(rows[s].request);
    }

    method StartAnswer(s: ScheduleId, request: RequestId, outcome: StartOutcome)
      requires Valid()
      modifies this`rows
      ensures Valid()
      ensures rows == if s in old(rows) then old(rows)[s := StartAnswered(old(rows)[s], request, outcome)]
                      else old(rows)
    {
      if s in rows && rows[s].state.Starting? && rows[s].request == request {
        match outcome
        case Confirmed(run) => rows := rows[s := rows[s].(run := Some(run), state := Active)];
        case Uncertain => rows := rows[s := rows[s].(state := StartUncertain)];
        case Rejected => rows := rows[s := rows[s].(state := StartRejected)];
      }
    }

    /** The claim of a pause: local scheduling stops before the server is asked. */
    method Pause(s: ScheduleId, minted: RequestId) returns (request: Option<RequestId>)
      requires Valid()
      modifies this`rows
      ensures Valid()
      ensures request.None? <==> s !in old(rows)
      ensures rows == if s in old(rows) then old(rows)[s := PauseAsked(old(rows)[s], minted)] else old(rows)
      ensures request.Some? ==> rows[s].request == request.value
    {
      request := None;
      if s in rows {
        request := Some(if rows[s].state.Pausing? then rows[s].request else minted);
        rows := rows[s := rows[s].(state := Pausing, request := request.value)];
      }
    }

    /** A confirmation counts only for the request that is still pausing. */
    method PauseAnswer(s: ScheduleId, request: RequestId, confirmed: bool) returns (paused: bool)
      requires Valid()
      modifies this`rows
      ensures Valid()
      ensures paused == (s in old(rows) && confirmed && old(rows)[s].state.Pausing? && old(rows)[s].request == request)
      ensures rows == if s in old(rows) then old(rows)[s := PauseAnswered(old(rows)[s], request, confirmed)]
                      else old(rows)
    {
      paused := confirmed && s in rows && rows[s].state.Pausing? && rows[s].request == request;
      if paused {
        rows := rows[s := rows[s].(state := Paused)];
      }
    }

    /** The first section of a tick. */
    method BeginTick(s: ScheduleId, recovery: bool, now: nat) returns (turn: Turn)
      requires Valid() && s in rows
      modifies this`rows
      ensures Valid()
      ensures turn == TurnOf(old(rows)[s], recovery, now)
      ensures rows == match turn
                      case Quit => old(rows)
                      case Exhaust => old(rows)[s := old(rows)[s].(state := Exhausted)]
                      case Call(_, row) => old(rows)[s := row]
    {
      var row := rows[s];
      if recovery {
        if row.pending.None? || !(row.state.Attention? || row.state.Paused? || row.state.Pausing?) {
          return Quit;
        }
      } else if !row.state.Active? {
        return Quit;
      }
      if row.pending.Some? {
        return Call(row.pending.value, row);
      }
      var slot := now / row.interval;
      if row.last == Some(slot) {
        return Quit;
      }
      if row.evaluations >= row.limit {
        rows := rows[s := row.(state := Exhausted)];
        return Exhaust;
      }
      rows := rows[s := row.(pending := Some(slot), evaluations := row.evaluations + 1, claims := row.claims + [slot])];
      turn := Call(slot, rows[s]);
    }

    method RecordResult(s: ScheduleId, captured: Row, slot: nat, recovery: bool)
      requires Valid() && s in rows
      modifies this`rows
      ensures Valid()
      ensures rows == old(rows)[s := ResultRecorded(old(rows)[s], captured, slot, recovery)]
    {
      var current := rows[s];
      if current.run == captured.run && current.pending == Some(slot) {
        var values := current.(pending := None, last := Some(slot));
        if current.request == captured.request && current.state == captured.state {
          if recovery && current.state.Attention? {
            values := values.(state := Active);
          }
        }
        rows := rows[s := values];
      }
    }

    /** Any failure of a tick: an active schedule makes no further calls. */
    method RecordFailure(s: ScheduleId)
      requires Valid()
      modifies this`rows
      ensures Valid()
      ensures rows == if s in old(rows) then old(rows)[s := Failed(old(rows)[s])] else old(rows)
    {
      if s in rows && rows[s].state.Active? {
        rows := rows[s := rows[s].(state := Attention)];
      }
    }

    method Reconcile(s: ScheduleId) returns (begun: bool)
      modifies this`inflight
      ensures begun == (s in rows && Recoverable(rows[s]) && s !in old(inflight))
      ensures inflight == old(inflight) + (if begun then {s} else {})
    {
      begun := s in rows && Recoverable(rows[s]) && s !in inflight;
      if begun {
        inflight := inflight + {s};
      }
    }

    /** `order` is the query's answer: the active schedules, oldest slot first. */
    method Dispatch(order: seq<ScheduleId>, now: nat) returns (out: seq<ScheduleId>)
      requires Valid() && forall i | 0 <= i < |order| :: order[i] in rows
      modifies this`inflight
      ensures out == Chosen(rows, old(inflight), order, now)
      ensures inflight == old(inflight) + set s | s in out
      ensures |inflight| <= CONCURRENT || inflight == old(inflight)
    {
      out := [];
      if |inflight| >= CONCURRENT {
        return;
      }
      var rest := order;
      while rest != []
        modifies this`inflight
        invariant Known(rows, rest) && |inflight| <= CONCURRENT
        invariant inflight == old(inflight) + set s | s in out
        invariant Chosen(rows, old(inflight), order, now) == out + Chosen(rows, inflight, rest, now)
        decreases |rest|
      {
        if |inflight| >= CONCURRENT {
          break;
        }
        var s := rest[0];
        var due := rows[s].state.Active? && !(rows[s].pending.None? && rows[s].last == Some(now / rows[s].interval));
        assert due == Due(rows[s], now);
        if due && s !in inflight {
          OneMoreOut(old(inflight), out, s);
          inflight := inflight + {s};
          out := out + [s];
        }
        rest := rest[1..];
      }
    }
  }
}
