/** Booked closes are delivered to the engine until it acknowledges them, and it can acknowledge
    nothing else. */
module CloseDelivery {
  import opened Sums

  type CloseId = string

  /** A stored time: missing, not a time with a zone, or an instant. */
  datatype Stamp = Missing | Unreadable | At(instant: int)

  /** One fully closed position; the journal's own times are always readable. */
  datatype Close = Close(id: CloseId, booked: int, exited: int)

  /** What the engine keeps: three lists of acknowledged closes, its flags, and two times. */
  datatype Risk = Risk(recent: set<CloseId>, seen: set<CloseId>, resumed: set<CloseId>, bootstrapped: bool,
                       incomplete: bool,
                       ingestionFailed: bool, cursor: Stamp, watermark: Stamp)

  function Receipts(risk: Risk): set<CloseId> {
    risk.recent + risk.seen + risk.resumed
  }

  const NOTHING: Risk := Risk({}, {}, {}, false, false, false, Missing, Missing)

  // ---------------------------------------------------------------- delivery

  function BookedAfter(closes: seq<Close>, cursor: int): seq<Close>
    decreases |closes|
  {
    if closes == [] then []
    else (if closes[0].booked > cursor then [closes[0]] else []) + BookedAfter(closes[1..], cursor)
  }

  predicate Unreceipted(risk: Risk, c: Close) {
    c.id !in Receipts(risk)
  }

  /** An unacknowledged close at or before the cursor: the engine's history has a hole. */
  predicate HoleBefore(risk: Risk, closes: seq<Close>, cursor: int) {
    exists c | c in closes :: Unreceipted(risk, c) && c.booked <= cursor
  }

  /** The watermark cannot order a selected, unacknowledged close: it is later, or no time at all. */
  predicate WatermarkPassed(risk: Risk, selected: seq<Close>) {
    !risk.watermark.Missing? && exists c | c in selected ::
      Unreceipted(risk, c) && (risk.watermark.Unreadable? || c.exited < risk.watermark.instant)
  }

  /** The closes to send, and whether they are a complete replay. */
  function Deliver(risk: Risk, closes: seq<Close>, complete: bool): (seq<Close>, bool) {
    if !complete then ([], false)
    else if !risk.bootstrapped || risk.incomplete || risk.ingestionFailed || risk.cursor.Missing? then (closes, true)
    else if closes == [] then ([], false)
    else if risk.cursor.Unreadable? || HoleBefore(risk, closes, risk.cursor.instant) then (closes, true)
    else
      var selected := BookedAfter(closes, risk.cursor.instant);
      if WatermarkPassed(risk, selected) then (closes, true) else (selected, false)
  }

  lemma {:induction false} BookedAfterExactly(closes: seq<Close>, cursor: int)
    ensures forall c :: c in BookedAfter(closes, cursor) <==> c in closes && c.booked > cursor
    decreases |closes|
  {
    if closes != [] {
      BookedAfterExactly(closes[1..], cursor);
      assert closes == [closes[0]] + closes[1..];
    }
  }

  /** With complete history nothing is lost: every booked close the engine has not acknowledged is
      delivered, and only booked closes are. With incomplete history nothing is sent at all. */
  lemma NothingLost(risk: Risk, closes: seq<Close>, complete: bool)
    ensures var delivered := Deliver(risk, closes, complete).0;
            && (forall c | c in delivered :: complete && c in closes)
            && (complete ==> forall c | c in closes && Unreceipted(risk, c) :: c in delivered)
  {
    if complete && !risk.cursor.Missing? && !risk.cursor.Unreadable? {
      BookedAfterExactly(closes, risk.cursor.instant);
    }
  }

  /** A short delivery is sent only to an engine with a sound history: every close up to its
      cursor is acknowledged, and nothing new exited before its watermark. */
  lemma ShortDeliveryExactly(risk: Risk, closes: seq<Close>)
    requires closes != []
    ensures !Deliver(risk, closes, true).1 <==>
            && risk.bootstrapped && !risk.incomplete && !risk.ingestionFailed && risk.cursor.At?
            && (forall c | c in closes && c.booked <= risk.cursor.instant :: c.id in Receipts(risk))
            && (forall c | c in closes && c.booked > risk.cursor.instant && c.id !in Receipts(risk) ::
                  risk.watermark.Missing? || (risk.watermark.At? && risk.watermark.instant <= c.exited))
  {
    if risk.cursor.At? {
      BookedAfterExactly(closes, risk.cursor.instant);
      assert forall c | c in closes && c.id !in Receipts(risk) :: Unreceipted(risk, c);
    }
  }

  /** A replay sends every booked close and a short delivery exactly those booked after the cursor, in
      the order they were booked in. */
  lemma DeliveredExactly(risk: Risk, closes: seq<Close>)
    requires closes != []
    ensures var (delivered, replay) := Deliver(risk, closes, true);
            && (replay ==> delivered == closes)
            && (!replay ==>
                  && risk.cursor.At?
                  && forall c :: c in delivered <==> c in closes && c.booked > risk.cursor.instant)
            && (InOrder(closes) ==> InOrder(delivered))
  {
    if risk.cursor.At? {
      BookedAfterExactly(closes, risk.cursor.instant);
      BookedAfterInOrder(closes, risk.cursor.instant);
    }
  }

  predicate InOrder(closes: seq<Close>) {
    forall i, j | 0 <= i < j < |closes| :: closes[i].booked <= closes[j].booked
  }

  lemma {:induction false} BookedAfterInOrder(closes: seq<Close>, cursor: int)
    ensures InOrder(closes) ==> InOrder(BookedAfter(closes, cursor))
    decreases |closes|
  {
    if closes != [] && InOrder(closes) {
      BookedAfterInOrder(closes[1..], cursor);
      BookedAfterExactly(closes[1..], cursor);
      var rest := BookedAfter(closes[1..], cursor);
      forall k | 0 <= k < |rest| ensures closes[0].booked <= rest[k].booked {
        assert rest[k] in closes[1..];
      }
    }
  }

  // ---------------------------------------------------------------- acceptance

  function Ids(closes: seq<Close>): set<CloseId> {
    set c | c in closes :: c.id
  }

  /** The new cursor is within what was delivered or the cursor before. */
  predicate CursorAllowed(before: Stamp, after: Stamp, delivered: seq<Close>) {
    match after
    case Missing => true
    case Unreadable => false
    case At(t) =>
      !before.Unreadable? && ((exists c | c in delivered :: t <= c.booked) || (before.At? && t <= before.instant))
  }

  predicate RiskAllowed(before: Risk, returned: Option<Risk>, delivered: seq<Close>, complete: bool) {
    && complete && returned.Some? && returned.value.bootstrapped
    && Receipts(returned.value) <= Receipts(before) + Ids(delivered)
    && CursorAllowed(before.cursor, returned.value.cursor, delivered)
  }

  // ---------------------------------------------------------------- runs

  /** An evaluation in flight carries what it read. */
  datatype Evaluation = Evaluation(before: Risk, delivered: seq<Close>, complete: bool, revision: (nat, nat))

  /** `settled` in a commit: no order is still out. */
  datatype Delivery = Delivery(risk: Risk, closes: seq<Close>, executionRevision: nat, bookRevision: nat,
                               out: map<nat, Evaluation>)

  datatype Step =
    | Book(close: Close)
    | Evaluate(thread: nat, complete: bool)
    | Commit(thread: nat, returned: Option<Risk>, settled: bool)

  function Next(d: Delivery, step: Step): Delivery {
    match step
    case Book(close) => d.(closes := d.closes + [close], bookRevision := d.bookRevision + 1)
    case Evaluate(t, complete) =>
      d.(out := d.out[t := Evaluation(d.risk, Deliver(d.risk, d.closes, complete).0, complete,
                                      (d.executionRevision, d.bookRevision))])
    case Commit(t, returned, settled) =>
      if t !in d.out then d
      else
        var e := d.out[t];
        if RiskAllowed(e.before, returned, e.delivered, e.complete && settled)
           && e.revision == (d.executionRevision, d.bookRevision)
        then d.(risk := returned.value, executionRevision := d.executionRevision + 1, out := d.out - {t})
        else d.(out := d.out - {t})
  }

  function Run(d: Delivery, steps: seq<Step>): Delivery
    decreases |steps|
  {
    if steps == [] then d else Run(Next(d, steps[0]), steps[1..])
  }

  /** Receipts name booked closes only, and the cursor is no later than some booked close. */
  predicate Backed(risk: Risk, closes: seq<Close>) {
    && Receipts(risk) <= Ids(closes)
    && !risk.cursor.Unreadable?
    && (risk.cursor.At? ==> exists c | c in closes :: risk.cursor.instant <= c.booked)
  }

  predicate AllBacked(d: Delivery) {
    && Backed(d.risk, d.closes)
    && forall t | t in d.out :: Backed(d.out[t].before, d.closes) && forall c | c in d.out[t].delivered :: c in d.closes
  }

  lemma BackedByMore(risk: Risk, closes: seq<Close>, close: Close)
    requires Backed(risk, closes)
    ensures Backed(risk, closes + [close])
  {
    assert forall c | c in closes :: c in closes + [close];
    assert Ids(closes) <= Ids(closes + [close]);
  }

  lemma AllowedIsBacked(before: Risk, returned: Risk, delivered: seq<Close>, closes: seq<Close>, complete: bool)
    requires Backed(before, closes) && (forall c | c in delivered :: c in closes)
    requires RiskAllowed(before, Some(returned), delivered, complete)
    ensures Backed(returned, closes)
  {
    assert Ids(delivered) <= Ids(closes);
    if returned.cursor.At? {
      if c :| c in delivered && returned.cursor.instant <= c.booked {
        assert c in closes;
      } else {
        var c :| c in closes && before.cursor.instant <= c.booked;
        assert returned.cursor.instant <= c.booked;
      }
    }
  }

  lemma NextBacked(d: Delivery, step: Step)
    requires AllBacked(d)
    ensures AllBacked(Next(d, step))
  {
    match step
    case Book(close) =>
      BackedByMore(d.risk, d.closes, close);
      forall t | t in d.out ensures Backed(d.out[t].before, d.closes + [close]) {
        BackedByMore(d.out[t].before, d.closes, close);
      }
    case Evaluate(t, complete) => NothingLost(d.risk, d.closes, complete);
    case Commit(t, returned, settled) =>
      if t in d.out && RiskAllowed(d.out[t].before, returned, d.out[t].delivered, d.out[t].complete && settled) {
        AllowedIsBacked(d.out[t].before, returned.value, d.out[t].delivered, d.closes, d.out[t].complete && settled);
      }
  }

  /** Whatever the engine answers, and however evaluations overlap with fills: stored receipts name
      booked closes only, the stored cursor never passes the latest booked close, and the next
      complete delivery still contains every close without a receipt. */
  lemma {:induction false} DeliveryIsSafe(d: Delivery, steps: seq<Step>)
    requires AllBacked(d)
    ensures var d' := Run(d, steps);
            && AllBacked(d')
            && (forall id | id in Receipts(d'.risk) :: exists c :: c in d'.closes && c.id == id)
            && (forall c | c in d'.closes && c.id !in Receipts(d'.risk) :: c in Deliver(d'.risk, d'.closes, true).0)
    decreases |steps|
  {
    if steps == [] {
      assert Receipts(d.risk) <= Ids(d.closes);
      NothingLost(d.risk, d.closes, true);
      assert forall c | c in d.closes && c.id !in Receipts(d.risk) :: Unreceipted(d.risk, c);
    } else {
      NextBacked(d, steps[0]);
      DeliveryIsSafe(Next(d, steps[0]), steps[1..]);
    }
  }

  lemma FirstEvaluationIsBacked(closes: seq<Close>)
    ensures AllBacked(Delivery(NOTHING, closes, 0, 0, map[]))
  {
  }

  /** In particular from a strategy's first evaluation on. */
  lemma SafeFromTheFirst(closes: seq<Close>, steps: seq<Step>)
    ensures var d := Run(Delivery(NOTHING, closes, 0, 0, map[]), steps);
            && (forall id | id in Receipts(d.risk) :: exists c :: c in d.closes && c.id == id)
            && (forall c | c in d.closes && c.id !in Receipts(d.risk) :: c in Deliver(d.risk, d.closes, true).0)
  {
    FirstEvaluationIsBacked(closes);
    DeliveryIsSafe(Delivery(NOTHING, closes, 0, 0, map[]), steps);
  }

  // ---------------------------------------------------------------- an honest engine is heard

  /** An engine that kept its history, named nothing but what it knew or was sent, and put its cursor no
      later than a booking it was sent or its own. */
  predicate Honest(e: Evaluation, risk: Risk) {
    && risk.bootstrapped
    && (forall id | id in Receipts(risk) :: id in Receipts(e.before) || exists c :: c in e.delivered && c.id == id)
    && !risk.cursor.Unreadable?
    && (risk.cursor.At? ==>
          && !e.before.cursor.Unreadable?
          && ((e.before.cursor.At? && risk.cursor.instant <= e.before.cursor.instant)
              || exists c :: c in e.delivered && risk.cursor.instant <= c.booked))
  }

  /** An honest answer to a current evaluation of a complete and settled journal is stored, and the
      execution revision advances; any other answer changes nothing but that its evaluation is over. */
  lemma AnswerStoredExactly(d: Delivery, t: nat, returned: Option<Risk>, settled: bool)
    requires t in d.out
    ensures var d', e := Next(d, Commit(t, returned, settled)), d.out[t];
            if e.complete && settled && returned.Some? && Honest(e, returned.value)
               && e.revision.0 == d.executionRevision && e.revision.1 == d.bookRevision
            then d' == d.(risk := returned.value, executionRevision := d.executionRevision + 1, out := d.out - {t})
            else d' == d.(out := d.out - {t})
  {
    if returned.Some? {
      var e := d.out[t];
      assert (Receipts(returned.value) <= Receipts(e.before) + Ids(e.delivered)) <==>
          (forall id | id in Receipts(returned.value) ::
             id in Receipts(e.before) || exists c :: c in e.delivered && c.id == id);
    }
  }

  /** The engine has acknowledged everything booked, and its history is sound up to the last booking. */
  predicate CaughtUp(risk: Risk, closes: seq<Close>) {
    && risk.bootstrapped && !risk.incomplete && !risk.ingestionFailed
    && (forall c | c in closes :: c.id in Receipts(risk))
    && risk.cursor.At? && forall c | c in closes :: c.booked <= risk.cursor.instant
  }

  /** Nothing is sent twice to an engine that has acknowledged everything. */
  lemma CaughtUpIsSentNothing(risk: Risk, closes: seq<Close>)
    requires CaughtUp(risk, closes)
    ensures Deliver(risk, closes, true) == ([], false)
  {
    NoneBookedAfter(closes, risk.cursor.instant);
    assert forall c | c in closes :: !Unreceipted(risk, c);
  }

  lemma {:induction false} NoneBookedAfter(closes: seq<Close>, cursor: int)
    requires forall c | c in closes :: c.booked <= cursor
    ensures BookedAfter(closes, cursor) == []
    decreases |closes|
  {
    if closes != [] {
      NoneBookedAfter(closes[1..], cursor);
    }
  }

  /** An evaluation that is sent all there is and answers with a receipt for each and its cursor at the
      last booking is believed, and the next delivery sends none of it again. */
  lemma AcknowledgedOnce(d: Delivery, t: nat, answer: Risk, last: Close)
    requires AllBacked(d) && last in d.closes && forall c | c in d.closes :: c.booked <= last.booked
    requires var delivered := Deliver(d.risk, d.closes, true).0;
             && last in delivered && answer.cursor == At(last.booked)
             && Receipts(answer) == Receipts(d.risk) + Ids(delivered)
             && answer.bootstrapped && !answer.incomplete && !answer.ingestionFailed
    ensures var d' := Next(Next(d, Evaluate(t, true)), Commit(t, Some(answer), true));
            && d'.risk == answer && d'.closes == d.closes && d'.executionRevision == d.executionRevision + 1
            && Deliver(d'.risk, d'.closes, true) == ([], false)
  {
    var asked := Next(d, Evaluate(t, true));
    AnswerStoredExactly(asked, t, Some(answer), true);
    assert Honest(asked.out[t], answer);
    NothingLost(d.risk, d.closes, true);
    forall c | c in d.closes ensures c.id in Receipts(answer) {
      assert Unreceipted(d.risk, c) ==> c in Deliver(d.risk, d.closes, true).0;
    }
    CaughtUpIsSentNothing(answer, d.closes);
  }

  // ---------------------------------------------------------------- the stored row

  class RiskRow {
    var risk: Risk
    var executionRevision: nat
    var bookRevision: nat

    /** Stores the engine's risk state if it is allowed and the evaluation is still current. */
    method SaveRisk(before: Risk, returned: Option<Risk>, delivered: seq<Close>, revision: (nat, nat), complete: bool)
      returns (accepted: bool)
      modifies this`risk, this`executionRevision
      ensures accepted
              == (RiskAllowed(before, returned, delivered, complete)
                  && revision == (old(executionRevision), bookRevision))
      ensures if accepted then risk == returned.value && executionRevision == old(executionRevision) + 1
              else risk == old(risk) && executionRevision == old(executionRevision)
    {
      if !complete || returned.None? || !returned.value.bootstrapped {
        return false;
      }
      if !(Receipts(returned.value) <= Receipts(before) + Ids(delivered)) {
        return false;
      }
      if !returned.value.cursor.Missing? {
        var bound := LatestBound(before.cursor, delivered);
        if bound.None? || returned.value.cursor.Unreadable? || returned.value.cursor.instant > bound.value {
          return false;
        }
      }
      accepted := revision == (executionRevision, bookRevision);
      if accepted {
        risk, executionRevision := returned.value, executionRevision + 1;
      }
    }

    /** The latest of the delivered bookings and the old cursor; none if there is none or the old
        cursor is no time. */
    method LatestBound(cursor: Stamp, delivered: seq<Close>) returns (bound: Option<int>)
      ensures bound.None? <==> cursor.Unreadable? || (cursor.Missing? && delivered == [])
      ensures bound.Some? ==>
                (cursor.At? && bound.value == cursor.instant) || exists c | c in delivered :: c.booked == bound.value
      ensures bound.Some? ==>
                (cursor.At? ==> cursor.instant <= bound.value) && forall c | c in delivered :: c.booked <= bound.value
    {
      if cursor.Unreadable? {
        return None;
      }
      bound := if cursor.At? then Some(cursor.instant) else None;
      var i := 0;
      while i < |delivered|
        invariant 0 <= i <= |delivered|
        invariant bound.None? <==> cursor.Missing? && i == 0
        invariant bound.Some? ==>
                    || (cursor.At? && bound.value == cursor.instant)
                    || exists c | c in delivered[..i] :: c.booked == bound.value
        invariant bound.Some? ==>
                    && (cursor.At? ==> cursor.instant <= bound.value)
                    && forall c | c in delivered[..i] :: c.booked <= bound.value
      {
        if bound.None? || bound.value < delivered[i].booked {
          bound := Some(delivered[i].booked);
        }
        assert delivered[..i + 1] == delivered[..i] + [delivered[i]];
        i := i + 1;
      }
      assert delivered[..i] == delivered;
    }
  }
}
