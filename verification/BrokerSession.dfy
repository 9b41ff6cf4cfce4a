/** The broker driver: which journal transactions a submission, a reconciliation or a cancellation
    makes, one caller at a time, whatever the venue answers. */
module BrokerSession {
  import opened Sums
  import opened BrokerBook
  import opened BrokerReservations
  import BrokerChunking
  import BrokerStore
  import BrokerReplies
  import BrokerProgress

  /** What came of a submission. A process that dies records nothing more. */
  datatype Answer = Ordered(snapshot: Snapshot) | NeedsApproval(approvalId: string) | OutcomeUnknown | Died

  datatype Call =
    | Submit(request: Request, answer: Answer, asset: AssetClass)
    | Reconcile(id: OrderId, declined: bool, found: Option<Snapshot>, asset: AssetClass)
    | Cancel(id: OrderId)
    | Evaluate(sid: StrategyId, revision: (nat, nat))
    | Allocation(sid: StrategyId)
    | Change(sid: StrategyId, lifecycle: Lifecycle, exitMonitor: Option<Mode>)

  /** An answer whose snapshot is refused is an unknown outcome. */
  function AnswerTransactions(b: Book, id: OrderId, answer: Answer, asset: AssetClass): seq<Step> {
    match answer
    case Ordered(s) =>
      if ApplySnapshot(b, id, s, asset).Ok? then [SnapshotStep(id, s, asset)] else [MarkStep(id, Uncertain, "", "")]
    case NeedsApproval(approvalId) => [MarkStep(id, AwaitingApproval, "", approvalId)]
    case OutcomeUnknown => [MarkStep(id, Uncertain, "", "")]
    case Died => []
  }

  /** The transactions of one call. Reconciliation and cancellation take up pending orders only. */
  function Transactions(b: Book, call: Call): seq<Step> {
    match call
    case Submit(r, answer, asset) =>
      if Reservable(b, r) then [ReserveStep(r)] + AnswerTransactions(Reserve(b, r), r.id, answer, asset) else []
    case Reconcile(id, declined, found, asset) =>
      if id !in b.orders || !Pending(b.orders[id].status) then []
      else if declined && b.orders[id].approvalId != "" then [MarkStep(id, Rejected, "", "")]
      else if found.Some? then [SnapshotStep(id, found.value, asset)]
      else if b.orders[id].status.Submitting? then [MarkStep(id, Uncertain, "", "")]
      else []
    case Cancel(id) =>
      if id in b.orders && Pending(b.orders[id].status) && b.orders[id].brokerId != ""
      then [MarkStep(id, CancelPending, "", "")] else []
    case Evaluate(sid, revision) => [CommitStep(sid, revision)]
    case Allocation(sid) => [AllocateStep(sid)]
    case Change(sid, lifecycle, exitMonitor) => [LifecycleStep(sid, lifecycle, exitMonitor)]
  }

  function Handle(b: Book, call: Call): Book {
    Run(b, Transactions(b, call))
  }

  function HandleAll(b: Book, calls: seq<Call>): Book
    decreases |calls|
  {
    if calls == [] then b else HandleAll(Handle(b, calls[0]), calls[1..])
  }

  /** What is left to the engine: its intents agree with themselves, and strategies do not share
      position identities. */
  predicate FairIntent(b: Book, call: Call) {
    call.Submit? ==>
      && Coherent(call.request.intent)
      && forall j | j in b.orders && b.orders[j].intent.positionId == call.request.intent.positionId ::
           b.orders[j].strategy == call.request.strategy
  }

  predicate AllFair(b: Book, calls: seq<Call>)
    decreases |calls|
  {
    calls == [] || (FairIntent(b, calls[0]) && AllFair(Handle(b, calls[0]), calls[1..]))
  }

  lemma RunOne(b: Book, step: Step)
    ensures Run(b, [step]) == Next(b, step)
  {
    assert Run(Next(b, step), [step][1..]) == Next(b, step);
  }

  lemma RunTwo(b: Book, first: Step, second: Step)
    ensures Run(b, [first, second]) == Next(Next(b, first), second)
  {
    assert [first, second][1..] == [second];
    RunOne(Next(b, first), second);
  }

  /** The driver keeps the discipline the journal leaves to it: it never marks a closed order
      pending. */
  lemma CallDisciplined(b: Book, call: Call)
    requires FairIntent(b, call)
    ensures AllDisciplined(b, Transactions(b, call))
  {
    var steps := Transactions(b, call);
    if call.Submit? && Reservable(b, call.request) {
      SubmissionDisciplined(b, call.request, call.answer, call.asset);
    } else if steps != [] {
      assert steps == [steps[0]] && steps[1..] == [];
    }
  }

  lemma SubmissionDisciplined(b: Book, r: Request, answer: Answer, asset: AssetClass)
    requires Reservable(b, r) && Disciplined(b, ReserveStep(r))
    ensures AllDisciplined(b, [ReserveStep(r)] + AnswerTransactions(Reserve(b, r), r.id, answer, asset))
  {
    var rest := AnswerTransactions(Reserve(b, r), r.id, answer, asset);
    assert ([ReserveStep(r)] + rest)[1..] == rest;
    assert AllDisciplined(Reserve(b, r), rest) by {
      if rest != [] {
        assert rest == [rest[0]] && rest[1..] == [];
        assert Reserve(b, r).orders[r.id] == NewOrder(r);
      }
    }
  }

  lemma {:induction false} SessionsSound(b: Book, calls: seq<Call>)
    requires Sound(b) && AllFair(b, calls)
    ensures Sound(HandleAll(b, calls))
    decreases |calls|
  {
    if calls != [] {
      CallDisciplined(b, calls[0]);
      RunSound(b, Transactions(b, calls[0]));
      SessionsSound(Handle(b, calls[0]), calls[1..]);
    }
  }

  /** After any sessions with fair intents, and whatever the venue answered or the process lost:
      every mark the driver makes next takes effect, and no snapshot is refused for the book's
      sake. */
  lemma DriverNeverBlamesBook(b: Book, calls: seq<Call>, call: Call, id: OrderId, s: Snapshot, asset: AssetClass)
    requires Fresh(b) && AllFair(b, calls)
    ensures var now := HandleAll(b, calls);
            && (var applied := ApplySnapshot(now, id, s, asset); applied.Err? ==> !BlamesBook(applied.error))
            && (!call.Submit?
               ==> forall k | 0 <= k < |Transactions(now, call)| && Transactions(now, call)[k].MarkStep? ::
                  Markable(now, Transactions(now, call)[k].id, Transactions(now, call)[k].status))
  {
    SessionsSound(b, calls);
    var now := HandleAll(b, calls);
    SnapshotNeverBlamesBook(now, id, s, asset);
    assert PendingDistinct(now.orders);
  }

  /** A submitted order is never lost: it is pending or closed by a snapshot the broker sent, and a
      submission that dies leaves it to be reconciled as it is. */
  lemma SubmittedOrderIsKept(b: Book, r: Request, answer: Answer, asset: AssetClass)
    requires Reservable(b, r)
    ensures var now := Handle(b, Submit(r, answer, asset));
            && r.id in now.orders
            && (Pending(now.orders[r.id].status)
               || (answer.Ordered? && StatusNamed(answer.snapshot.state) == Some(now.orders[r.id].status)))
            && (answer.Died? ==> now.orders[r.id] == NewOrder(r))
  {
    var reserved := Reserve(b, r);
    var rest := AnswerTransactions(reserved, r.id, answer, asset);
    if answer.Died? {
      assert [ReserveStep(r)] + rest == [ReserveStep(r)];
      RunOne(b, ReserveStep(r));
    } else {
      assert [ReserveStep(r)] + rest == [ReserveStep(r), rest[0]];
      RunTwo(b, ReserveStep(r), rest[0]);
      AnswerKeepsOrder(reserved, r.id, answer, asset);
    }
  }

  lemma AnswerKeepsOrder(b: Book, id: OrderId, answer: Answer, asset: AssetClass)
    requires id in b.orders && b.orders[id].status.Submitting? && !answer.Died?
    ensures var now := Next(b, AnswerTransactions(b, id, answer, asset)[0]);
            && id in now.orders
            && (Pending(now.orders[id].status)
               || (answer.Ordered? && StatusNamed(answer.snapshot.state) == Some(now.orders[id].status)))
  {
    var step := AnswerTransactions(b, id, answer, asset)[0];
    if step.SnapshotStep? {
      BrokerChunking.AppliedStatus(b, id, step.snapshot, asset);
    } else {
      MarkLeavesPending(b, id, step.status, step.brokerId, step.approvalId);
    }
  }

  lemma MarkLeavesPending(b: Book, id: OrderId, status: Status, brokerId: string, approvalId: string)
    requires id in b.orders && Pending(b.orders[id].status) && Pending(status)
    ensures id in Mark(b, id, status, brokerId, approvalId).orders
            && Pending(Mark(b, id, status, brokerId, approvalId).orders[id].status)
  {
  }

  /** What a submission leaves behind. An intent that is not reserved changes nothing; a reserved one is
      recorded as the venue answered: its snapshot booked, its approval awaited, or its outcome
      uncertain; and as reserved if the process dies. */
  lemma SubmissionRecorded(b: Book, r: Request, answer: Answer, asset: AssetClass)
    requires Sound(b) && FairIntent(b, Submit(r, answer, asset)) && r.id !in b.orders
    ensures var reserved, now := Reserve(b, r), Handle(b, Submit(r, answer, asset));
            if r.id !in reserved.orders then now == b
            else
              var o := reserved.orders[r.id];
              match answer
              case Died => now == reserved
              case NeedsApproval(approvalId) =>
                now == Rewritten(reserved, r.id, o.(status := AwaitingApproval, approvalId := approvalId))
              case OutcomeUnknown => now == Rewritten(reserved, r.id, o.(status := Status.Uncertain))
              case Ordered(s) =>
                var applied := ApplySnapshot(reserved, r.id, s, asset);
                now == if applied.Ok? then applied.value
                       else Rewritten(reserved, r.id, o.(status := Status.Uncertain))
  {
    var reserved := Reserve(b, r);
    if r.id in reserved.orders {
      var rest := AnswerTransactions(reserved, r.id, answer, asset);
      ReserveSound(b, r);
      if answer.Died? {
        assert [ReserveStep(r)] + rest == [ReserveStep(r)];
        RunOne(b, ReserveStep(r));
      } else {
        assert [ReserveStep(r)] + rest == [ReserveStep(r), rest[0]];
        RunTwo(b, ReserveStep(r), rest[0]);
        if rest[0].MarkStep? {
          BrokerProgress.MarkTakesEffect(reserved, r.id, rest[0].status, rest[0].brokerId, rest[0].approvalId);
        }
      }
    }
  }

  function Rewritten(b: Book, id: OrderId, o: Order): Book {
    b.(orders := b.orders[id := o])
  }

  /** What a reconciliation leaves behind: nothing of a closed order is touched, a declined approval is
      rejected, a found order's snapshot is booked or refused, and a submission that was not found is
      uncertain. */
  lemma ReconciliationRecorded(b: Book, id: OrderId, declined: bool, found: Option<Snapshot>, asset: AssetClass)
    requires Sound(b) && id in b.orders
    ensures var o, now := b.orders[id], Handle(b, Reconcile(id, declined, found, asset));
            if BrokerReplies.Closed(o) then now == b
            else if declined && o.approvalId != "" then now == Rewritten(b, id, o.(status := Rejected))
            else if found.Some? then
              var applied := ApplySnapshot(b, id, found.value, asset);
              now == if applied.Ok? then applied.value else b
            else if o.status.Submitting? then now == Rewritten(b, id, o.(status := Status.Uncertain))
            else now == b
  {
    var steps := Transactions(b, Reconcile(id, declined, found, asset));
    if steps != [] {
      assert steps == [steps[0]];
      RunOne(b, steps[0]);
      if steps[0].MarkStep? {
        BrokerProgress.MarkTakesEffect(b, id, steps[0].status, "", "");
      }
    }
  }

  /** A cancellation is asked for exactly when the order is out and the broker knows it. */
  lemma CancellationRecorded(b: Book, id: OrderId)
    requires Sound(b) && id in b.orders
    ensures Handle(b, Cancel(id))
            == if BrokerReplies.Closed(b.orders[id]) || b.orders[id].brokerId == "" then b
               else Rewritten(b, id, b.orders[id].(status := CancelPending))
  {
    var steps := Transactions(b, Cancel(id));
    if steps != [] {
      assert steps == [steps[0]];
      RunOne(b, steps[0]);
      BrokerProgress.MarkTakesEffect(b, id, CancelPending, "", "");
    }
  }

  // ---------------------------------------------------------------- the driver itself

  /** Reserve first, then submit, then record what came back. */
  method SubmitIntent(journal: BrokerStore.Journal, r: Request, answer: Answer, asset: AssetClass)
    modifies journal
    ensures journal.Rows() == Handle(old(journal.Rows()), Submit(r, answer, asset))
  {
    ghost var before := journal.Rows();
    var reserved := journal.Reserve(r);
    if !reserved {
      return;
    }
    ghost var rest := AnswerTransactions(journal.Rows(), r.id, answer, asset);
    RunOne(before, ReserveStep(r));
    if rest != [] {
      RunTwo(before, ReserveStep(r), rest[0]);
      assert [ReserveStep(r)] + rest == [ReserveStep(r), rest[0]];
    } else {
      assert [ReserveStep(r)] + rest == [ReserveStep(r)];
    }
    match answer
    case Ordered(s) =>
      var refused := journal.ApplySnapshot(r.id, s, asset);
      if refused.Some? {
        journal.Mark(r.id, Uncertain, "", "");
      }
    case NeedsApproval(approvalId) => journal.Mark(r.id, AwaitingApproval, "", approvalId);
    case OutcomeUnknown => journal.Mark(r.id, Uncertain, "", "");
    case Died =>
  }

  method ReconcileOrder(journal: BrokerStore.Journal, id: OrderId, declined: bool, found: Option<Snapshot>,
                        asset: AssetClass)
    modifies journal
    ensures journal.Rows() == Handle(old(journal.Rows()), Reconcile(id, declined, found, asset))
  {
    ghost var steps := Transactions(journal.Rows(), Reconcile(id, declined, found, asset));
    if steps != [] {
      RunOne(journal.Rows(), steps[0]);
      assert steps == [steps[0]];
    }
    if id !in journal.orders || !Pending(journal.orders[id].status) {
      return;
    }
    var order := journal.orders[id];
    if declined && order.approvalId != "" {
      journal.Mark(id, Rejected, "", "");
    } else if found.Some? {
      var _ := journal.ApplySnapshot(id, found.value, asset);
    } else if order.status.Submitting? {
      journal.Mark(id, Uncertain, "", "");
    }
  }

  method CancelOrder(journal: BrokerStore.Journal, id: OrderId) returns (asked: bool)
    modifies journal
    ensures journal.Rows() == Handle(old(journal.Rows()), Cancel(id))
  {
    asked := id in journal.orders && Pending(journal.orders[id].status) && journal.orders[id].brokerId != "";
    if asked {
      RunOne(journal.Rows(), MarkStep(id, CancelPending, "", ""));
      journal.Mark(id, CancelPending, "", "");
    }
  }
}
