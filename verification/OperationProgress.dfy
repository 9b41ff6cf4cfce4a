/** What becomes of a paid operation: what every retry is told, that a failed one opens its refunds and
    they can be credited, and that a payment proved unpaid can be made again. */
module OperationProgress {
  import opened Sums
  import opened PaymentLedger
  import opened BudgetSafety
  import opened BudgetProgress
  import opened LedgerHistory
  import opened OperationChain

  // ---------------------------------------------------------------- what a retry is told

  predicate Attempted(l: Ledger, operation: OperationId) {
    exists id :: id in l.payments && l.payments[id].operation == Some(operation)
  }

  /** Every payment of the operation is released without a transaction, and the recorded evidence for it
      is that it expired unused or was cancelled. */
  predicate EveryPaymentDead(l: Ledger, operation: OperationId) {
    forall id | id in l.payments && l.payments[id].operation == Some(operation) :: PaymentDead(l, id)
  }

  predicate PaymentDead(l: Ledger, id: PaymentId)
    requires id in l.payments
  {
    && l.payments[id].state.Released? && l.payments[id].transaction.None?
    && (l.payments[id].reason == Some(ExpiredUnused) || l.payments[id].reason == Some(Cancelled))
    && id in l.evidence && Some(l.evidence[id]) == l.payments[id].reason
  }

  /** One operation's row, and nothing else, is written. */
  predicate OperationWritten(l: Ledger, operation: OperationId, o: Operation, l': Ledger) {
    l' == l.(operations := l.operations[operation := o])
  }

  /** The successor of a dead operation: pending, of the same action and token, linked from the old one. */
  predicate Succeeded(l: Ledger, prior: OperationId, next: OperationId, l': Ledger)
    requires prior in l.operations && prior in l.recovery
  {
    && next in l'.operations && next in l'.recovery && prior in l'.recovery
    && l' == l.(operations := l.operations[next := l'.operations[next]],
                recovery := l.recovery[next := l'.recovery[next]][prior := l'.recovery[prior]])
    && l'.operations[next].state.Pending? && l'.operations[next].fingerprint == l.operations[prior].fingerprint
    && !l'.operations[next].headers
    && l'.recovery[next].action == l.recovery[prior].action && l'.recovery[next].token == l.recovery[prior].token
    && l'.recovery[next].next.None? && !l'.recovery[next].mayReplace
    && l'.recovery[prior] == l.recovery[prior].(next := Some(next))
  }

  /** What a call is told that names an operation, given the one its replacements end at. */
  predicate ToldAt(l: Ledger, end: OperationId, fingerprint: string, minted: OperationId, begun: Begun, l': Ledger)
    requires end in l.operations
  {
    var o := l.operations[end];
    if o.fingerprint != fingerprint then begun == Refused(IdentityReused) && l' == l
    else if o.state.Pending? || o.state.Complete? then begun == Existing(end) && l' == l
    else if !Attempted(l, end) then begun == Owner(end) && OperationWritten(l, end, o.(state := Pending), l')
    else if !EveryPaymentDead(l, end) then begun == Refused(AttemptClosed) && l' == l
    else if end in l.recovery && l.recovery[end].mayReplace then begun == Owner(minted) && Succeeded(l, end, minted, l')
    else begun == (if o.headers then Existing(end) else Refused(ProofMissing)) && l' == l
  }

  /** Whoever names an operation is answered at the end of its line. A live or finished one is handed
      over as it is, so that a completed payment's response is delivered; another request is refused; a
      closed one is reclaimed if it was never paid for, succeeded if every payment of it is dead and
      replacement is permitted, and otherwise refused. */
  lemma RetryIsTold(l: Ledger, fingerprint: string, named: OperationId, minted: OperationId)
    requires ChainSound(l) && named in l.operations && minted !in l.operations
    requires Walk(l.recovery, named, HISTORY_LIMIT).Some?
    ensures var end := Walk(l.recovery, named, HISTORY_LIMIT).value;
            var (begun, l') := Begin(l, fingerprint, Some(named), None, minted);
            && end in l.operations && ActionOf(l.recovery, end) == ActionOf(l.recovery, named)
            && ToldAt(l, end, fingerprint, minted, begun, l')
  {
    var end := Walk(l.recovery, named, HISTORY_LIMIT).value;
    WalkStays(l, named, HISTORY_LIMIT);
    TailIsTold(l, end, fingerprint, minted);
  }

  lemma TailIsTold(l: Ledger, end: OperationId, fingerprint: string, minted: OperationId)
    requires RowsSound(l) && end in l.operations && minted !in l.operations
    ensures var (begun, l') := BeginAt(l, end, fingerprint, minted);
            ToldAt(l, end, fingerprint, minted, begun, l')
  {
    DeadExactly(l, end);
    assert minted !in l.recovery;
  }

  lemma DeadExactly(l: Ledger, end: OperationId)
    ensures Attempted(l, end) <==> HasPayment(l, end)
    ensures EveryPaymentDead(l, end) <==>
              forall id | id in l.payments && l.payments[id].operation == Some(end) :: PaymentProvenUnpaid(l, id)
  {
    forall id | id in l.payments ensures PaymentDead(l, id) <==> PaymentProvenUnpaid(l, id) {
      ReasonIs(l.payments[id].reason);
    }
  }

  lemma ReasonIs(reason: Option<Reason>)
    ensures reason.Some? && reason.value.ExpiredUnused? <==> reason == Some(ExpiredUnused)
    ensures reason.Some? && reason.value.Cancelled? <==> reason == Some(Cancelled)
  {
  }

  /** A line longer than the history limit is refused, and a name never heard of starts an operation. */
  lemma OtherNamesAreTold(l: Ledger, fingerprint: string, named: OperationId, minted: OperationId)
    ensures var (begun, l') := Begin(l, fingerprint, Some(named), None, minted);
            && (named in l.operations && Walk(l.recovery, named, HISTORY_LIMIT).None? ==>
                  begun == Refused(HistoryLimit) && l' == l)
            && (named !in l.operations ==>
                  && begun == Owner(named) && named in l'.operations
                  && OperationWritten(l, named, l'.operations[named], l')
                  && l'.operations[named].state.Pending? && !l'.operations[named].headers
                  && l'.operations[named].fingerprint == fingerprint)
  {
  }

  // ---------------------------------------------------------------- over runs

  /** A link, once made, is never changed. */
  ghost predicate LinksKept(l: Ledger, l': Ledger) {
    forall id | Linked(l.recovery, id) :: Linked(l'.recovery, id) && l'.recovery[id].next == l.recovery[id].next
  }

  lemma StepKeepsLinks(l: Ledger, step: Step)
    requires ChainSound(l)
    ensures LinksKept(l, Next(l, step))
  {
    if step.BeginStep? {
      if step.minted !in l.operations {
        BeginKeepsLinks(l, step.fingerprint, step.named, step.twin, step.minted);
      }
    } else {
      OthersKeepLinks(l, step);
    }
  }

  lemma OthersKeepLinks(l: Ledger, step: Step)
    requires !step.BeginStep?
    ensures LinksKept(l, Next(l, step))
  {
    if step.IdentifyStep? {
      IdentifyLinks(l, step.op);
    } else if step.AllowStep? {
      AllowLinks(l, step.op);
    } else {
      OthersKeepRecovery(l, step);
      SameRecovery(l, Next(l, step));
    }
  }

  lemma OthersKeepRecovery(l: Ledger, step: Step)
    requires !step.BeginStep? && !step.IdentifyStep? && !step.AllowStep?
    ensures Next(l, step).recovery == l.recovery
  {
    match step
    case EvidenceStep(payment, original, finding) => EvidenceKeepsRecovery(l, payment, original, finding);
    case CompleteStep(op, failed) => CompleteKeepsRecovery(l, op, failed);
    case HeadersStep(op) => HeadersKeepRecovery(l, op);
    case AbandonStep(op) => AbandonKeepsRecovery(l, op);
    case _ => MoneyKeepsOperations(l, step);
  }

  lemma SameRecovery(l: Ledger, l': Ledger)
    requires l'.recovery == l.recovery
    ensures LinksKept(l, l')
  {
  }

  lemma IdentifyLinks(l: Ledger, op: OperationId)
    ensures LinksKept(l, Identify(l, op))
  {
    IdentifyKeepsLinks(l, op);
  }

  lemma AllowLinks(l: Ledger, op: OperationId)
    ensures LinksKept(l, AllowReplacement(l, op))
  {
    IdentifyKeepsLinks(l, op);
  }

  lemma BeginKeepsLinks(l: Ledger, fingerprint: string, named: Option<OperationId>, twin: Option<OperationId>,
                        minted: OperationId)
    requires ChainSound(l) && minted !in l.operations
    ensures LinksKept(l, Begin(l, fingerprint, named, twin, minted).1)
  {
    if named.Some? && named.value in l.operations && Walk(l.recovery, named.value, HISTORY_LIMIT).Some? {
      var end := Walk(l.recovery, named.value, HISTORY_LIMIT).value;
      WalkStays(l, named.value, HISTORY_LIMIT);
      TailKeepsLinks(l, end, fingerprint, minted);
    }
  }

  lemma TailKeepsLinks(l: Ledger, end: OperationId, fingerprint: string, minted: OperationId)
    requires RowsSound(l) && end in l.operations && minted !in l.operations && !Linked(l.recovery, end)
    ensures LinksKept(l, BeginAt(l, end, fingerprint, minted).1)
  {
    assert minted !in l.recovery;
    TailIsTold(l, end, fingerprint, minted);
  }

  /** Links kept, and an end not replaced, make the same walk. */
  lemma {:induction false} WalkKept(l: Ledger, l': Ledger, id: OperationId, tries: nat)
    requires LinksKept(l, l') && Walk(l.recovery, id, tries).Some?
    requires !Linked(l'.recovery, Walk(l.recovery, id, tries).value)
    ensures Walk(l'.recovery, id, tries) == Walk(l.recovery, id, tries)
    decreases tries
  {
    if Linked(l.recovery, id) {
      WalkKept(l, l', l.recovery[id].next.value, tries - 1);
    }
  }

  lemma {:induction false} RunKeepsLinks(l: Ledger, steps: seq<Step>)
    requires ChainSound(l)
    ensures LinksKept(l, Run(l, steps))
    decreases |steps|
  {
    if steps != [] {
      StepKeepsLinks(l, steps[0]);
      NextSound(l, steps[0]);
      RunKeepsLinks(Next(l, steps[0]), steps[1..]);
    }
  }

  /** A finished operation answers every later retry of its request, by its own name or any earlier one
      on its line, whatever ran in between: it is handed over, and nothing is written. */
  lemma CompletionIsDelivered(l: Ledger, named: OperationId, steps: seq<Step>, minted: OperationId)
    requires ChainSound(l) && named in l.operations && Walk(l.recovery, named, HISTORY_LIMIT).Some?
    requires var end := Walk(l.recovery, named, HISTORY_LIMIT).value;
             end in l.operations ==> l.operations[end].state.Complete?
    requires minted !in Run(l, steps).operations
    ensures var end := Walk(l.recovery, named, HISTORY_LIMIT).value;
            && end in l.operations
            && Begin(Run(l, steps), l.operations[end].fingerprint, Some(named), None, minted)
               == (Existing(end), Run(l, steps))
  {
    var end, now := Walk(l.recovery, named, HISTORY_LIMIT).value, Run(l, steps);
    WalkStays(l, named, HISTORY_LIMIT);
    RunSound(l, steps);
    LedgerOnlyAdvances(l, steps);
    RunKeepsLinks(l, steps);
    assert OperationAdvances(l.operations[end], now.operations[end]);
    assert !Linked(now.recovery, end) by {
      assert Linked(now.recovery, end) ==> LinkSound(now, end);
    }
    WalkKept(l, now, named, HISTORY_LIMIT);
    RunKeepsAction(l, steps, named);
    RetryIsTold(now, l.operations[end].fingerprint, named, minted);
  }

  /** In particular once a pending operation at the end of a line has been completed. */
  lemma CompletedIsAnswered(l: Ledger, named: OperationId, op: OperationId, failed: bool, later: seq<Step>,
                            minted: OperationId)
    requires ChainSound(l) && named in l.operations && Walk(l.recovery, named, HISTORY_LIMIT) == Some(op)
    requires op in l.operations && l.operations[op].state.Pending?
    requires minted !in Run(Next(l, CompleteStep(op, failed)), later).operations
    ensures var now := Run(Next(l, CompleteStep(op, failed)), later);
            Begin(now, l.operations[op].fingerprint, Some(named), None, minted) == (Existing(op), now)
  {
    NextSound(l, CompleteStep(op, failed));
    CompletionFinishes(l, op, failed);
    CompleteKeepsRecovery(l, op, failed);
    CompletionIsDelivered(Next(l, CompleteStep(op, failed)), named, later, minted);
  }

  // ---------------------------------------------------------------- paying again after a proof

  /** Every other payment of the operation is dead already. */
  predicate OthersDead(l: Ledger, id: PaymentId, op: OperationId) {
    forall j | j in l.payments && j != id && l.payments[j].operation == Some(op) :: PaymentDead(l, j)
  }

  /** Evidence that an operation's one live payment can never be paid closes the operation, with all of
      its payments dead. */
  lemma EvidenceCloses(l: Ledger, id: PaymentId, original: Payment, reason: Reason, op: OperationId)
    requires RefundsSound(l) && Awaits(l, id, original) && (reason.ExpiredUnused? || reason.Cancelled?)
    requires original.operation == Some(op) && op in l.operations && l.operations[op].state.Pending?
    requires OthersDead(l, id, op)
    ensures var l' := RecordEvidence(l, id, original, FoundUnpaid(reason));
            && l'.operations == l.operations[op := l.operations[op].(state := UnsignedFailed)]
            && l'.recovery == l.recovery && l'.payments.Keys == l.payments.Keys
            && Attempted(l', op) && EveryPaymentDead(l', op)
  {
    var l' := RecordEvidence(l, id, original, FoundUnpaid(reason));
    UnpaidEvidenceReleases(l, id, original, reason);
    forall j | j in l'.payments && l'.payments[j].operation == Some(op) ensures PaymentDead(l', j) {
      if j != id {
        assert PaymentDead(l, j);
      }
    }
    assert id in l'.payments && l'.payments[id].operation == Some(op);
  }

  /** A closed, unreplaced operation whose payments are all dead is succeeded once replacement is
      permitted. */
  lemma PermittedIsSucceeded(l: Ledger, op: OperationId, minted: OperationId)
    requires RowsSound(l) && op in l.operations && l.operations[op].state.UnsignedFailed? && !Linked(l.recovery, op)
    requires Attempted(l, op) && EveryPaymentDead(l, op) && minted !in l.operations
    ensures var permitted := AllowReplacement(l, op);
            var (begun, l') := Begin(permitted, l.operations[op].fingerprint, Some(op), None, minted);
            && begun == Owner(minted) && minted in l'.operations && l'.operations[minted].state.Pending?
            && l' == l.(operations := l'.operations, recovery := l'.recovery)
  {
    var permitted := AllowReplacement(l, op);
    PermissionIsRecorded(l, op);
    assert RowsSound(permitted) by {
      forall j | j in permitted.recovery ensures j in permitted.operations && RootSound(permitted.recovery, j) {
        assert j in l.recovery ==> RootSound(l.recovery, j);
      }
    }
    assert Walk(permitted.recovery, op, HISTORY_LIMIT) == Some(op);
    TailIsTold(permitted, op, l.operations[op].fingerprint, minted);
  }

  /** A payment proved expired or cancelled can be made again: its operation closes, once replacement
      is permitted the retry owns a new operation of the action, and the same amount is reserved for
      it, however full the budget was. */
  lemma ProvedUnpaidIsPaidAgain(l: Ledger, id: PaymentId, original: Payment, reason: Reason, op: OperationId,
                                minted: OperationId, again: PaymentId, network: string)
    requires WithinCaps(l) && ChainSound(l) && Awaits(l, id, original) && (reason.ExpiredUnused? || reason.Cancelled?)
    requires original.operation == Some(op) && op in l.operations && l.operations[op].state.Pending?
    requires OthersDead(l, id, op) && original.period == l.period && 0 < original.amount <= MAX_STORABLE
    requires minted !in l.operations && again !in l.payments
    ensures var closed := RecordEvidence(l, id, original, FoundUnpaid(reason));
            var permitted := AllowReplacement(closed, op);
            var (begun, l') := Begin(permitted, l.operations[op].fingerprint, Some(op), None, minted);
            && begun == Owner(minted)
            && again in Reserve(l', again, original.amount, Some(minted), network).payments
  {
    var closed := RecordEvidence(l, id, original, FoundUnpaid(reason));
    assert Capped(l, l.period);
    EvidenceCloses(l, id, original, reason, op);
    UnpaidEvidenceReleases(l, id, original, reason);
    EvidenceSound(l, id, original, FoundUnpaid(reason));
    assert !Linked(l.recovery, op) by {
      assert Linked(l.recovery, op) ==> LinkSound(l, op);
    }
    PermittedIsSucceeded(closed, op, minted);
    var l' := Begin(AllowReplacement(closed, op), l.operations[op].fingerprint, Some(op), None, minted).1;
    SameCost(closed, l');
    assert Unpaid(l', minted);
    ReservedExactly(l', again, original.amount, Some(minted), network);
  }

  // ---------------------------------------------------------------- completion and refunds

  /** Completing a pending operation finishes it and drops its headers; any other stays as it is. */
  lemma CompletionFinishes(l: Ledger, op: OperationId, failed: bool)
    requires op in l.operations
    ensures var l' := CompleteOperation(l, op, failed);
            && l' == l.(refunds := l'.refunds, operations := l'.operations)
            && l'.operations ==
               if l.operations[op].state.Pending?
               then l.operations[op := l.operations[op].(state := Complete, headers := false)] else l.operations
  {
    assert l.operations[op := l.operations[op]] == l.operations;
  }

  /** A payment that a failed completion must make good: settled, positive, and of this operation. */
  predicate Owed(l: Ledger, id: PaymentId, op: OperationId) {
    && id in l.payments && l.payments[id].operation == Some(op)
    && l.payments[id].state.Settled? && l.payments[id].amount > 0
  }

  /** A failed completion of an operation that sent its headers opens a refund for exactly what is owed,
      each of its payment's amount and network and unnamed by any transfer; refunds there were stay, and
      no other completion opens any. */
  lemma FailureOpensRefunds(l: Ledger, op: OperationId, failed: bool)
    requires op in l.operations
    ensures var l', opens := CompleteOperation(l, op, failed), failed && l.operations[op].headers;
            && (forall id :: id in l'.refunds <==> id in l.refunds || (opens && Owed(l, id, op)))
            && (forall id | id in l.refunds :: l'.refunds[id] == l.refunds[id])
            && (forall id | id in l'.refunds && id !in l.refunds ::
                  l'.refunds[id] == Refund(Watched, l.payments[id].amount, l.payments[id].network, None))
  {
  }

  /** What a failed operation owes can be credited at any later time: its refund is there, of the
      payment's own amount, and unless it is credited already, a transfer that no other refund of the
      network names confirms it and gives the amount back. */
  lemma OwedIsCredited(configured: nat, steps: seq<Step>, op: OperationId, later: seq<Step>, id: PaymentId,
                       transaction: string)
    requires var l := Run(Opening(configured), steps);
             op in l.operations && l.operations[op].headers && Owed(l, id, op)
    requires var now := Run(CompleteOperation(Run(Opening(configured), steps), op, true), later);
             forall j | j in now.refunds && id in now.refunds && j != id
                        && now.refunds[j].network == now.refunds[id].network ::
               now.refunds[j].transaction != Some(transaction)
    ensures var now := Run(CompleteOperation(Run(Opening(configured), steps), op, true), later);
            && id in now.payments && now.payments[id].state.Settled? && id in now.refunds
            && now.refunds[id].amount == now.payments[id].amount
            && (!now.refunds[id].state.Confirmed? ==> Credited(now, id, transaction))
  {
    var l := Run(Opening(configured), steps);
    var failed := CompleteOperation(l, op, true);
    var now := Run(failed, later);
    OpeningWithinCaps(configured);
    RunWithinCaps(Opening(configured), steps);
    CompleteWithinCaps(l, op, true);
    FailureOpensRefunds(l, op, true);
    OwedIsKept(failed, later, id);
    if !now.refunds[id].state.Confirmed? {
      RefundConfirmed(now, id, transaction);
    }
  }

  /** The refund is confirmed by the transfer, and the payment's period has the amount back. */
  ghost predicate Credited(l: Ledger, id: PaymentId, transaction: string)
    requires id in l.payments
  {
    var l' := ConfirmRefund(l, id, l.payments[id], transaction);
    && id in l'.refunds && l'.refunds[id].state.Confirmed? && l'.refunds[id].transaction == Some(transaction)
    && forall k: nat ::
         Spent(l', k) == Spent(l, k) - (if k == l.payments[id].period then l.payments[id].amount else 0)
  }

  lemma OwedIsKept(l: Ledger, steps: seq<Step>, id: PaymentId)
    requires WithinCaps(l) && id in l.payments && l.payments[id].state.Settled? && id in l.refunds
    ensures var now := Run(l, steps);
            && WithinCaps(now) && id in now.payments && now.payments[id] == l.payments[id] && id in now.refunds
            && now.refunds[id].amount == now.payments[id].amount
  {
    RunWithinCaps(l, steps);
    LedgerOnlyAdvances(l, steps);
    assert PaymentAdvances(l.payments[id], Run(l, steps).payments[id]);
    assert RefundSound(Run(l, steps), id);
  }

  // ---------------------------------------------------------------- the other operation rows

  /** Headers are saved exactly once, for a pending operation. */
  lemma HeadersAreSavedOnce(l: Ledger, op: OperationId)
    ensures var l' := SaveHeaders(l, op);
            if op in l.operations && l.operations[op].state.Pending? && !l.operations[op].headers
            then OperationWritten(l, op, l.operations[op].(headers := true), l') else l' == l
  {
  }

  /** An operation is abandoned exactly if it is pending, sent no headers, and nothing of it is out or
      paid. */
  lemma AbandonedExactly(l: Ledger, op: OperationId)
    ensures var l' := Abandon(l, op);
            if op in l.operations && l.operations[op].state.Pending? && !l.operations[op].headers && Unpaid(l, op)
            then OperationWritten(l, op, l.operations[op].(state := UnsignedFailed), l') else l' == l
  {
    UnpaidExactly(l, op);
  }

  /** An operation's identity is its own, until it succeeds another; it is recorded with a token once. */
  lemma IdentityIsRecorded(l: Ledger, op: OperationId)
    requires op in l.operations
    ensures var l' := Identify(l, op);
            && op in l'.recovery && l'.recovery[op].token
            && l' == l.(recovery := l.recovery[op := l'.recovery[op]])
            && l'.recovery[op] == if op in l.recovery then l.recovery[op].(token := true)
                                  else Recovery(op, true, false, None)
  {
    assert op in l.recovery && l.recovery[op].token ==> l.recovery[op := l.recovery[op]] == l.recovery;
  }

  lemma PermissionIsRecorded(l: Ledger, op: OperationId)
    requires op in l.operations
    ensures var l' := AllowReplacement(l, op);
            && op in l'.recovery && l'.recovery[op].mayReplace
            && l' == l.(recovery := l.recovery[op := l'.recovery[op]])
            && (op in l.recovery ==>
                  l'.recovery[op].action == l.recovery[op].action && l'.recovery[op].next == l.recovery[op].next)
            && (op !in l.recovery ==> l'.recovery[op].action == op && l'.recovery[op].next.None?)
  {
    IdentityIsRecorded(l, op);
  }
}
