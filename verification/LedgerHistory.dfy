/** The payment tables only advance: what is settled, released, proved or refunded is never undone. */
module LedgerHistory {
  import opened Sums
  import opened PaymentLedger
  import opened BudgetSafety

  /** A payment keeps its terms; settled and released are final. */
  predicate PaymentAdvances(p: Payment, p': Payment) {
    && p'.period == p.period && p'.amount == p.amount && p'.operation == p.operation && p'.network == p.network
    && (!p.state.Authorized? ==> p' == p)
    && (p'.state.Settled? && !p.state.Settled? ==> p'.transaction.Some?)
    && (p'.state.Released? && !p.state.Released? ==> p'.reason.Some?)
  }

  predicate OperationAdvances(o: Operation, o': Operation) {
    && o'.fingerprint == o.fingerprint && o'.serial == o.serial
    && (o.state.Complete? ==> o'.state.Complete?)
  }

  predicate RefundAdvances(r: Refund, r': Refund) {
    && r'.amount == r.amount && r'.network == r.network
    && (r.state.Confirmed? ==> r' == r)
  }

  predicate PaymentsAdvance(l: Ledger, l': Ledger) {
    forall id | id in l.payments :: id in l'.payments && PaymentAdvances(l.payments[id], l'.payments[id])
  }

  predicate OperationsAdvance(l: Ledger, l': Ledger) {
    forall id | id in l.operations :: id in l'.operations && OperationAdvances(l.operations[id], l'.operations[id])
  }

  predicate ProofsAdvance(l: Ledger, l': Ledger) {
    && (forall id | id in l.refunds :: id in l'.refunds && RefundAdvances(l.refunds[id], l'.refunds[id]))
    && (forall id | id in l.evidence :: id in l'.evidence && l'.evidence[id] == l.evidence[id])
    && l.period <= l'.period && l.caps <= l'.caps
  }

  predicate Advances(l: Ledger, l': Ledger) {
    PaymentsAdvance(l, l') && OperationsAdvance(l, l') && ProofsAdvance(l, l')
  }

  lemma ReserveAdvances(l: Ledger, id: PaymentId, amount: int, operation: Option<OperationId>, network: string)
    ensures Advances(l, Reserve(l, id, amount, operation, network))
  {
  }

  lemma SettleAdvances(l: Ledger, ids: seq<PaymentId>, transaction: string)
    ensures Advances(l, Settle(l, ids, transaction))
    ensures forall id | id in l.payments && Settle(l, ids, transaction).payments[id] != l.payments[id] ::
              ids != [] && id == ids[|ids| - 1]
  {
    if Settle(l, ids, transaction) != l {
      RowMoved(l, ids[|ids| - 1], Settle(l, ids, transaction));
    }
  }

  /** One payment row is settled or released; its operation and all other rows stay. */
  lemma RowMoved(l: Ledger, id: PaymentId, l': Ledger)
    requires id in l.payments && id in l'.payments && PaymentAdvances(l.payments[id], l'.payments[id])
    requires l' == l.(payments := l.payments[id := l'.payments[id]], exhausted := l'.exhausted)
    ensures Advances(l, l')
  {
    assert forall j | j in l.payments :: PaymentAdvances(l.payments[j], l'.payments[j]);
  }

  lemma ReleaseUnsignedAdvances(l: Ledger, id: PaymentId)
    ensures Advances(l, ReleaseUnsigned(l, id))
  {
    if id in l.payments && l.payments[id].state.Authorized? {
      RowMoved(l, id, ReleaseUnsigned(l, id));
    }
  }

  lemma ReleaseAdvances(l: Ledger, ids: set<PaymentId>, reason: string)
    ensures Advances(l, Release(l, ids, reason))
  {
  }

  lemma ResetAdvances(l: Ledger, cap: Option<nat>)
    ensures Advances(l, Reset(l, cap))
  {
  }

  lemma EvidenceAdvances(l: Ledger, id: PaymentId, original: Payment, finding: Finding)
    ensures Advances(l, RecordEvidence(l, id, original, finding))
  {
    var l' := RecordEvidence(l, id, original, finding);
    if EvidenceApplies(l, id, original) && Recordable(finding) {
      assert OperationsAdvance(l, l');
      assert l'.refunds == l.refunds && l'.period == l.period && l'.caps == l.caps;
    }
  }

  lemma RefundConfirmationAdvances(l: Ledger, id: PaymentId, original: Payment, transaction: string)
    ensures Advances(l, ConfirmRefund(l, id, original, transaction))
  {
  }

  lemma ReviewAdvances(l: Ledger, id: PaymentId)
    ensures Advances(l, ReviewRefund(l, id))
  {
  }

  /** A step on operations and recovery rows alone. */
  lemma MoneyKept(l: Ledger, l': Ledger)
    requires l' == l.(operations := l'.operations, recovery := l'.recovery) && OperationsAdvance(l, l')
    ensures Advances(l, l')
  {
  }

  lemma CompleteAdvances(l: Ledger, op: OperationId, failed: bool)
    ensures Advances(l, CompleteOperation(l, op, failed))
  {
    var l' := CompleteOperation(l, op, failed);
    CompleteOnlyWatches(l, op, failed);
    CompleteOperations(l, op, failed);
    assert PaymentsAdvance(l, l');
    assert ProofsAdvance(l, l');
  }

  lemma CompleteOperations(l: Ledger, op: OperationId, failed: bool)
    ensures OperationsAdvance(l, CompleteOperation(l, op, failed))
  {
  }

  lemma HeadersAdvance(l: Ledger, op: OperationId)
    ensures Advances(l, SaveHeaders(l, op))
  {
    HeadersKeepMoney(l, op);
    assert OperationsAdvance(l, SaveHeaders(l, op));
    MoneyKept(l, SaveHeaders(l, op));
  }

  lemma AbandonAdvances(l: Ledger, op: OperationId)
    ensures Advances(l, Abandon(l, op))
  {
    AbandonKeepsMoney(l, op);
    assert OperationsAdvance(l, Abandon(l, op));
    MoneyKept(l, Abandon(l, op));
  }

  lemma IdentifyAdvances(l: Ledger, op: OperationId)
    ensures Advances(l, Identify(l, op))
  {
    IdentifyKeepsMoney(l, op);
    MoneyKept(l, Identify(l, op));
  }

  lemma AllowAdvances(l: Ledger, op: OperationId)
    ensures Advances(l, AllowReplacement(l, op))
  {
    AllowKeepsMoney(l, op);
    MoneyKept(l, AllowReplacement(l, op));
  }

  lemma BeginAdvances(l: Ledger, fingerprint: string, named: Option<OperationId>, twin: Option<OperationId>,
                      minted: OperationId)
    requires minted !in l.operations
    ensures Advances(l, Begin(l, fingerprint, named, twin, minted).1)
  {
    BeginKeepsMoney(l, fingerprint, named, twin, minted);
    BeginOperations(l, fingerprint, named, twin, minted);
    MoneyKept(l, Begin(l, fingerprint, named, twin, minted).1);
  }

  lemma BeginOperations(l: Ledger, fingerprint: string, named: Option<OperationId>, twin: Option<OperationId>,
                        minted: OperationId)
    requires minted !in l.operations
    ensures OperationsAdvance(l, Begin(l, fingerprint, named, twin, minted).1)
  {
    if named.Some? && named.value in l.operations {
      var tail := Walk(l.recovery, named.value, HISTORY_LIMIT);
      if tail.Some? && tail.value in l.operations {
        BeginAtOperations(l, tail.value, fingerprint, minted);
      }
    }
  }

  lemma BeginAtOperations(l: Ledger, tail: OperationId, fingerprint: string, minted: OperationId)
    requires tail in l.operations && minted !in l.operations
    ensures OperationsAdvance(l, BeginAt(l, tail, fingerprint, minted).1)
  {
  }

  lemma StepAdvances(l: Ledger, step: Step)
    ensures Advances(l, Next(l, step))
  {
    if MovesNoMoney(step) || step.CompleteStep? {
      OperationStepAdvances(l, step);
    } else {
      MoneyStepAdvances(l, step);
    }
  }

  lemma MoneyStepAdvances(l: Ledger, step: Step)
    requires !MovesNoMoney(step) && !step.CompleteStep?
    ensures Advances(l, Next(l, step))
  {
    match step
    case ReserveStep(id, amount, operation, network) => ReserveAdvances(l, id, amount, operation, network);
    case SettleStep(ids, transaction) => SettleAdvances(l, ids, transaction);
    case ReleaseUnsignedStep(id) => ReleaseUnsignedAdvances(l, id);
    case ReleaseStep(rows, reason) => ReleaseAdvances(l, rows, reason);
    case ResetStep(cap) => ResetAdvances(l, cap);
    case EvidenceStep(id, original, finding) => EvidenceAdvances(l, id, original, finding);
    case RefundStep(id, original, transaction) => RefundConfirmationAdvances(l, id, original, transaction);
    case ReviewStep(id) => ReviewAdvances(l, id);
  }

  lemma OperationStepAdvances(l: Ledger, step: Step)
    requires MovesNoMoney(step) || step.CompleteStep?
    ensures Advances(l, Next(l, step))
  {
    match step
    case CompleteStep(op, failed) => CompleteAdvances(l, op, failed);
    case HeadersStep(op) => HeadersAdvance(l, op);
    case AbandonStep(op) => AbandonAdvances(l, op);
    case IdentifyStep(op) => IdentifyAdvances(l, op);
    case AllowStep(op) => AllowAdvances(l, op);
    case BeginStep(fingerprint, named, twin, minted) =>
      if minted !in l.operations {
        BeginAdvances(l, fingerprint, named, twin, minted);
      }
  }

  lemma AdvancesThrough(a: Ledger, b: Ledger, c: Ledger)
    requires Advances(a, b) && Advances(b, c)
    ensures Advances(a, c)
  {
    forall id | id in a.payments ensures id in c.payments && PaymentAdvances(a.payments[id], c.payments[id]) {
      assert PaymentAdvances(a.payments[id], b.payments[id]) && PaymentAdvances(b.payments[id], c.payments[id]);
    }
    forall id | id in a.operations ensures id in c.operations && OperationAdvances(a.operations[id], c.operations[id]) {
      assert OperationAdvances(a.operations[id], b.operations[id])
             && OperationAdvances(b.operations[id], c.operations[id]);
    }
    forall id | id in a.refunds ensures id in c.refunds && RefundAdvances(a.refunds[id], c.refunds[id]) {
      assert RefundAdvances(a.refunds[id], b.refunds[id]) && RefundAdvances(b.refunds[id], c.refunds[id]);
    }
  }

  /** Under any interleaving: a payment's terms never change, a settled payment stays settled with
      its transaction, a released one stays released with its reason, evidence and confirmed
      refunds are never rewritten, and a complete operation stays complete. */
  lemma {:induction false} LedgerOnlyAdvances(l: Ledger, steps: seq<Step>)
    ensures Advances(l, Run(l, steps))
    decreases |steps|
  {
    if steps != [] {
      StepAdvances(l, steps[0]);
      LedgerOnlyAdvances(Next(l, steps[0]), steps[1..]);
      AdvancesThrough(l, Next(l, steps[0]), Run(l, steps));
    }
  }
}
