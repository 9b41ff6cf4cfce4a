/** What the budget's transactions do: exactly which payments are reserved, what every release, refund
    and top-up gives back, and exactly when the latch closes and opens. */
module BudgetProgress {
  import opened Sums
  import opened PaymentLedger
  import opened BudgetSafety

  /** No payment of the operation is out or paid. */
  predicate Unpaid(l: Ledger, operation: OperationId) {
    forall id | id in l.payments && l.payments[id].operation == Some(operation) :: l.payments[id].state.Released?
  }

  ghost predicate RefundsSound(l: Ledger) {
    forall id | id in l.refunds :: RefundSound(l, id)
  }

  // ---------------------------------------------------------------- reservation

  /** A payment is reserved exactly when its amount can be stored, its operation is pending with no other
      payment out or paid, the latch is open, and it fits under the cap. */
  lemma ReservedExactly(l: Ledger, id: PaymentId, amount: int, operation: Option<OperationId>, network: string)
    requires id !in l.payments
    ensures id in Reserve(l, id, amount, operation, network).payments <==>
            && 0 <= amount <= MAX_STORABLE
            && (operation.Some? ==>
                  && operation.value in l.operations && l.operations[operation.value].state.Pending?
                  && Unpaid(l, operation.value))
            && !l.exhausted && Spent(l, l.period) + amount <= Cap(l)
    ensures id !in Reserve(l, id, amount, operation, network).payments ==>
              Reserve(l, id, amount, operation, network) == l
  {
    if operation.Some? {
      UnpaidExactly(l, operation.value);
    }
  }

  lemma UnpaidExactly(l: Ledger, operation: OperationId)
    ensures Unpaid(l, operation) <==> forall id | id in l.payments :: !LiveFor(l.payments[id], operation)
  {
    if Unpaid(l, operation) {
    } else {
      var id :| id in l.payments && l.payments[id].operation == Some(operation) && !l.payments[id].state.Released?;
      assert LiveFor(l.payments[id], operation);
    }
  }

  /** A reserved payment is authorized in the current period, nothing else is written, and the latch is
      closed exactly if the period's spend is now positive and has reached the cap. */
  lemma ReservationWrites(l: Ledger, id: PaymentId, amount: int, operation: Option<OperationId>, network: string)
    requires RefundsSound(l) && id !in l.payments && id in Reserve(l, id, amount, operation, network).payments
    ensures amount >= 0
    ensures var l' := Reserve(l, id, amount, operation, network);
            && l' == l.(payments :=
                          l.payments[id := Payment(l.period, Authorized, amount, operation, None, None, network)],
                        exhausted := l'.exhausted)
            && Spent(l', l.period) == Spent(l, l.period) + amount
            && (l'.exhausted <==> Spent(l', l.period) > 0 && Spent(l', l.period) >= Cap(l))
  {
    ReservedSpent(l, id, amount, operation, network, l.period);
  }

  /** Nothing but a reservation that uses the budget up closes the latch. */
  lemma LatchClosesOnlyAtCap(l: Ledger, step: Step)
    requires RefundsSound(l) && !l.exhausted && Next(l, step).exhausted
    ensures step.ReserveStep? && step.id !in l.payments && step.id in Next(l, step).payments
    ensures Spent(Next(l, step), l.period) > 0 && Spent(Next(l, step), l.period) >= Cap(l)
  {
    if step.ReserveStep? {
      ReservationWrites(l, step.id, step.amount, step.operation, step.network);
    } else if Freed(step).Some? || step.ResetStep? {
      StaysOpen(l, step);
    } else {
      LatchKept(l, step);
    }
  }

  lemma StaysOpen(l: Ledger, step: Step)
    requires (Freed(step).Some? || step.ResetStep?) && !l.exhausted
    ensures !Next(l, step).exhausted
  {
    match step
    case ReleaseUnsignedStep(id) =>
    case EvidenceStep(id, original, finding) =>
    case RefundStep(id, original, transaction) =>
    case ResetStep(cap) =>
  }

  /** What an accepted reservation leaves of the budget can be spent: any payment within it, outside an
      operation, is reserved next. */
  lemma RestStillFits(l: Ledger, id: PaymentId, amount: int, operation: Option<OperationId>, network: string,
                      next: PaymentId, rest: int, network': string)
    requires RefundsSound(l) && id !in l.payments && id in Reserve(l, id, amount, operation, network).payments
    requires var l' := Reserve(l, id, amount, operation, network);
             next !in l'.payments && 0 <= rest <= MAX_STORABLE && rest <= Cap(l') - Spent(l', l'.period)
             && Spent(l', l'.period) < Cap(l')
    ensures var l' := Reserve(l, id, amount, operation, network);
            next in Reserve(l', next, rest, None, network').payments
  {
    ReservationWrites(l, id, amount, operation, network);
    ReservedExactly(Reserve(l, id, amount, operation, network), next, rest, None, network');
  }

  // ---------------------------------------------------------------- what one row costs

  /** If only one payment's cost changes, the period's spend changes by as much. */
  lemma CostMoved(l: Ledger, l': Ledger, id: PaymentId, period: nat)
    requires RefundsSound(l) && RefundsSound(l') && id in l.payments && l'.payments.Keys == l.payments.Keys
    requires forall j | j in l.payments && j != id :: NetOf(l', j, period) == NetOf(l, j, period)
    ensures Spent(l', period) == Spent(l, period) - NetOf(l, id, period) + NetOf(l', id, period)
  {
    assert NetColumn(l', period) == NetColumn(l, period)[id := NetOf(l', id, period)];
    TallySet(NetColumn(l, period), id, NetOf(l', id, period));
    SpentIsNet(l, period);
    SpentIsNet(l', period);
  }

  /** One authorized payment is released, and nothing else that costs changes. */
  lemma GivenBack(l: Ledger, l': Ledger, id: PaymentId, period: nat)
    requires RefundsSound(l) && id in l.payments && l.payments[id].state.Authorized?
    requires l'.payments.Keys == l.payments.Keys && l'.refunds == l.refunds && l'.payments[id].state.Released?
    requires forall j | j in l.payments && j != id :: l'.payments[j] == l.payments[j]
    ensures Spent(l', period)
            == Spent(l, period) - (if period == l.payments[id].period then l.payments[id].amount else 0)
  {
    RefundsKept(l, l');
    CostMoved(l, l', id, period);
  }

  // ---------------------------------------------------------------- settlement and release

  /** The last payment of the list is settled with its transaction if it was still authorized; nothing else
      is written. */
  lemma SettlementWrites(l: Ledger, ids: seq<PaymentId>, transaction: string)
    ensures var l' := Settle(l, ids, transaction);
            if ids != [] && ids[|ids| - 1] in l.payments && l.payments[ids[|ids| - 1]].state.Authorized? then
              var id := ids[|ids| - 1];
              l' == l.(payments :=
                l.payments[id := l.payments[id].(state := Settled, transaction := Some(transaction))])
            else l' == l
  {
  }

  /** A signature that was refused gives its amount back to its own period; and the latch opens exactly if
      that payment was what made the current period look full. */
  lemma RefusedSignatureReleases(l: Ledger, id: PaymentId)
    requires RefundsSound(l)
    ensures var l' := ReleaseUnsigned(l, id);
            if id !in l.payments || !l.payments[id].state.Authorized? then l' == l
            else
              var p := l.payments[id];
              && l' == l.(payments := l.payments[id := p.(state := Released, reason := Some(SignatureRefused))],
                          exhausted := l'.exhausted)
              && (forall k: nat :: Spent(l', k) == Spent(l, k) - (if k == p.period then p.amount else 0))
              && (l'.exhausted <==>
                    l.exhausted && !(p.period == l.period && p.amount > 0
                                     && Spent(l, l.period) >= Cap(l) && Spent(l', l.period) < Cap(l)))
  {
    if id in l.payments && l.payments[id].state.Authorized? {
      forall k: nat
        ensures Spent(ReleaseUnsigned(l, id), k)
                == Spent(l, k) - (if k == l.payments[id].period then l.payments[id].amount else 0)
      {
        RefusalFrees(l, id, k);
      }
      SameCost(WithReleased(l, id, SignatureRefused), ReleaseUnsigned(l, id));
    }
  }

  lemma RefusalFrees(l: Ledger, id: PaymentId, k: nat)
    requires RefundsSound(l) && id in l.payments && l.payments[id].state.Authorized?
    ensures Spent(ReleaseUnsigned(l, id), k)
            == Spent(l, k) - (if k == l.payments[id].period then l.payments[id].amount else 0)
  {
    GivenBack(l, ReleaseUnsigned(l, id), id, k);
  }

  /** A release closes exactly the listed payments that were still authorized; the latch stays. */
  lemma ReleaseWrites(l: Ledger, ids: set<PaymentId>, reason: string)
    ensures var l' := Release(l, ids, reason);
            && l' == l.(payments := l'.payments) && l'.payments.Keys == l.payments.Keys
            && forall id | id in l.payments ::
                 l'.payments[id] == if id in ids && l.payments[id].state.Authorized?
                                    then l.payments[id].(state := Released, reason := Some(Stated(reason)))
                                    else l.payments[id]
  {
  }

  /** A top-up starts the next period with nothing spent and the latch open, under the cap agreed to or
      the one there was. */
  lemma TopUpReopens(l: Ledger, cap: Option<nat>)
    requires WithinCaps(l)
    ensures var l' := Reset(l, cap);
            && l'.period == l.period + 1 && !l'.exhausted && Spent(l', l'.period) == 0
            && Cap(l') == (if cap.Some? then cap.value else Cap(l))
            && l' == l.(period := l'.period, exhausted := false, authorizedCap := l'.authorizedCap, caps := l'.caps)
  {
    ResetWithinCaps(l, cap);
  }

  lemma OpeningCap(configured: nat)
    ensures Cap(Opening(configured)) == configured && Spent(Opening(configured), 1) == 0
    ensures !Opening(configured).exhausted && Opening(configured).period == 1
  {
    var l := Opening(configured);
    SpentIsNet(l, 1);
    assert NetColumn(l, 1) == map[];
  }

  // ---------------------------------------------------------------- evidence and refunds

  /** What `RecordEvidence` may be applied to: the unchanged, still authorized row, once. */
  predicate Awaits(l: Ledger, id: PaymentId, original: Payment) {
    id in l.payments && l.payments[id] == original && original.state.Authorized? && id !in l.evidence
  }

  /** Evidence of settlement settles the row with its transaction, is kept, and changes nothing else. */
  lemma SettlementEvidenceWrites(l: Ledger, id: PaymentId, original: Payment, transaction: string)
    ensures var l' := RecordEvidence(l, id, original, FoundSettled(transaction));
            if !Awaits(l, id, original) then l' == l
            else
              && id in l'.evidence && l'.evidence == l.evidence[id := l'.evidence[id]]
              && l' == l.(evidence := l'.evidence,
                          payments := l.payments[id := original.(state := Settled, transaction := Some(transaction),
                                                                 reason := None)])
  {
  }

  /** Evidence that a payment can never be paid releases the row with its reason, gives the amount back,
      opens the latch if the current period is then below its cap, and closes the operation if it was
      pending and nothing of it is out or paid any more. */
  lemma UnpaidEvidenceReleases(l: Ledger, id: PaymentId, original: Payment, reason: Reason)
    requires RefundsSound(l) && Awaits(l, id, original)
    requires reason.ExpiredUnused? || reason.Cancelled? || reason.Unspendable?
    ensures var l' := RecordEvidence(l, id, original, FoundUnpaid(reason));
            && l'.payments
               == l.payments[id := original.(state := Released, transaction := None, reason := Some(reason))]
            && l'.evidence == l.evidence[id := reason]
            && l' == l.(payments := l'.payments, evidence := l'.evidence, exhausted := l'.exhausted,
                        operations := l'.operations)
            && (forall k: nat :: Spent(l', k) == Spent(l, k) - (if k == original.period then original.amount else 0))
            && (l'.exhausted <==> l.exhausted && !(original.period == l.period && Spent(l', l.period) < Cap(l)))
    ensures var l' := RecordEvidence(l, id, original, FoundUnpaid(reason));
            l'.operations ==
            if original.operation.Some? && original.operation.value in l.operations
               && l.operations[original.operation.value].state.Pending? && Unpaid(l', original.operation.value)
            then l.operations[original.operation.value :=
                                l.operations[original.operation.value].(state := UnsignedFailed)]
            else l.operations
  {
    var l' := RecordEvidence(l, id, original, FoundUnpaid(reason));
    assert EvidenceApplies(l, id, original);
    EvidenceLowersCost(l, id, original, FoundUnpaid(reason));
    forall k: nat ensures Spent(l', k) == Spent(l, k) - (if k == original.period then original.amount else 0) {
      GivenBack(l, l', id, k);
    }
    SameCost(l'.(exhausted := l.exhausted, operations := l.operations), l');
    if original.operation.Some? {
      UnpaidExactly(l', original.operation.value);
    }
  }

  /** A transfer that no other refund of the network names confirms the credit of an unchanged settled
      payment: the refund names it, the payment's period gets the amount back, and the latch opens if the
      current period is then below its cap. */
  lemma RefundConfirmed(l: Ledger, id: PaymentId, transaction: string)
    requires RefundsSound(l) && id in l.payments && l.payments[id].state.Settled?
    requires id in l.refunds && !l.refunds[id].state.Confirmed?
    requires forall j | j in l.refunds && j != id && l.refunds[j].network == l.refunds[id].network ::
               l.refunds[j].transaction != Some(transaction)
    ensures var p, l' := l.payments[id], ConfirmRefund(l, id, l.payments[id], transaction);
            && l' == l.(refunds := l.refunds[id := l.refunds[id].(state := RefundState.Confirmed,
                                                                  transaction := Some(transaction))],
                        exhausted := l'.exhausted)
            && (forall k: nat :: Spent(l', k) == Spent(l, k) - (if k == p.period then p.amount else 0))
            && (l'.exhausted <==> l.exhausted && !(p.period == l.period && Spent(l', l.period) < Cap(l)))
  {
    var p, l' := l.payments[id], ConfirmRefund(l, id, l.payments[id], transaction);
    assert RefundApplies(l, id, p, transaction);
    assert RefundsSound(l') by {
      forall j | j in l'.refunds ensures RefundSound(l', j) {
        assert RefundSound(l, j);
      }
    }
    forall k: nat ensures Spent(l', k) == Spent(l, k) - (if k == p.period then p.amount else 0) {
      assert RefundSound(l, id);
      CostMoved(l, l', id, k);
    }
    SameCost(l'.(exhausted := l.exhausted), l');
  }

  /** A refund that is looked at by a person is marked so, unless it is confirmed already. */
  lemma ReviewIsMarked(l: Ledger, id: PaymentId)
    requires id in l.refunds
    ensures ReviewRefund(l, id) ==
            if l.refunds[id].state == RefundState.Confirmed then l
            else l.(refunds := l.refunds[id := l.refunds[id].(state := RefundState.Review)])
  {
  }
}
