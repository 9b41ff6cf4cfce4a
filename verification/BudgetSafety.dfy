/** The cap, the exhaustion latch and the refunds, over every interleaving of transactions. */
module BudgetSafety {
  import opened Sums
  import opened PaymentLedger

  /** What one payment costs a period after its confirmed refund. */
  function NetOf(l: Ledger, id: PaymentId, period: nat): int
    requires id in l.payments
  {
    var p := l.payments[id];
    if p.period != period || !Counting(p) then 0
    else
      p.amount
      - (if p.state.Settled? && id in l.refunds && l.refunds[id].state.Confirmed? then l.refunds[id].amount else 0)
  }

  ghost function NetColumn(l: Ledger, period: nat): map<PaymentId, int> {
    map id | id in l.payments :: NetOf(l, id, period)
  }

  /** A refund row belongs to a settled payment and is for its whole amount. */
  predicate RefundSound(l: Ledger, id: PaymentId)
    requires id in l.refunds
  {
    id in l.payments && l.payments[id].state.Settled? && l.refunds[id].amount == l.payments[id].amount
  }

  /** The confirmed refunds of a period never exceed its settled payments, so the clamp at
      zero is never what decides the total. */
  lemma SpentIsNet(l: Ledger, period: nat)
    requires forall id | id in l.refunds :: RefundSound(l, id)
    ensures Tally(Refunded(l, period)) <= Tally(Counted(l, period))
    ensures Spent(l, period) == Tally(NetColumn(l, period))
  {
    TallyDifference(Counted(l, period), Refunded(l, period), NetColumn(l, period));
    TallyNonNegative(NetColumn(l, period));
  }

  /** No period has more net spend than its cap, and a positive cap that is reached latches. */
  ghost predicate WithinCaps(l: Ledger) {
    && |l.caps| == l.period && l.period > 0 && l.caps[l.period - 1] == Cap(l)
    && (forall id | id in l.refunds :: RefundSound(l, id))
    && (forall id | id in l.payments :: 1 <= l.payments[id].period <= l.period)
    && AllCapped(l)
    && (Cap(l) > 0 && Spent(l, l.period) >= Cap(l) ==> l.exhausted)
  }

  ghost predicate AllCapped(l: Ledger)
    requires |l.caps| == l.period
  {
    forall k | 1 <= k <= l.period :: Capped(l, k)
  }

  ghost predicate Capped(l: Ledger, period: nat)
    requires 1 <= period <= |l.caps|
  {
    Spent(l, period) <= l.caps[period - 1]
  }

  /** A step that adds no period and raises no payment's net cost lowers every period's spend. */
  lemma NetFalls(l: Ledger, l': Ledger, period: nat)
    requires forall id | id in l.refunds :: RefundSound(l, id)
    requires forall id | id in l'.refunds :: RefundSound(l', id)
    requires l'.payments.Keys == l.payments.Keys
    requires forall id | id in l.payments :: NetOf(l', id, period) <= NetOf(l, id, period)
    ensures Spent(l', period) <= Spent(l, period)
  {
    SpentIsNet(l, period);
    SpentIsNet(l', period);
    TallyOrdered(NetColumn(l', period), NetColumn(l, period));
  }

  /** The budget columns of a step that lets no payment cost more. */
  lemma FallsWithinCaps(l: Ledger, l': Ledger)
    requires WithinCaps(l)
    requires l'.configured == l.configured && l'.period == l.period && l'.authorizedCap == l.authorizedCap
             && l'.caps == l.caps
    requires l'.payments.Keys == l.payments.Keys
    requires forall id | id in l.payments :: l'.payments[id].period == l.payments[id].period
    requires forall id | id in l'.refunds :: RefundSound(l', id)
    requires forall id, k | id in l.payments :: NetOf(l', id, k) <= NetOf(l, id, k)
    requires l'.exhausted == l.exhausted || Spent(l', l.period) < Cap(l)
    ensures WithinCaps(l')
  {
    forall k | 1 <= k <= l'.period ensures Capped(l', k) {
      NetFalls(l, l', k);
      assert Capped(l, k);
    }
    NetFalls(l, l', l.period);
  }

  /** A payment's cost depends on its own row and its own refund. */
  lemma SameCost(l: Ledger, l': Ledger)
    requires l'.payments == l.payments && l'.refunds == l.refunds
    ensures forall id, k | id in l.payments :: NetOf(l', id, k) == NetOf(l, id, k)
    ensures forall k :: Spent(l', k) == Spent(l, k)
  {
    forall k ensures Spent(l', k) == Spent(l, k) {
      assert Counted(l', k) == Counted(l, k) && Refunded(l', k) == Refunded(l, k);
    }
  }

  lemma ReserveWithinCaps(l: Ledger, id: PaymentId, amount: int, operation: Option<OperationId>, network: string)
    requires WithinCaps(l)
    ensures WithinCaps(Reserve(l, id, amount, operation, network))
  {
    if id !in l.payments && ReserveRefusal(l, amount, operation).None? {
      var p := Payment(l.period, Authorized, amount, operation, None, None, network);
      RowAdded(l, Reserve(l, id, amount, operation, network), id, p, l.period);
      AddedWithinCaps(l, Reserve(l, id, amount, operation, network), id, p);
    }
  }

  /** A new authorized payment that fits under the cap and latches when it reaches it. */
  lemma AddedWithinCaps(l: Ledger, l': Ledger, id: PaymentId, p: Payment)
    requires WithinCaps(l) && id !in l.payments && p.state.Authorized? && p.period == l.period
    requires l' == l.(payments := l.payments[id := p], exhausted := l'.exhausted)
    requires Spent(l', l.period) <= Cap(l)
    requires l'.exhausted == (Spent(l', l.period) >= Cap(l) && Spent(l', l.period) > 0)
    ensures WithinCaps(l')
  {
    RefundsKept(l, l');
    forall k | 1 <= k <= l.period ensures Capped(l', k) {
      assert Capped(l, k);
      RowAdded(l, l', id, p, k);
    }
  }

  /** A reservation adds exactly its amount, to the current period only. */
  lemma ReservedSpent(l: Ledger, id: PaymentId, amount: int, operation: Option<OperationId>, network: string,
                      period: nat)
    requires (forall j | j in l.refunds :: RefundSound(l, j)) && id !in l.payments
             && ReserveRefusal(l, amount, operation).None?
    ensures Spent(Reserve(l, id, amount, operation, network), period)
            == Spent(l, period) + (if period == l.period then amount else 0)
  {
    RowAdded(l, Reserve(l, id, amount, operation, network), id,
             Payment(l.period, Authorized, amount, operation, None, None, network), period);
  }

  lemma RowAdded(l: Ledger, l': Ledger, id: PaymentId, p: Payment, period: nat)
    requires (forall j | j in l.refunds :: RefundSound(l, j)) && id !in l.payments && p.state.Authorized?
    requires l'.payments == l.payments[id := p] && l'.refunds == l.refunds
    ensures Spent(l', period) == Spent(l, period) + (if p.period == period then p.amount else 0)
  {
    RefundsKept(l, l');
    NetAdded(l, l', id, p, period);
    TallySet(NetColumn(l, period), id, NetOf(l', id, period));
    SpentIsNet(l, period);
    SpentIsNet(l', period);
  }

  lemma NetAdded(l: Ledger, l': Ledger, id: PaymentId, p: Payment, period: nat)
    requires id !in l.payments && p.state.Authorized? && l'.payments == l.payments[id := p] && l'.refunds == l.refunds
    ensures NetOf(l', id, period) == (if p.period == period then p.amount else 0)
    ensures NetColumn(l', period) == NetColumn(l, period)[id := NetOf(l', id, period)]
  {
    assert forall j | j in l.payments :: NetOf(l', j, period) == NetOf(l, j, period);
  }

  lemma SettleWithinCaps(l: Ledger, ids: seq<PaymentId>, transaction: string)
    requires WithinCaps(l)
    ensures WithinCaps(Settle(l, ids, transaction))
  {
    var l' := Settle(l, ids, transaction);
    if l' != l {
      RefundsKept(l, l');
      SettleCostsNothing(l, ids, transaction);
      FallsWithinCaps(l, l');
    }
  }

  /** Evidence of settlement changes no total: the payment was counted all along. */
  lemma SettleCostsNothing(l: Ledger, ids: seq<PaymentId>, transaction: string)
    requires forall id | id in l.refunds :: RefundSound(l, id)
    ensures var l' := Settle(l, ids, transaction);
            l'.payments.Keys == l.payments.Keys && forall id, k | id in l.payments ::
              NetOf(l', id, k) == NetOf(l, id, k)
  {
    if ids != [] && ids[|ids| - 1] in l.refunds {
      assert RefundSound(l, ids[|ids| - 1]);
    }
  }

  /** Settled rows never change, so refund rows stay sound. */
  lemma RefundsKept(l: Ledger, l': Ledger)
    requires forall id | id in l.refunds :: RefundSound(l, id)
    requires l'.refunds == l.refunds && l.payments.Keys <= l'.payments.Keys
    requires forall id | id in l.payments && l.payments[id].state.Settled? :: l'.payments[id] == l.payments[id]
    ensures forall id | id in l'.refunds :: RefundSound(l', id)
  {
    forall id | id in l'.refunds ensures RefundSound(l', id) {
      assert RefundSound(l, id);
    }
  }

  lemma ReleaseUnsignedWithinCaps(l: Ledger, id: PaymentId)
    requires WithinCaps(l)
    ensures WithinCaps(ReleaseUnsigned(l, id))
  {
    var l' := ReleaseUnsigned(l, id);
    if id in l.payments && l.payments[id].state.Authorized? {
      SameCost(WithReleased(l, id, SignatureRefused), l');
      ReleaseLowersCost(l, id);
      FallsWithinCaps(l, l');
    }
  }

  /** A release gives the whole amount back to the payment's own period. */
  lemma ReleaseLowersCost(l: Ledger, id: PaymentId)
    requires (forall j | j in l.refunds :: RefundSound(l, j)) && id in l.payments && l.payments[id].state.Authorized?
    ensures var l' := ReleaseUnsigned(l, id);
            && (forall j | j in l'.refunds :: RefundSound(l', j))
            && l'.payments.Keys == l.payments.Keys
            && (forall j | j in l.payments :: l'.payments[j].period == l.payments[j].period)
            && forall j, k | j in l.payments :: NetOf(l', j, k) <= NetOf(l, j, k)
  {
    var l' := ReleaseUnsigned(l, id);
    assert l'.payments == l.payments[id := l.payments[id].(state := Released, reason := Some(SignatureRefused))];
    RefundsKept(l, l');
  }

  lemma ReleaseWithinCaps(l: Ledger, ids: set<PaymentId>, reason: string)
    requires WithinCaps(l)
    ensures WithinCaps(Release(l, ids, reason))
  {
    var l' := Release(l, ids, reason);
    RefundsKept(l, l');
    FallsWithinCaps(l, l');
  }

  lemma EvidenceWithinCaps(l: Ledger, id: PaymentId, original: Payment, finding: Finding)
    requires WithinCaps(l)
    ensures WithinCaps(RecordEvidence(l, id, original, finding))
  {
    var l' := RecordEvidence(l, id, original, finding);
    if EvidenceApplies(l, id, original) && Recordable(finding) {
      SameCost(l'.(exhausted := l.exhausted, operations := l.operations), l');
      EvidenceLowersCost(l, id, original, finding);
      FallsWithinCaps(l, l');
    }
  }

  /** Evidence of settlement changes no cost; evidence of non-payment gives the amount back. */
  lemma EvidenceLowersCost(l: Ledger, id: PaymentId, original: Payment, finding: Finding)
    requires forall j | j in l.refunds :: RefundSound(l, j)
    requires EvidenceApplies(l, id, original) && Recordable(finding)
    ensures var l' := RecordEvidence(l, id, original, finding);
            && (forall j | j in l'.refunds :: RefundSound(l', j))
            && l'.payments.Keys == l.payments.Keys
            && forall j, k | j in l.payments :: NetOf(l', j, k) <= NetOf(l, j, k)
  {
    var l' := RecordEvidence(l, id, original, finding);
    RefundsKept(l, l');
    assert id in l.refunds ==> RefundSound(l, id);
  }

  lemma RefundWithinCaps(l: Ledger, id: PaymentId, original: Payment, transaction: string)
    requires WithinCaps(l)
    ensures WithinCaps(ConfirmRefund(l, id, original, transaction))
  {
    var l' := ConfirmRefund(l, id, original, transaction);
    if RefundApplies(l, id, original, transaction) {
      SameCost(l'.(exhausted := l.exhausted), l');
      forall j | j in l'.refunds ensures RefundSound(l', j) {
        assert RefundSound(l, j);
      }
      FallsWithinCaps(l, l');
    }
  }

  lemma ReviewWithinCaps(l: Ledger, id: PaymentId)
    requires WithinCaps(l)
    ensures WithinCaps(ReviewRefund(l, id))
  {
    var l' := ReviewRefund(l, id);
    forall j | j in l'.refunds ensures RefundSound(l', j) {
      assert RefundSound(l, j);
    }
    FallsWithinCaps(l, l');
  }

  /** Completion may open watched refunds for settled payments; it changes no other money. */
  lemma CompleteOnlyWatches(l: Ledger, op: OperationId, failed: bool)
    ensures var l' := CompleteOperation(l, op, failed);
            && l' == l.(refunds := l'.refunds, operations := l'.operations)
            && (forall j | j in l.refunds :: j in l'.refunds && l'.refunds[j] == l.refunds[j])
            && (forall j | j in l'.refunds && j !in l.refunds ::
                  && l'.refunds[j].state.Watched? && l'.refunds[j].transaction.None?
                  && j in l.payments && l.payments[j].state.Settled? && l'.refunds[j].amount == l.payments[j].amount)
  {
  }

  lemma CompleteWithinCaps(l: Ledger, op: OperationId, failed: bool)
    requires WithinCaps(l)
    ensures WithinCaps(CompleteOperation(l, op, failed))
  {
    CompleteOnlyWatches(l, op, failed);
    WatchedWithinCaps(l, CompleteOperation(l, op, failed));
  }

  lemma WatchedWithinCaps(l: Ledger, l': Ledger)
    requires WithinCaps(l) && l' == l.(refunds := l'.refunds, operations := l'.operations)
    requires forall j | j in l.refunds :: j in l'.refunds && l'.refunds[j] == l.refunds[j]
    requires forall j | j in l'.refunds && j !in l.refunds ::
               l'.refunds[j].state.Watched? && j in l.payments && l.payments[j].state.Settled?
               && l'.refunds[j].amount == l.payments[j].amount
    ensures WithinCaps(l')
  {
    forall j | j in l'.refunds ensures RefundSound(l', j) {
      assert j in l.refunds ==> RefundSound(l, j);
    }
    FallsWithinCaps(l, l');
  }

  /** A period without payments has no spend. */
  lemma EmptyPeriod(l: Ledger, period: nat)
    requires forall id | id in l.payments :: l.payments[id].period != period
    ensures Spent(l, period) == 0
  {
    TallyZero(Counted(l, period));
    TallyZero(Refunded(l, period));
  }

  lemma ResetWithinCaps(l: Ledger, cap: Option<nat>)
    requires WithinCaps(l)
    ensures WithinCaps(Reset(l, cap)) && Spent(Reset(l, cap), l.period + 1) == 0
  {
    EmptyPeriod(Reset(l, cap), l.period + 1);
    NewPeriodWithinCaps(l, Reset(l, cap));
  }

  /** A new period starts without spend, under the cap it records. */
  lemma NewPeriodWithinCaps(l: Ledger, l': Ledger)
    requires WithinCaps(l) && l'.period == l.period + 1 == |l'.caps| && l.caps <= l'.caps
             && l'.caps[l.period] == Cap(l')
    requires l'.payments == l.payments && l'.refunds == l.refunds
    requires Spent(l', l'.period) == 0
    ensures WithinCaps(l')
  {
    RefundsKept(l, l');
    PeriodsCapped(l, l');
  }

  lemma PeriodsCapped(l: Ledger, l': Ledger)
    requires |l.caps| == l.period && AllCapped(l) && l'.period == l.period + 1 == |l'.caps| && l.caps <= l'.caps
    requires l'.payments == l.payments && l'.refunds == l.refunds && Capped(l', l'.period)
    ensures AllCapped(l')
  {
    forall k | 1 <= k <= l'.period ensures Capped(l', k) {
      if k <= l.period {
        assert Capped(l, k);
        ClosedPeriodCapped(l, l', k);
      }
    }
  }

  lemma ClosedPeriodCapped(l: Ledger, l': Ledger, k: nat)
    requires 1 <= k <= |l.caps| <= |l'.caps| && l'.caps[k - 1] == l.caps[k - 1] && Capped(l, k)
    requires l'.payments == l.payments && l'.refunds == l.refunds
    ensures Capped(l', k)
  {
    SameCost(l, l');
  }

  lemma NextWithinCaps(l: Ledger, step: Step)
    requires WithinCaps(l)
    ensures WithinCaps(Next(l, step))
  {
    match step
    case ReserveStep(id, amount, operation, network) => ReserveWithinCaps(l, id, amount, operation, network);
    case SettleStep(ids, transaction) => SettleWithinCaps(l, ids, transaction);
    case ReleaseUnsignedStep(id) => ReleaseUnsignedWithinCaps(l, id);
    case ReleaseStep(rows, reason) => ReleaseWithinCaps(l, rows, reason);
    case ResetStep(cap) => ResetWithinCaps(l, cap);
    case EvidenceStep(id, original, finding) => EvidenceWithinCaps(l, id, original, finding);
    case RefundStep(id, original, transaction) => RefundWithinCaps(l, id, original, transaction);
    case ReviewStep(id) => ReviewWithinCaps(l, id);
    case CompleteStep(op, failed) => CompleteWithinCaps(l, op, failed);
    case _ => OperationsOnly(l, step);
  }

  /** The other steps touch no money column. */
  lemma OperationsOnly(l: Ledger, step: Step)
    requires WithinCaps(l) && MovesNoMoney(step)
    ensures WithinCaps(Next(l, step))
  {
    OperationsAndRecovery(l, step);
    UntouchedWithinCaps(l, Next(l, step));
  }

  predicate MovesNoMoney(step: Step) {
    step.HeadersStep? || step.AbandonStep? || step.IdentifyStep? || step.AllowStep? || step.BeginStep?
  }

  lemma OperationsAndRecovery(l: Ledger, step: Step)
    requires MovesNoMoney(step)
    ensures var l' := Next(l, step); l' == l.(operations := l'.operations, recovery := l'.recovery)
  {
    match step
    case BeginStep(fingerprint, named, twin, minted) => BeginKeepsMoney(l, fingerprint, named, twin, minted);
    case HeadersStep(op) => HeadersKeepMoney(l, op);
    case AbandonStep(op) => AbandonKeepsMoney(l, op);
    case IdentifyStep(op) => IdentifyKeepsMoney(l, op);
    case AllowStep(op) => AllowKeepsMoney(l, op);
  }

  lemma HeadersKeepMoney(l: Ledger, op: OperationId)
    ensures SaveHeaders(l, op) == l.(operations := SaveHeaders(l, op).operations)
  {
  }

  lemma AbandonKeepsMoney(l: Ledger, op: OperationId)
    ensures Abandon(l, op) == l.(operations := Abandon(l, op).operations)
  {
  }

  lemma IdentifyKeepsMoney(l: Ledger, op: OperationId)
    ensures Identify(l, op) == l.(recovery := Identify(l, op).recovery)
  {
  }

  lemma AllowKeepsMoney(l: Ledger, op: OperationId)
    ensures AllowReplacement(l, op) == l.(recovery := AllowReplacement(l, op).recovery)
  {
    IdentifyKeepsMoney(l, op);
  }

  lemma BeginKeepsMoney(l: Ledger, fingerprint: string, named: Option<OperationId>, twin: Option<OperationId>,
                        minted: OperationId)
    ensures var l' := Begin(l, fingerprint, named, twin, minted).1;
            l' == l.(operations := l'.operations, recovery := l'.recovery)
  {
  }

  lemma UntouchedWithinCaps(l: Ledger, l': Ledger)
    requires WithinCaps(l) && l' == l.(operations := l'.operations, recovery := l'.recovery)
    ensures WithinCaps(l')
  {
    SameCost(l, l');
    RefundsKept(l, l');
    FallsWithinCaps(l, l');
  }

  // ---------------------------------------------------------------- every run

  lemma OpeningWithinCaps(configured: nat)
    ensures WithinCaps(Opening(configured))
  {
    var l := Opening(configured);
    SpentIsNet(l, 1);
    assert NetColumn(l, 1) == map[];
    assert Capped(l, 1);
  }

  /** The sum of net spend over the first `upTo` periods, and of their caps. */
  ghost function SpentThrough(l: Ledger, upTo: nat): nat {
    if upTo == 0 then 0 else SpentThrough(l, upTo - 1) + Spent(l, upTo)
  }

  function CapsThrough(caps: seq<nat>, upTo: nat): nat
    requires upTo <= |caps|
  {
    if upTo == 0 then 0 else CapsThrough(caps, upTo - 1) + caps[upTo - 1]
  }

  lemma {:induction false} ThroughWithinCaps(l: Ledger, upTo: nat)
    requires WithinCaps(l) && upTo <= l.period
    ensures SpentThrough(l, upTo) <= CapsThrough(l.caps, upTo)
  {
    if upTo > 0 {
      ThroughWithinCaps(l, upTo - 1);
      assert Capped(l, upTo);
    }
  }

  lemma {:induction false} RunWithinCaps(l: Ledger, steps: seq<Step>)
    requires WithinCaps(l)
    ensures WithinCaps(Run(l, steps))
    decreases |steps|
  {
    if steps != [] {
      NextWithinCaps(l, steps[0]);
      RunWithinCaps(Next(l, steps[0]), steps[1..]);
    }
  }

  /** From installation on, under any interleaving of reservations, settlements, releases,
      reconciliations, refunds and top-ups: the current period's net spend is within its cap,
      the whole run's is within the sum of the caps people agreed to, refunds never exceed what
      was paid, and a positive cap that is reached has latched. */
  lemma BudgetHolds(configured: nat, steps: seq<Step>)
    ensures var l := Run(Opening(configured), steps);
            && Spent(l, l.period) <= Cap(l)
            && l.period <= |l.caps| && SpentThrough(l, l.period) <= CapsThrough(l.caps, l.period)
            && (forall k :: Tally(Refunded(l, k)) <= Tally(Counted(l, k)))
            && (Cap(l) > 0 && Spent(l, l.period) >= Cap(l) ==> l.exhausted)
  {
    OpeningWithinCaps(configured);
    RunWithinCaps(Opening(configured), steps);
    var l := Run(Opening(configured), steps);
    assert Capped(l, l.period);
    ThroughWithinCaps(l, l.period);
    forall k ensures Tally(Refunded(l, k)) <= Tally(Counted(l, k)) {
      SpentIsNet(l, k);
    }
  }

  // ---------------------------------------------------------------- the latch

  /** The payment whose release or refund a step records. */
  function Freed(step: Step): Option<PaymentId> {
    match step
    case ReleaseUnsignedStep(id) => Some(id)
    case EvidenceStep(id, _, _) => Some(id)
    case RefundStep(id, _, _) => Some(id)
    case _ => None
  }

  /** Within a period the latch opens only for a release or refund of a payment of that very
      period, and only when it leaves the spend below the cap. */
  lemma LatchOpensOnlyBelowCap(l: Ledger, step: Step)
    requires l.exhausted && !Next(l, step).exhausted && Next(l, step).period == l.period
    ensures Freed(step).Some? && Freed(step).value in l.payments && l.payments[Freed(step).value].period == l.period
    ensures Spent(Next(l, step), l.period) < Cap(Next(l, step))
  {
    match step
    case ReleaseUnsignedStep(id) => ReleaseOpensBelowCap(l, id);
    case EvidenceStep(id, original, finding) => EvidenceOpensBelowCap(l, id, original, finding);
    case RefundStep(id, original, transaction) => RefundOpensBelowCap(l, id, original, transaction);
    case ReserveStep(id, amount, operation, network) =>
    case _ => LatchKept(l, step);
  }

  lemma ReleaseOpensBelowCap(l: Ledger, id: PaymentId)
    requires l.exhausted && !ReleaseUnsigned(l, id).exhausted
    ensures id in l.payments && l.payments[id].period == l.period
    ensures var l' := ReleaseUnsigned(l, id); Spent(l', l.period) < Cap(l')
  {
    SameCost(WithReleased(l, id, SignatureRefused), ReleaseUnsigned(l, id));
  }

  lemma EvidenceOpensBelowCap(l: Ledger, id: PaymentId, original: Payment, finding: Finding)
    requires l.exhausted && !RecordEvidence(l, id, original, finding).exhausted
    ensures id in l.payments && l.payments[id].period == l.period
    ensures var l' := RecordEvidence(l, id, original, finding); Spent(l', l.period) < Cap(l')
  {
    var l' := RecordEvidence(l, id, original, finding);
    assert finding.FoundUnpaid?;
    SameCost(l'.(exhausted := true, operations := l.operations), l');
  }

  lemma RefundOpensBelowCap(l: Ledger, id: PaymentId, original: Payment, transaction: string)
    requires l.exhausted && !ConfirmRefund(l, id, original, transaction).exhausted
    ensures id in l.payments && l.payments[id].period == l.period
    ensures var l' := ConfirmRefund(l, id, original, transaction); Spent(l', l.period) < Cap(l')
  {
    var l' := ConfirmRefund(l, id, original, transaction);
    SameCost(l'.(exhausted := true), l');
  }

  lemma LatchKept(l: Ledger, step: Step)
    requires Freed(step).None? && !step.ReserveStep? && !step.ResetStep?
    ensures Next(l, step).exhausted == l.exhausted
  {
    if MovesNoMoney(step) {
      OperationsAndRecovery(l, step);
    } else {
      match step
      case SettleStep(_, _) =>
      case ReleaseStep(_, _) =>
      case ReviewStep(_) =>
      case CompleteStep(op, failed) => CompleteOnlyWatches(l, op, failed);
    }
  }

  /** The cheap pre-flight refuses exactly when the gate would refuse one millionth of a dollar. */
  lemma PreflightAgreesWithGate(l: Ledger)
    ensures PaymentAllowed(l) <==> ReserveRefusal(l, 1, None).None?
  {
  }

  /** A transfer on a network confirms at most one refund. */
  predicate CreditsDistinct(l: Ledger) {
    && (forall i | i in l.refunds && l.refunds[i].state.Confirmed? :: l.refunds[i].transaction.Some?)
    && (forall i, j | i in l.refunds && j in l.refunds && i != j && l.refunds[i].transaction.Some? ::
          !(l.refunds[i].network == l.refunds[j].network && l.refunds[i].transaction == l.refunds[j].transaction))
  }

  lemma {:induction false} NoTransferCreditsTwice(l: Ledger, steps: seq<Step>)
    requires CreditsDistinct(l)
    ensures CreditsDistinct(Run(l, steps))
    decreases |steps|
  {
    if steps != [] {
      assert CreditsDistinct(Next(l, steps[0])) by {
        NextCreditsDistinct(l, steps[0]);
      }
      NoTransferCreditsTwice(Next(l, steps[0]), steps[1..]);
    }
  }

  lemma NextCreditsDistinct(l: Ledger, step: Step)
    requires CreditsDistinct(l)
    ensures CreditsDistinct(Next(l, step))
  {
    match step
    case RefundStep(id, original, transaction) => RefundCreditsDistinct(l, id, original, transaction);
    case ReviewStep(id) => ReviewCreditsDistinct(l, id);
    case CompleteStep(op, failed) => CompleteCreditsDistinct(l, op, failed);
    case _ => RefundsUntouched(l, step);
  }

  lemma RefundCreditsDistinct(l: Ledger, id: PaymentId, original: Payment, transaction: string)
    requires CreditsDistinct(l)
    ensures CreditsDistinct(ConfirmRefund(l, id, original, transaction))
  {
  }

  lemma ReviewCreditsDistinct(l: Ledger, id: PaymentId)
    requires CreditsDistinct(l)
    ensures CreditsDistinct(ReviewRefund(l, id))
  {
  }

  lemma CompleteCreditsDistinct(l: Ledger, op: OperationId, failed: bool)
    requires CreditsDistinct(l)
    ensures CreditsDistinct(CompleteOperation(l, op, failed))
  {
    CompleteOnlyWatches(l, op, failed);
    WatchedDistinct(l, CompleteOperation(l, op, failed));
  }

  lemma WatchedDistinct(l: Ledger, l': Ledger)
    requires CreditsDistinct(l)
    requires forall j | j in l.refunds :: j in l'.refunds && l'.refunds[j] == l.refunds[j]
    requires forall j | j in l'.refunds && j !in l.refunds ::
               l'.refunds[j].state.Watched? && l'.refunds[j].transaction.None?
    ensures CreditsDistinct(l')
  {
  }

  lemma RefundsUntouched(l: Ledger, step: Step)
    requires !step.RefundStep? && !step.ReviewStep? && !step.CompleteStep?
    ensures Next(l, step).refunds == l.refunds
  {
    if MovesNoMoney(step) {
      OperationsAndRecovery(l, step);
    } else {
      match step
      case ReserveStep(_, _, _, _) =>
      case SettleStep(_, _) =>
      case ReleaseUnsignedStep(id) => assert ReleaseUnsigned(l, id).refunds == l.refunds;
      case ReleaseStep(_, _) =>
      case ResetStep(_) =>
      case EvidenceStep(id, original, finding) => assert RecordEvidence(l, id, original, finding).refunds == l.refunds;
    }
  }
}
