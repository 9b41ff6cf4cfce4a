/** The x402 budget, its payments and refunds, and the paid operations they belong to. Each
    function from ledger to ledger is one `BEGIN IMMEDIATE` transaction. */
module PaymentLedger {
  import opened Sums

  type PaymentId = string
  type OperationId = string

  const MAX_STORABLE: int := 0x7FFF_FFFF_FFFF_FFFF

  const HISTORY_LIMIT: nat := 64

  datatype PaymentState = Authorized | Settled | Released

  datatype Reason = SignatureRefused | ExpiredUnused | Cancelled | Unspendable | Stated(reason: string)

  datatype Payment = Payment(period: nat, state: PaymentState, amount: nat, operation: Option<OperationId>,
                             transaction: Option<string>, reason: Option<Reason>, network: string)

  datatype RefundState = Watched | Review | Confirmed

  datatype Refund = Refund(state: RefundState, amount: nat, network: string, transaction: Option<string>)

  datatype OperationState = Pending | Complete | UnsignedFailed

  /** `serial` is the row's place in the table: a later row has a greater one. */
  datatype Operation = Operation(fingerprint: string, state: OperationState, headers: bool, serial: nat)

  datatype Recovery = Recovery(action: OperationId, token: bool, mayReplace: bool, next: Option<OperationId>)

  /** `caps` remembers the cap of every period opened so far. The program keeps only the
      current one; the earlier ones are history for stating whole-run bounds. */
  datatype Ledger = Ledger(configured: nat, period: nat, authorizedCap: Option<nat>, exhausted: bool, caps: seq<nat>,
                           payments: map<PaymentId, Payment>, refunds: map<PaymentId, Refund>,
                           evidence: map<PaymentId, Reason>,
                           operations: map<OperationId, Operation>, recovery: map<OperationId, Recovery>)

  // ---------------------------------------------------------------- totals

  function Cap(l: Ledger): nat {
    if l.authorizedCap.Some? then l.authorizedCap.value else l.configured
  }

  predicate Counting(p: Payment) {
    !p.state.Released?
  }

  ghost function Counted(l: Ledger, period: nat): map<PaymentId, int> {
    map id | id in l.payments ::
      if l.payments[id].period == period && Counting(l.payments[id]) then l.payments[id].amount else 0
  }

  /** A refund row joins the one payment it is keyed by. */
  ghost function Refunded(l: Ledger, period: nat): map<PaymentId, int> {
    map id | id in l.payments ::
      if l.payments[id].period == period && l.payments[id].state.Settled? && id in l.refunds
         && l.refunds[id].state.Confirmed?
      then l.refunds[id].amount else 0
  }

  /** Committed spend of a period, clamped at zero as the program reports it. */
  ghost function Spent(l: Ledger, period: nat): nat {
    var net := Tally(Counted(l, period)) - Tally(Refunded(l, period));
    if net < 0 then 0 else net
  }

  // ---------------------------------------------------------------- the budget gate

  /** The payments of an operation that may still cost, or did cost, money. */
  predicate LiveFor(p: Payment, operation: OperationId) {
    p.operation == Some(operation) && Counting(p)
  }

  predicate Unsigned(l: Ledger, operation: OperationId) {
    && operation in l.operations && l.operations[operation].state.Pending?
    && forall id | id in l.payments :: !LiveFor(l.payments[id], operation)
  }

  datatype ReserveError = Unreadable | OperationUncertain | BudgetSpent | WouldExceed

  ghost function ReserveRefusal(l: Ledger, amount: int, operation: Option<OperationId>): Option<ReserveError> {
    if amount < 0 || amount > MAX_STORABLE then Some(Unreadable)
    else if operation.Some? && !Unsigned(l, operation.value) then Some(OperationUncertain)
    else if l.exhausted then Some(BudgetSpent)
    else if Spent(l, l.period) + amount > Cap(l) then Some(WouldExceed)
    else None
  }

  ghost function Reserve(l: Ledger, id: PaymentId, amount: int, operation: Option<OperationId>,
                         network: string): Ledger {
    if id in l.payments || ReserveRefusal(l, amount, operation).Some? then l
    else
      var spentAfter := Spent(l, l.period) + amount;
      l.(payments := l.payments[id := Payment(l.period, Authorized, amount, operation, None, None, network)],
         exhausted := spentAfter >= Cap(l) && spentAfter > 0)
  }

  /** Only the last identifier of the list is settled. */
  function Settle(l: Ledger, ids: seq<PaymentId>, transaction: string): Ledger {
    if ids == [] || ids[|ids| - 1] !in l.payments || !l.payments[ids[|ids| - 1]].state.Authorized? then l
    else
      var id := ids[|ids| - 1];
      l.(payments := l.payments[id := l.payments[id].(state := Settled, transaction := Some(transaction))])
  }

  function WithReleased(l: Ledger, id: PaymentId, reason: Reason): Ledger
    requires id in l.payments
  {
    l.(payments := l.payments[id := l.payments[id].(state := Released, reason := Some(reason))])
  }

  ghost function ReleaseUnsigned(l: Ledger, id: PaymentId): Ledger {
    if id !in l.payments || !l.payments[id].state.Authorized? then l
    else
      var after := WithReleased(l, id, SignatureRefused);
      var clears := l.payments[id].period == l.period && l.exhausted && l.payments[id].amount > 0
                    && Spent(l, l.period) >= Cap(l) && Spent(after, l.period) < Cap(l);
      after.(exhausted := l.exhausted && !clears)
  }

  function ReleaseRow(p: Payment, reason: string): Payment {
    if p.state.Authorized? then p.(state := Released, reason := Some(Stated(reason))) else p
  }

  function Release(l: Ledger, ids: set<PaymentId>, reason: string): Ledger {
    l.(payments := map id | id in l.payments ::
                     if id in ids then ReleaseRow(l.payments[id], reason) else l.payments[id])
  }

  function Reset(l: Ledger, cap: Option<nat>): Ledger {
    var authorized := if cap.Some? then cap else l.authorizedCap;
    var l' := l.(period := l.period + 1, exhausted := false, authorizedCap := authorized);
    l'.(caps := l.caps + [Cap(l')])
  }

  ghost predicate PaymentAllowed(l: Ledger) {
    !l.exhausted && Cap(l) - Spent(l, l.period) > 0
  }

  // ---------------------------------------------------------------- reconciliation and refunds

  datatype Finding = FoundSettled(transaction: string) | FoundUnpaid(reason: Reason)

  /** Evidence applies only to the exact row it was gathered for. */
  predicate EvidenceApplies(l: Ledger, id: PaymentId, original: Payment) {
    id in l.payments && l.payments[id] == original && original.state.Authorized? && id !in l.evidence
  }

  /** The chain outcomes and the local proof the reconciler can record. */
  predicate Recordable(finding: Finding) {
    finding.FoundUnpaid? ==> finding.reason.ExpiredUnused? || finding.reason.Cancelled? || finding.reason.Unspendable?
  }

  function CloseIfReleased(l: Ledger, operation: Option<OperationId>): map<OperationId, Operation> {
    if operation.Some? && operation.value in l.operations && l.operations[operation.value].state.Pending?
       && (forall id | id in l.payments :: !LiveFor(l.payments[id], operation.value))
    then l.operations[operation.value := l.operations[operation.value].(state := UnsignedFailed)]
    else l.operations
  }

  const SETTLED_MARK: Reason := Stated("settled_at_finalized_block")

  ghost function RecordEvidence(l: Ledger, id: PaymentId, original: Payment, finding: Finding): Ledger {
    if !EvidenceApplies(l, id, original) || !Recordable(finding) then l
    else if finding.FoundSettled? then
      l.(payments := l.payments[id := original.(state := Settled, transaction := Some(finding.transaction),
                                                reason := None)],
         evidence := l.evidence[id := SETTLED_MARK])
    else
      var released := original.(state := Released, transaction := None, reason := Some(finding.reason));
      var after := l.(payments := l.payments[id := released],
                      evidence := l.evidence[id := finding.reason]);
      var clears := original.period == l.period && l.exhausted && Spent(after, l.period) < Cap(l);
      after.(exhausted := l.exhausted && !clears, operations := CloseIfReleased(after, original.operation))
  }

  /** A confirmed credit names its transfer, and no other credit on the network names it. */
  predicate RefundApplies(l: Ledger, id: PaymentId, original: Payment, transaction: string) {
    && id in l.payments && l.payments[id] == original && original.state.Settled?
    && id in l.refunds && !l.refunds[id].state.Confirmed?
    && forall j | j in l.refunds && j != id ::
         !(l.refunds[j].network == l.refunds[id].network && l.refunds[j].transaction == Some(transaction))
  }

  ghost function ConfirmRefund(l: Ledger, id: PaymentId, original: Payment, transaction: string): Ledger {
    if !RefundApplies(l, id, original, transaction) then l
    else
      var after := l.(refunds := l.refunds[id := l.refunds[id].(state := Confirmed, transaction := Some(transaction))]);
      var clears := original.period == l.period && l.exhausted && Spent(after, l.period) < Cap(l);
      after.(exhausted := l.exhausted && !clears)
  }

  function ReviewRefund(l: Ledger, id: PaymentId): Ledger {
    if id in l.refunds && !l.refunds[id].state.Confirmed?
    then l.(refunds := l.refunds[id := l.refunds[id].(state := Review)]) else l
  }

  // ---------------------------------------------------------------- operations

  function Watch(l: Ledger, operation: OperationId): map<PaymentId, Refund> {
    map id | id in l.payments && l.payments[id].operation == Some(operation) && l.payments[id].state.Settled?
             && l.payments[id].amount > 0 && id !in l.refunds
      :: Refund(Watched, l.payments[id].amount, l.payments[id].network, None)
  }

  function CompleteOperation(l: Ledger, operation: OperationId, failed: bool): Ledger {
    if operation !in l.operations then l
    else
      var o := l.operations[operation];
      var refunds := if failed && o.headers then l.refunds + Watch(l, operation) else l.refunds;
      l.(refunds := refunds, operations := l.operations[operation := Completed(o)])
  }

  function Completed(o: Operation): Operation {
    if o.state.Pending? then o.(state := Complete, headers := false) else o
  }

  function SaveHeaders(l: Ledger, operation: OperationId): Ledger {
    if operation in l.operations && l.operations[operation].state.Pending? && !l.operations[operation].headers
    then l.(operations := l.operations[operation := l.operations[operation].(headers := true)]) else l
  }

  function Abandon(l: Ledger, operation: OperationId): Ledger {
    if operation in l.operations && !l.operations[operation].headers
    then l.(operations := CloseIfReleased(l, Some(operation))) else l
  }

  /** A recovery row starts an action under the operation's own identity; a later call only
      fills in a missing token. */
  function Identify(l: Ledger, operation: OperationId): Ledger {
    if operation in l.operations then l.(recovery := Identified(l.recovery, operation)) else l
  }

  function Identified(recovery: map<OperationId, Recovery>, id: OperationId): map<OperationId, Recovery> {
    if id !in recovery then recovery[id := Recovery(id, true, false, None)]
    else if recovery[id].token then recovery
    else recovery[id := recovery[id].(token := true)]
  }

  function AllowReplacement(l: Ledger, operation: OperationId): Ledger {
    var l' := Identify(l, operation);
    if operation in l'.recovery
    then l'.(recovery := l'.recovery[operation := l'.recovery[operation].(mayReplace := true)]) else l'
  }

  predicate PaymentProvenUnpaid(l: Ledger, id: PaymentId)
    requires id in l.payments
  {
    var p := l.payments[id];
    && p.state.Released? && p.transaction.None? && p.reason.Some?
    && id in l.evidence && l.evidence[id] == p.reason.value
    && (p.reason.value.ExpiredUnused? || p.reason.value.Cancelled?)
  }

  predicate HasPayment(l: Ledger, operation: OperationId) {
    exists id :: id in l.payments && l.payments[id].operation == Some(operation)
  }

  predicate ProvenUnpaid(l: Ledger, operation: OperationId) {
    && operation in l.operations && l.operations[operation].state.UnsignedFailed? && HasPayment(l, operation)
    && forall id | id in l.payments && l.payments[id].operation == Some(operation) :: PaymentProvenUnpaid(l, id)
  }

  predicate Linked(recovery: map<OperationId, Recovery>, id: OperationId) {
    id in recovery && recovery[id].next.Some?
  }

  /** Follow replacement links for at most `tries` looks; none when every look found another. */
  function Walk(recovery: map<OperationId, Recovery>, id: OperationId, tries: nat): Option<OperationId>
    decreases tries
  {
    if tries == 0 then None
    else if Linked(recovery, id) then Walk(recovery, recovery[id].next.value, tries - 1)
    else Some(id)
  }

  datatype BeginError = HistoryLimit | IdentityReused | AttemptClosed | ProofMissing | DanglingLink

  datatype Begun =
    | Owner(operation: OperationId)     // the caller may pay
    | Existing(operation: OperationId)  // the caller may only read or recover
    | Refused(error: BeginError)

  function NewOperation(l: Ledger, fingerprint: string): Operation {
    Operation(fingerprint, Pending, false, |l.operations|)
  }

  function Created(l: Ledger, id: OperationId, fingerprint: string): Ledger {
    l.(operations := l.operations[id := NewOperation(l, fingerprint)])
  }

  function Replaced(l: Ledger, prior: OperationId, minted: OperationId, fingerprint: string): Ledger
    requires prior in l.recovery
  {
    var r := l.recovery[prior];
    Created(l, minted, fingerprint).(recovery :=
      l.recovery[minted := Recovery(r.action, r.token, false, None)][prior := r.(next := Some(minted))])
  }

  /** What `begin` does once it stands on the last operation of a chain. */
  function BeginAt(l: Ledger, tail: OperationId, fingerprint: string, minted: OperationId): (Begun, Ledger)
    requires tail in l.operations
  {
    var o := l.operations[tail];
    if o.fingerprint != fingerprint then (Refused(IdentityReused), l)
    else if !o.state.UnsignedFailed? then (Existing(tail), l)
    else if !HasPayment(l, tail) then (Owner(tail), l.(operations := l.operations[tail := o.(state := Pending)]))
    else if !ProvenUnpaid(l, tail) then (Refused(AttemptClosed), l)
    else if tail in l.recovery && l.recovery[tail].mayReplace
    then (Owner(minted), Replaced(l, tail, minted, fingerprint))
    else if !o.headers then (Refused(ProofMissing), l)
    else (Existing(tail), l)
  }

  predicate PendingTwin(l: Ledger, id: OperationId, fingerprint: string) {
    id in l.operations && l.operations[id].fingerprint == fingerprint && l.operations[id].state.Pending?
  }

  /** The oldest pending operation with the same fingerprint. */
  predicate OldestTwin(l: Ledger, id: OperationId, fingerprint: string) {
    && PendingTwin(l, id, fingerprint)
    && forall j | j in l.operations && PendingTwin(l, j, fingerprint) ::
         l.operations[id].serial <= l.operations[j].serial
  }

  /** What the search for a pending operation with the same fingerprint answers. */
  predicate TwinFound(l: Ledger, fingerprint: string, twin: Option<OperationId>) {
    if twin.Some? then OldestTwin(l, twin.value, fingerprint)
    else forall j | j in l.operations :: !PendingTwin(l, j, fingerprint)
  }

  /** The transaction of `begin`: `minted` is a new identity, and `twin` what a call without
      identity finds of the same request. */
  function Begin(l: Ledger, fingerprint: string, named: Option<OperationId>, twin: Option<OperationId>,
                 minted: OperationId): (Begun, Ledger) {
    if named.Some? && named.value in l.operations then
      var tail := Walk(l.recovery, named.value, HISTORY_LIMIT);
      if tail.None? then (Refused(HistoryLimit), l)
      else if tail.value in l.operations then BeginAt(l, tail.value, fingerprint, minted)
      else (Refused(DanglingLink), l)
    else if named.None? && twin.Some? then (Existing(twin.value), l)
    else
      var id := if named.Some? then named.value else minted;
      (Owner(id), Created(l, id, fingerprint))
  }

  // ---------------------------------------------------------------- runs

  datatype Step =
    | ReserveStep(id: PaymentId, amount: int, operation: Option<OperationId>, network: string)
    | SettleStep(ids: seq<PaymentId>, transaction: string)
    | ReleaseUnsignedStep(id: PaymentId)
    | ReleaseStep(rows: set<PaymentId>, reason: string)
    | ResetStep(cap: Option<nat>)
    | EvidenceStep(id: PaymentId, original: Payment, finding: Finding)
    | RefundStep(id: PaymentId, original: Payment, transaction: string)
    | ReviewStep(id: PaymentId)
    | CompleteStep(op: OperationId, failed: bool)
    | HeadersStep(op: OperationId)
    | AbandonStep(op: OperationId)
    | IdentifyStep(op: OperationId)
    | AllowStep(op: OperationId)
    | BeginStep(fingerprint: string, named: Option<OperationId>, twin: Option<OperationId>, minted: OperationId)

  ghost function Next(l: Ledger, step: Step): Ledger {
    match step
    case ReserveStep(id, amount, operation, network) => Reserve(l, id, amount, operation, network)
    case SettleStep(ids, transaction) => Settle(l, ids, transaction)
    case ReleaseUnsignedStep(id) => ReleaseUnsigned(l, id)
    case ReleaseStep(rows, reason) => Release(l, rows, reason)
    case ResetStep(cap) => Reset(l, cap)
    case EvidenceStep(id, original, finding) => RecordEvidence(l, id, original, finding)
    case RefundStep(id, original, transaction) => ConfirmRefund(l, id, original, transaction)
    case ReviewStep(id) => ReviewRefund(l, id)
    case CompleteStep(op, failed) => CompleteOperation(l, op, failed)
    case HeadersStep(op) => SaveHeaders(l, op)
    case AbandonStep(op) => Abandon(l, op)
    case IdentifyStep(op) => Identify(l, op)
    case AllowStep(op) => AllowReplacement(l, op)
    case BeginStep(fingerprint, named, twin, minted) =>
      if minted in l.operations || (named.None? && !TwinFound(l, fingerprint, twin)) then l
      else Begin(l, fingerprint, named, twin, minted).1
  }

  ghost function Run(l: Ledger, steps: seq<Step>): Ledger
    decreases |steps|
  {
    if steps == [] then l else Run(Next(l, steps[0]), steps[1..])
  }

  /** A newly installed agent with a fixed configured cap. */
  function Opening(configured: nat): Ledger {
    Ledger(configured, 1, None, false, [configured], map[], map[], map[], map[], map[])
  }
}
