/** The payment tables as mutable state, and the code that changes them, each method proved to be
    its transaction of PaymentLedger. */
module PaymentStore {
  import opened Sums
  import opened PaymentLedger

  /** What SQLite's foreign keys guarantee of recovery rows. */
  predicate ForeignKeys(recovery: map<OperationId, Recovery>, operations: map<OperationId, Operation>) {
    forall id | id in recovery ::
      id in operations && (recovery[id].next.Some? ==> recovery[id].next.value in operations)
  }

  /** One key fewer left to visit. */
  lemma OneMore<K, V>(m: map<K, V>, rest: set<K>, id: K)
    requires id in rest
    ensures m - (rest - {id}) == if id in m then (m - rest)[id := m[id]] else m - rest
  {
  }

  class Store {
    const configured: nat
    var period: nat
    var authorizedCap: Option<nat>
    var exhausted: bool
    ghost var caps: seq<nat>
    var payments: map<PaymentId, Payment>
    var refunds: map<PaymentId, Refund>
    var evidence: map<PaymentId, Reason>
    var operations: map<OperationId, Operation>
    var recovery: map<OperationId, Recovery>

    ghost function Rows(): Ledger
      reads this
    {
      Ledger(configured, period, authorizedCap, exhausted, caps, payments, refunds, evidence, operations, recovery)
    }

    constructor (configured: nat)
      ensures Rows() == Opening(configured)
    {
      this.configured := configured;
      period, authorizedCap, exhausted, caps := 1, None, false, [configured];
      payments, refunds, evidence, operations, recovery := map[], map[], map[], map[], map[];
    }

    method CurrentCap() returns (cap: nat)
      ensures cap == Cap(Rows())
    {
      cap := configured;
      if authorizedCap.Some? {
        cap := authorizedCap.value;
      }
    }

    /** Payments of a period that are not released, less the confirmed refunds of settled ones. */
    method SpentIn(k: nat) returns (spent: nat)
      ensures spent == Spent(Rows(), k)
    {
      var counted := SumCounted(k);
      var credited := SumRefunded(k);
      spent := 0;
      if counted > credited {
        spent := counted - credited;
      }
    }

    method SumCounted(k: nat) returns (sum: int)
      ensures sum == Tally(Counted(Rows(), k))
    {
      sum := 0;
      var rest := payments.Keys;
      ghost var column, seen := Counted(Rows(), k), map[];
      while rest != {}
        invariant rest <= payments.Keys
        invariant seen == map id | id in payments && id !in rest :: column[id]
        invariant sum == Tally(seen)
      {
        var id :| id in rest;
        if payments[id].period == k && !payments[id].state.Released? {
          sum := sum + payments[id].amount;
        }
        TallySet(seen, id, column[id]);
        seen, rest := seen[id := column[id]], rest - {id};
      }
      assert seen == column;
    }

    method SumRefunded(k: nat) returns (sum: int)
      ensures sum == Tally(Refunded(Rows(), k))
    {
      sum := 0;
      var rest := payments.Keys;
      ghost var column, seen := Refunded(Rows(), k), map[];
      while rest != {}
        invariant rest <= payments.Keys
        invariant seen == map id | id in payments && id !in rest :: column[id]
        invariant sum == Tally(seen)
      {
        var id :| id in rest;
        if payments[id].period == k && payments[id].state.Settled? && id in refunds && refunds[id].state.Confirmed? {
          sum := sum + refunds[id].amount;
        }
        TallySet(seen, id, column[id]);
        seen, rest := seen[id := column[id]], rest - {id};
      }
      assert seen == column;
    }

    /** The rows of an operation that are not released. */
    method Unresolved(operation: OperationId) returns (ids: set<PaymentId>)
      ensures ids == set id | id in payments && LiveFor(payments[id], operation)
    {
      ids := {};
      var rest := payments.Keys;
      while rest != {}
        invariant rest <= payments.Keys
        invariant ids == set id | id in payments && id !in rest && LiveFor(payments[id], operation)
      {
        var id :| id in rest;
        if payments[id].operation == Some(operation) && !payments[id].state.Released? {
          ids := ids + {id};
        }
        rest := rest - {id};
      }
    }

    method RequireUnsigned(operation: OperationId) returns (uncertain: bool)
      ensures !uncertain <==> Unsigned(Rows(), operation)
    {
      var ids := Unresolved(operation);
      uncertain := operation !in operations || !operations[operation].state.Pending? || ids != {};
      if operation in operations && ids != {} {
        var id :| id in ids;
        assert LiveFor(payments[id], operation);
      } else if operation in operations {
        assert forall id | id in payments && LiveFor(payments[id], operation) :: id in ids;
      }
    }

    method CheckBeforePayment() returns (allowed: bool)
      ensures allowed == PaymentAllowed(Rows())
    {
      var cap := CurrentCap();
      var spent := SpentIn(period);
      allowed := !(exhausted || cap <= spent);
    }

    /** The budget gate; `id` is new. A payment that reaches the cap latches, a payment that would
        pass it is refused without latching. */
    method Reserve(id: PaymentId, amount: int, operation: Option<OperationId>, network: string)
      returns (refused: Option<ReserveError>)
      requires id !in payments
      modifies this`payments, this`exhausted
      ensures refused == ReserveRefusal(old(Rows()), amount, operation)
      ensures Rows() == PaymentLedger.Reserve(old(Rows()), id, amount, operation, network)
    {
      if amount < 0 || amount > MAX_STORABLE {
        return Some(Unreadable);
      }
      if operation.Some? {
        var uncertain := RequireUnsigned(operation.value);
        if uncertain {
          return Some(OperationUncertain);
        }
      }
      var cap := CurrentCap();
      var spent := SpentIn(period);
      if exhausted {
        return Some(BudgetSpent);
      }
      if spent + amount > cap {
        return Some(WouldExceed);
      }
      payments := payments[id := Payment(period, Authorized, amount, operation, None, None, network)];
      if spent + amount >= cap && spent + amount > 0 {
        exhausted := true;
      }
      refused := None;
    }

    method Settle(ids: seq<PaymentId>, transaction: string)
      modifies this`payments
      ensures Rows() == PaymentLedger.Settle(old(Rows()), ids, transaction)
    {
      if ids == [] {
        return;
      }
      var id := ids[|ids| - 1];
      if id in payments && payments[id].state.Authorized? {
        payments := payments[id := payments[id].(state := Settled, transaction := Some(transaction))];
      }
    }

    method ReleaseUnsigned(id: PaymentId)
      modifies this`payments, this`exhausted
      ensures Rows() == PaymentLedger.ReleaseUnsigned(old(Rows()), id)
    {
      if id !in payments || !payments[id].state.Authorized? {
        return;
      }
      var current, amount := payments[id].period == period, payments[id].amount;
      var cap := CurrentCap();
      var before := SpentIn(period);
      payments := payments[id := payments[id].(state := Released, reason := Some(SignatureRefused))];
      var after := SpentIn(period);
      assert Rows() == WithReleased(old(Rows()), id, SignatureRefused);
      if current && exhausted && amount > 0 && before >= cap && after < cap {
        exhausted := false;
      }
    }

    method Release(ids: set<PaymentId>, reason: string)
      modifies this`payments
      ensures Rows() == PaymentLedger.Release(old(Rows()), ids, reason)
    {
      var rest := ids;
      while rest != {}
        modifies this`payments
        invariant rest <= ids
        invariant payments == map id | id in old(payments) ::
                    if id in ids && id !in rest then ReleaseRow(old(payments)[id], reason) else old(payments)[id]
      {
        var id :| id in rest;
        if id in payments && payments[id].state.Authorized? {
          payments := payments[id := payments[id].(state := Released, reason := Some(Stated(reason)))];
        }
        rest := rest - {id};
      }
    }

    method Reset(cap: Option<nat>)
      modifies this`period, this`exhausted, this`authorizedCap, this`caps
      ensures Rows() == PaymentLedger.Reset(old(Rows()), cap)
    {
      period, exhausted := period + 1, false;
      if cap.Some? {
        authorizedCap := cap;
      }
      caps := caps + [Cap(Rows())];
    }

    /** Close a pending operation that has no unresolved payment. */
    method CloseReleased(operation: Option<OperationId>)
      modifies this`operations
      ensures operations == CloseIfReleased(old(Rows()), operation)
    {
      if operation.Some? && operation.value in operations && operations[operation.value].state.Pending? {
        var ids := Unresolved(operation.value);
        if ids == {} {
          assert forall id | id in payments && LiveFor(payments[id], operation.value) :: id in ids;
          operations := operations[operation.value := operations[operation.value].(state := UnsignedFailed)];
        } else {
          var id :| id in ids;
          assert LiveFor(payments[id], operation.value);
        }
      }
    }

    method ClearIfBelow(of: nat)
      modifies this`exhausted
      ensures exhausted == (old(exhausted) && !(of == period && Spent(old(Rows()), period) < Cap(old(Rows()))))
    {
      var cap := CurrentCap();
      var spent := SpentIn(period);
      if of == period && exhausted && spent < cap {
        exhausted := false;
      }
    }

    /** Evidence is applied only to the very row it was gathered for. */
    method RecordEvidence(id: PaymentId, original: Payment, finding: Finding) returns (recorded: bool)
      requires Recordable(finding)
      modifies this`payments, this`evidence, this`exhausted, this`operations
      ensures recorded == EvidenceApplies(old(Rows()), id, original)
      ensures Rows() == PaymentLedger.RecordEvidence(old(Rows()), id, original, finding)
    {
      recorded := original.state.Authorized? && id in payments && payments[id] == original && id !in evidence;
      if !recorded {
        return;
      }
      match finding
      case FoundSettled(transaction) =>
        evidence := evidence[id := SETTLED_MARK];
        payments := payments[id := original.(state := Settled, transaction := Some(transaction), reason := None)];
      case FoundUnpaid(reason) =>
        evidence := evidence[id := reason];
        payments := payments[id := original.(state := Released, transaction := None, reason := Some(reason))];
        ghost var after := Rows();
        ClearIfBelow(original.period);
        CloseReleased(original.operation);
        assert operations == CloseIfReleased(after, original.operation);
    }

    method ConfirmRefund(id: PaymentId, original: Payment, transaction: string) returns (confirmed: bool)
      modifies this`refunds, this`exhausted
      ensures confirmed == RefundApplies(old(Rows()), id, original, transaction)
      ensures Rows() == PaymentLedger.ConfirmRefund(old(Rows()), id, original, transaction)
    {
      confirmed := RefundAllowed(id, original, transaction);
      if confirmed {
        refunds := refunds[id := refunds[id].(state := Confirmed, transaction := Some(transaction))];
        ClearIfBelow(original.period);
      }
    }

    method ReviewRefund(id: PaymentId)
      modifies this`refunds
      ensures Rows() == PaymentLedger.ReviewRefund(old(Rows()), id)
    {
      if id in refunds && !refunds[id].state.Confirmed? {
        refunds := refunds[id := refunds[id].(state := Review)];
      }
    }

    /** The snapshot check, the state guard of the UPDATE, and the unique index on transfers. */
    method RefundAllowed(id: PaymentId, original: Payment, transaction: string) returns (allowed: bool)
      ensures allowed == RefundApplies(Rows(), id, original, transaction)
    {
      if id !in payments || payments[id] != original || !original.state.Settled? || id !in refunds
         || refunds[id].state.Confirmed? {
        return false;
      }
      var rest := refunds.Keys;
      while rest != {}
        invariant rest <= refunds.Keys
        invariant forall j | j in refunds && j != id && j !in rest ::
                    !(refunds[j].network == refunds[id].network && refunds[j].transaction == Some(transaction))
      {
        var j :| j in rest;
        if j != id && refunds[j].network == refunds[id].network && refunds[j].transaction == Some(transaction) {
          return false;
        }
        rest := rest - {j};
      }
      return true;
    }

    method SaveHeaders(operation: OperationId) returns (saved: bool)
      modifies this`operations
      ensures Rows() == PaymentLedger.SaveHeaders(old(Rows()), operation)
      ensures saved <==> Rows() != old(Rows())
    {
      saved := operation in operations && operations[operation].state.Pending? && !operations[operation].headers;
      if saved {
        operations := operations[operation := operations[operation].(headers := true)];
        assert operations[operation] != old(operations)[operation];
      }
    }

    method Complete(operation: OperationId, failed: bool)
      modifies this`operations, this`refunds
      ensures Rows() == CompleteOperation(old(Rows()), operation, failed)
    {
      if operation in operations {
        if failed && operations[operation].headers {
          WatchSettled(operation);
        }
        if operations[operation].state.Pending? {
          operations :=
            operations[operation := operations[operation].(state := OperationState.Complete, headers := false)];
        }
      }
    }

    /** INSERT OR IGNORE one watched refund for every positive settled payment. */
    method WatchSettled(operation: OperationId)
      modifies this`refunds
      ensures refunds == old(refunds) + Watch(old(Rows()), operation)
    {
      var rest := payments.Keys;
      ghost var known, watched := refunds, Watch(Rows(), operation);
      while rest != {}
        modifies this`refunds
        invariant rest <= payments.Keys
        invariant refunds == known + (watched - rest)
      {
        var id :| id in rest;
        var p := payments[id];
        OneMore(watched, rest, id);
        if p.operation == Some(operation) && p.state.Settled? && p.amount > 0 && id !in refunds {
          refunds := refunds[id := Refund(Watched, p.amount, p.network, None)];
        }
        rest := rest - {id};
      }
    }

    method Abandon(operation: OperationId)
      modifies this`operations
      ensures Rows() == PaymentLedger.Abandon(old(Rows()), operation)
    {
      if operation in operations && !operations[operation].headers {
        CloseReleased(Some(operation));
      }
    }

    /** The identity an attempt is sent with: the action its chain started with. */
    method IdentityHeaders(operation: OperationId) returns (action: Option<OperationId>)
      modifies this`recovery
      ensures Rows() == Identify(old(Rows()), operation)
      ensures action == if operation in recovery then Some(recovery[operation].action) else None
    {
      if operation in operations && (operation !in recovery || !recovery[operation].token) {
        if operation in recovery {
          recovery := recovery[operation := recovery[operation].(token := true)];
        } else {
          recovery := recovery[operation := Recovery(operation, true, false, None)];
        }
      }
      action := None;
      if operation in recovery {
        action := Some(recovery[operation].action);
      }
    }

    method RecordReplacementPermission(operation: OperationId)
      modifies this`recovery
      ensures Rows() == AllowReplacement(old(Rows()), operation)
    {
      var _ := IdentityHeaders(operation);
      if operation in recovery {
        recovery := recovery[operation := recovery[operation].(mayReplace := true)];
      }
    }

    /** The first transaction of `begin`: the newest operation known to replace the named one. */
    method Newest(named: OperationId) returns (newest: Option<OperationId>)
      ensures newest == Walk(recovery, named, HISTORY_LIMIT)
    {
      var id, tries := named, 0;
      while tries < HISTORY_LIMIT
        invariant 0 <= tries <= HISTORY_LIMIT
        invariant Walk(recovery, named, HISTORY_LIMIT) == Walk(recovery, id, HISTORY_LIMIT - tries)
      {
        if id !in recovery || recovery[id].next.None? {
          return Some(id);
        }
        id, tries := recovery[id].next.value, tries + 1;
      }
      return None;
    }

    method AnyPayment(operation: OperationId) returns (any: bool)
      ensures any == HasPayment(Rows(), operation)
    {
      var rest := payments.Keys;
      while rest != {}
        invariant rest <= payments.Keys
        invariant forall id | id in payments && id !in rest :: payments[id].operation != Some(operation)
      {
        var id :| id in rest;
        if payments[id].operation == Some(operation) {
          return true;
        }
        rest := rest - {id};
      }
      return false;
    }

    /** Every payment of the operation is released, unspent, and matched by recorded evidence. */
    method ProvenUnpaidNow(operation: OperationId) returns (proven: bool)
      ensures proven == ProvenUnpaid(Rows(), operation)
    {
      if operation !in operations || !operations[operation].state.UnsignedFailed? {
        return false;
      }
      var any := AnyPayment(operation);
      if !any {
        return false;
      }
      var rest := payments.Keys;
      while rest != {}
        invariant rest <= payments.Keys
        invariant forall id | id in payments && id !in rest && payments[id].operation == Some(operation) ::
                    PaymentProvenUnpaid(Rows(), id)
      {
        var id :| id in rest;
        var p := payments[id];
        if p.operation == Some(operation) {
          var matched := p.reason.Some? && id in evidence && evidence[id] == p.reason.value;
          if !p.state.Released? || p.transaction.Some? || !matched
             || !(p.reason.value.ExpiredUnused? || p.reason.value.Cancelled?) {
            return false;
          }
        }
        rest := rest - {id};
      }
      return true;
    }

    /** The oldest pending operation of the same request. */
    method Twin(fingerprint: string) returns (twin: Option<OperationId>)
      ensures TwinFound(Rows(), fingerprint, twin)
    {
      twin := None;
      var rest := operations.Keys;
      while rest != {}
        invariant rest <= operations.Keys
        invariant twin.Some? ==> PendingTwin(Rows(), twin.value, fingerprint)
        invariant forall j | j in operations && j !in rest && PendingTwin(Rows(), j, fingerprint) ::
                    twin.Some? && operations[twin.value].serial <= operations[j].serial
      {
        var id :| id in rest;
        var o := operations[id];
        if o.fingerprint == fingerprint && o.state.Pending? {
          if twin.None? || o.serial < operations[twin.value].serial {
            twin := Some(id);
          }
        }
        rest := rest - {id};
      }
    }

    /** The deciding transaction of `begin`; `minted` is a new identity. Only a call without
        identity looks for a pending operation of the same request. */
    method Begin(fingerprint: string, named: Option<OperationId>, minted: OperationId)
      returns (begun: Begun, ghost twin: Option<OperationId>)
      requires ForeignKeys(recovery, operations)
      modifies this`operations, this`recovery
      ensures named.None? ==> TwinFound(old(Rows()), fingerprint, twin)
      ensures (begun, Rows()) == PaymentLedger.Begin(old(Rows()), fingerprint, named, twin, minted)
    {
      twin := None;
      if named.Some? && named.value in operations {
        var row, tries := named.value, 0;
        while tries < HISTORY_LIMIT && row in recovery && recovery[row].next.Some?
          invariant 0 <= tries <= HISTORY_LIMIT && row in operations
          invariant Walk(recovery, named.value, HISTORY_LIMIT) == Walk(recovery, row, HISTORY_LIMIT - tries)
          decreases HISTORY_LIMIT - tries
        {
          row, tries := recovery[row].next.value, tries + 1;
        }
        if tries == HISTORY_LIMIT {
          begun := Refused(HistoryLimit);
          return;
        }
        begun := BeginAtRow(row, fingerprint, minted);
        return;
      }
      if named.None? {
        var found := Twin(fingerprint);
        twin := found;
        if found.Some? {
          begun := Existing(found.value);
          return;
        }
      }
      var id := if named.Some? then named.value else minted;
      operations := operations[id := Operation(fingerprint, Pending, false, |operations|)];
      begun := Owner(id);
    }

    method BeginAtRow(row: OperationId, fingerprint: string, minted: OperationId) returns (begun: Begun)
      requires row in operations
      modifies this`operations, this`recovery
      ensures (begun, Rows()) == BeginAt(old(Rows()), row, fingerprint, minted)
    {
      var o := operations[row];
      if o.fingerprint != fingerprint {
        return Refused(IdentityReused);
      }
      if !o.state.UnsignedFailed? {
        return Existing(row);
      }
      var attempted := AnyPayment(row);
      if !attempted {
        operations := operations[row := o.(state := Pending)];
        return Owner(row);
      }
      var proven := ProvenUnpaidNow(row);
      if !proven {
        return Refused(AttemptClosed);
      }
      if row in recovery && recovery[row].mayReplace {
        var r := recovery[row];
        operations := operations[minted := Operation(fingerprint, Pending, false, |operations|)];
        recovery := recovery[minted := Recovery(r.action, r.token, false, None)];
        recovery := recovery[row := r.(next := Some(minted))];
        return Owner(minted);
      }
      if !o.headers {
        return Refused(ProofMissing);
      }
      return Existing(row);
    }
  }
}
