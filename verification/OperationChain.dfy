/** Replacement operations form one line per action, and an action has at most one live payment. */
module OperationChain {
  import opened Sums
  import opened PaymentLedger

  /** The action an operation pays for; without a recovery row it is its own. */
  function ActionOf(recovery: map<OperationId, Recovery>, id: OperationId): OperationId {
    if id in recovery then recovery[id].action else id
  }

  /** A link leads from a closed, attempted operation to a later one of the same action and
      the same request. */
  predicate LinkSound(l: Ledger, id: OperationId) {
    Linked(l.recovery, id) ==>
      var n := l.recovery[id].next.value;
      && id in l.operations && n in l.operations && n in l.recovery
      && l.recovery[n].action == l.recovery[id].action
      && l.operations[n].fingerprint == l.operations[id].fingerprint
      && l.operations[id].serial < l.operations[n].serial
      && l.operations[id].state.UnsignedFailed? && HasPayment(l, id)
  }

  predicate RowsSound(l: Ledger) {
    && (forall p | p in l.payments && l.payments[p].operation.Some? :: l.payments[p].operation.value in l.operations)
    && (forall id | id in l.recovery :: id in l.operations && RootSound(l.recovery, id))
    && (forall id | id in l.operations :: l.operations[id].serial < |l.operations|)
  }

  /** An action is named after the operation that started it. */
  predicate RootSound(recovery: map<OperationId, Recovery>, id: OperationId)
    requires id in recovery
  {
    recovery[id].action in recovery && recovery[recovery[id].action].action == recovery[id].action
  }

  /** Of two operations of one action, at least one has been replaced. */
  predicate OneTail(l: Ledger) {
    forall i, j | i in l.operations && j in l.operations && i != j
                  && ActionOf(l.recovery, i) == ActionOf(l.recovery, j) ::
      Linked(l.recovery, i) || Linked(l.recovery, j)
  }

  /** No operation replaces two. */
  ghost predicate LinksInjective(recovery: map<OperationId, Recovery>) {
    forall i, j | Linked(recovery, i) && Linked(recovery, j) && recovery[i].next == recovery[j].next :: i == j
  }

  /** A closed operation has no live payment. */
  predicate ClosedIsDead(l: Ledger, id: OperationId)
    requires id in l.operations
  {
    l.operations[id].state.UnsignedFailed? ==> forall p | p in l.payments :: !LiveFor(l.payments[p], id)
  }

  /** An operation has at most one live payment. */
  predicate OneLive(payments: map<PaymentId, Payment>) {
    forall x, y | x in payments && y in payments && x != y
                  && payments[x].operation.Some? && payments[x].operation == payments[y].operation ::
      !(Counting(payments[x]) && Counting(payments[y]))
  }

  ghost predicate ChainSound(l: Ledger) {
    && RowsSound(l) && OneTail(l) && LinksInjective(l.recovery) && OneLive(l.payments)
    && LinksSound(l) && ClosedDead(l)
  }

  predicate ClosedDead(l: Ledger) {
    forall id | id in l.operations :: ClosedIsDead(l, id)
  }

  predicate LinksSound(l: Ledger) {
    forall id | id in l.recovery :: LinkSound(l, id)
  }

  // ---------------------------------------------------------------- what soundness means

  /** One action is never paid twice: of all payments of all operations in its chain, at most
      one is authorized or settled. */
  lemma OneLivePaymentPerAction(l: Ledger, x: PaymentId, y: PaymentId)
    requires ChainSound(l) && x in l.payments && y in l.payments && x != y
    requires l.payments[x].operation.Some? && l.payments[y].operation.Some?
    requires ActionOf(l.recovery, l.payments[x].operation.value) == ActionOf(l.recovery, l.payments[y].operation.value)
    ensures !(Counting(l.payments[x]) && Counting(l.payments[y]))
  {
    var i, j := l.payments[x].operation.value, l.payments[y].operation.value;
    if i != j {
      var replaced := if Linked(l.recovery, i) then i else j;
      assert Linked(l.recovery, replaced) && LinkSound(l, replaced) && ClosedIsDead(l, replaced);
    }
  }

  /** Following links from any operation ends, at an operation of the same action that has not
      been replaced. */
  lemma {:induction false} WalkEnds(l: Ledger, id: OperationId, tries: nat)
    requires RowsSound(l) && LinksSound(l) && id in l.operations && tries >= |l.operations| - l.operations[id].serial
    ensures var tail := Walk(l.recovery, id, tries);
            && tail.Some? && tail.value in l.operations && !Linked(l.recovery, tail.value)
            && ActionOf(l.recovery, tail.value) == ActionOf(l.recovery, id)
    decreases tries
  {
    if Linked(l.recovery, id) {
      assert LinkSound(l, id);
      WalkEnds(l, l.recovery[id].next.value, tries - 1);
    }
  }

  /** Operations of one action lie on one line: they all end at the same operation. */
  lemma SameTail(l: Ledger, i: OperationId, j: OperationId)
    requires ChainSound(l) && i in l.operations && j in l.operations
             && ActionOf(l.recovery, i) == ActionOf(l.recovery, j)
    ensures Walk(l.recovery, i, |l.operations|) == Walk(l.recovery, j, |l.operations|)
  {
    WalkEnds(l, i, |l.operations|);
    WalkEnds(l, j, |l.operations|);
  }

  lemma {:induction false} WalkStays(l: Ledger, id: OperationId, tries: nat)
    requires LinksSound(l) && id in l.operations && Walk(l.recovery, id, tries).Some?
    ensures var tail := Walk(l.recovery, id, tries).value;
            && tail in l.operations && !Linked(l.recovery, tail)
            && ActionOf(l.recovery, tail) == ActionOf(l.recovery, id)
            && l.operations[tail].fingerprint == l.operations[id].fingerprint
    decreases tries
  {
    if Linked(l.recovery, id) {
      assert LinkSound(l, id);
      WalkStays(l, l.recovery[id].next.value, tries - 1);
    }
  }

  /** Whoever `begin` lets pay owns an operation of the named action that may be reserved for
      once: it is pending and has never had a payment. */
  lemma OwnerMayPayOnce(l: Ledger, fingerprint: string, named: OperationId, minted: OperationId)
    requires ChainSound(l) && minted !in l.operations
    requires Begin(l, fingerprint, Some(named), None, minted).0.Owner?
    ensures var owner := Begin(l, fingerprint, Some(named), None, minted).0.operation;
            var l' := Begin(l, fingerprint, Some(named), None, minted).1;
            && owner in l'.operations && l'.operations[owner].state.Pending?
            && l'.operations[owner].fingerprint == fingerprint
            && !HasPayment(l', owner) && Unsigned(l', owner)
            && ActionOf(l'.recovery, owner) == ActionOf(l.recovery, named)
  {
    var owner := Begin(l, fingerprint, Some(named), None, minted).0.operation;
    var l' := Begin(l, fingerprint, Some(named), None, minted).1;
    if named in l.operations {
      WalkStays(l, named, HISTORY_LIMIT);
      OwnerAt(l, Walk(l.recovery, named, HISTORY_LIMIT).value, fingerprint, minted);
    } else {
      assert !HasPayment(l', owner);
    }
  }

  lemma OwnerAt(l: Ledger, tail: OperationId, fingerprint: string, minted: OperationId)
    requires RowsSound(l) && tail in l.operations && minted !in l.operations
             && BeginAt(l, tail, fingerprint, minted).0.Owner?
    ensures var owner := BeginAt(l, tail, fingerprint, minted).0.operation;
            var l' := BeginAt(l, tail, fingerprint, minted).1;
            && owner in l'.operations && l'.operations[owner].state.Pending?
            && l'.operations[owner].fingerprint == fingerprint
            && !HasPayment(l', owner) && Unsigned(l', owner)
            && ActionOf(l'.recovery, owner) == ActionOf(l.recovery, tail)
  {
    var owner := BeginAt(l, tail, fingerprint, minted).0.operation;
    assert BeginAt(l, tail, fingerprint, minted).1.payments == l.payments;
    assert !HasPayment(l, owner);
  }

  /** Identical requests without identity share one operation: such a call either joins the
      oldest pending one, or starts the only pending one. */
  lemma NamelessJoins(l: Ledger, fingerprint: string, twin: Option<OperationId>, minted: OperationId)
    requires TwinFound(l, fingerprint, twin) && minted !in l.operations
    ensures var (begun, l') := Begin(l, fingerprint, None, twin, minted);
            && (begun.Existing? ==> l' == l && OldestTwin(l, begun.operation, fingerprint))
            && (begun.Owner? ==>
                  forall j | j in l'.operations :: PendingTwin(l', j, fingerprint) <==> j == begun.operation)
            && !begun.Refused?
  {
    var (begun, l') := Begin(l, fingerprint, None, twin, minted);
    forall j | j in l'.operations && j != minted && twin.None? ensures !PendingTwin(l', j, fingerprint) {
      assert !PendingTwin(l, j, fingerprint);
    }
  }

  // ---------------------------------------------------------------- money steps

  /** A step that changes payment rows but brings none to life. */
  predicate NothingRevived(l: Ledger, l': Ledger) {
    && l'.operations == l.operations && l'.recovery == l.recovery && l'.payments.Keys == l.payments.Keys
    && forall p | p in l.payments ::
         && l'.payments[p].operation == l.payments[p].operation
         && (Counting(l'.payments[p]) ==> Counting(l.payments[p]))
  }

  lemma RevivingNothingIsSound(l: Ledger, l': Ledger)
    requires ChainSound(l) && NothingRevived(l, l')
    ensures ChainSound(l')
  {
    forall id | id in l'.recovery ensures LinkSound(l', id) {
      assert LinkSound(l, id);
      PaymentsStay(l, l', id);
    }
    forall id | id in l'.operations ensures ClosedIsDead(l', id) {
      assert ClosedIsDead(l, id);
    }
  }

  /** A recorded attempt is never forgotten. */
  lemma PaymentsStay(l: Ledger, l': Ledger, id: OperationId)
    requires l.payments.Keys <= l'.payments.Keys
    requires forall p | p in l.payments :: l'.payments[p].operation == l.payments[p].operation
    ensures HasPayment(l, id) ==> HasPayment(l', id)
  {
    if p :| p in l.payments && l.payments[p].operation == Some(id) {
      assert l'.payments[p].operation == Some(id);
    }
  }

  /** A new payment for an operation that has no live one. */
  lemma NewPaymentSound(l: Ledger, id: PaymentId, p: Payment, l': Ledger)
    requires ChainSound(l) && id !in l.payments && l'.payments == l.payments[id := p]
    requires l'.operations == l.operations && l'.recovery == l.recovery
    requires p.operation.Some? ==> Unsigned(l, p.operation.value)
    ensures ChainSound(l')
  {
    forall o | o in l'.recovery ensures LinkSound(l', o) {
      assert LinkSound(l, o);
      PaymentsStay(l, l', o);
    }
    forall o | o in l'.operations ensures ClosedIsDead(l', o) {
      assert ClosedIsDead(l, o);
    }
    forall x | x in l.payments && p.operation.Some? && l.payments[x].operation == p.operation
      ensures !Counting(l.payments[x])
    {
      assert !LiveFor(l.payments[x], p.operation.value);
    }
  }

  // ---------------------------------------------------------------- operation steps

  /** An operation that is not linked changes state; it closes only without live payments. */
  lemma StateMoveSound(l: Ledger, id: OperationId, o: Operation, l': Ledger)
    requires ChainSound(l) && id in l.operations && l'.operations == l.operations[id := o]
    requires l'.payments == l.payments && l'.recovery == l.recovery
    requires o.fingerprint == l.operations[id].fingerprint && o.serial == l.operations[id].serial
    requires Linked(l.recovery, id) ==> o.state.UnsignedFailed?
    requires o.state.UnsignedFailed? ==> forall p | p in l.payments :: !LiveFor(l.payments[p], id)
    ensures ChainSound(l')
  {
    assert l'.operations.Keys == l.operations.Keys;
    MovedLinks(l, id, o, l');
    assert ClosedDead(l') by {
      forall j | j in l'.operations ensures ClosedIsDead(l', j) {
        assert ClosedIsDead(l, j);
      }
    }
  }

  lemma MovedLinks(l: Ledger, id: OperationId, o: Operation, l': Ledger)
    requires LinksSound(l) && id in l.operations && l'.operations == l.operations[id := o]
    requires l'.payments == l.payments && l'.recovery == l.recovery
    requires o.fingerprint == l.operations[id].fingerprint && o.serial == l.operations[id].serial
    requires Linked(l.recovery, id) ==> o.state.UnsignedFailed?
    ensures LinksSound(l')
  {
    forall j | j in l'.recovery ensures LinkSound(l', j) {
      assert LinkSound(l, j);
      PaymentsStay(l, l', j);
    }
  }

  lemma CloseSound(l: Ledger, operation: Option<OperationId>)
    requires ChainSound(l)
    ensures ChainSound(l.(operations := CloseIfReleased(l, operation)))
  {
    if operation.Some? && operation.value in l.operations && CloseIfReleased(l, operation) != l.operations {
      StateMoveSound(l, operation.value, l.operations[operation.value].(state := UnsignedFailed),
                     l.(operations := CloseIfReleased(l, operation)));
    }
  }

  /** Soundness reads only payments, operations and recovery rows. */
  lemma OtherColumns(l: Ledger, l': Ledger)
    requires ChainSound(l) && l'.payments == l.payments && l'.operations == l.operations && l'.recovery == l.recovery
    ensures ChainSound(l')
  {
    RevivingNothingIsSound(l, l');
  }

  /** Rewriting recovery rows keeps a chain sound when every action and every link stays. */
  lemma SameLinks(l: Ledger, l': Ledger)
    requires ChainSound(l) && l' == l.(recovery := l'.recovery)
             && l.recovery.Keys <= l'.recovery.Keys <= l.operations.Keys
    requires forall id :: ActionOf(l'.recovery, id) == ActionOf(l.recovery, id)
    requires forall id :: Linked(l'.recovery, id) <==> Linked(l.recovery, id)
    requires forall id | Linked(l.recovery, id) :: l'.recovery[id].next == l.recovery[id].next
    ensures ChainSound(l')
  {
    forall id | id in l'.recovery ensures LinkSound(l', id) && RootSound(l'.recovery, id) {
      SameLink(l, l', id);
    }
    assert OneTail(l') by {
      assert OneTail(l);
    }
    assert ClosedDead(l') by {
      forall id | id in l'.operations ensures ClosedIsDead(l', id) {
        assert ClosedIsDead(l, id);
      }
    }
  }

  lemma SameLink(l: Ledger, l': Ledger, id: OperationId)
    requires RowsSound(l) && LinksSound(l) && l' == l.(recovery := l'.recovery) && l.recovery.Keys <= l'.recovery.Keys
    requires forall j :: ActionOf(l'.recovery, j) == ActionOf(l.recovery, j)
    requires Linked(l'.recovery, id) ==> Linked(l.recovery, id) && l'.recovery[id].next == l.recovery[id].next
    requires id in l'.recovery
    ensures LinkSound(l', id) && RootSound(l'.recovery, id)
  {
    var action := ActionOf(l.recovery, id);
    assert l'.recovery[id].action == action;
    assert ActionOf(l'.recovery, action) == ActionOf(l.recovery, action);
    if id in l.recovery {
      assert LinkSound(l, id) && RootSound(l.recovery, id);
      if Linked(l.recovery, id) {
        var n := l.recovery[id].next.value;
        assert ActionOf(l'.recovery, n) == ActionOf(l.recovery, n);
        PaymentsStay(l, l', id);
      }
    }
  }

  lemma IdentifySound(l: Ledger, op: OperationId)
    requires ChainSound(l)
    ensures ChainSound(Identify(l, op))
  {
    IdentifyKeepsLinks(l, op);
    assert forall id | id in l.recovery :: id in l.operations;
    SameLinks(l, Identify(l, op));
  }

  lemma IdentifyKeepsLinks(l: Ledger, op: OperationId)
    ensures var l' := Identify(l, op);
            && l' == l.(recovery := l'.recovery)
            && l.recovery.Keys <= l'.recovery.Keys <= l.recovery.Keys + l.operations.Keys
            && (forall id :: ActionOf(l'.recovery, id) == ActionOf(l.recovery, id))
            && (forall id :: Linked(l'.recovery, id) <==> Linked(l.recovery, id))
            && (forall id | Linked(l.recovery, id) :: l'.recovery[id].next == l.recovery[id].next)
  {
    IdentifiedKeepsLinks(l.recovery, op);
  }

  lemma IdentifiedKeepsLinks(recovery: map<OperationId, Recovery>, op: OperationId)
    ensures var after := Identified(recovery, op);
            && after.Keys == recovery.Keys + {op}
            && (forall id :: ActionOf(after, id) == ActionOf(recovery, id))
            && (forall id :: Linked(after, id) <==> Linked(recovery, id))
            && (forall id | Linked(recovery, id) :: after[id].next == recovery[id].next)
  {
  }

  /** Permission to replace changes neither action nor link. */
  lemma AllowSound(l: Ledger, op: OperationId)
    requires ChainSound(l)
    ensures ChainSound(AllowReplacement(l, op))
  {
    IdentifySound(l, op);
    PermitSound(Identify(l, op), op);
  }

  lemma PermitSound(l: Ledger, op: OperationId)
    requires ChainSound(l)
    ensures op in l.recovery ==> ChainSound(l.(recovery := l.recovery[op := l.recovery[op].(mayReplace := true)]))
  {
    if op in l.recovery {
      SameLinks(l, l.(recovery := l.recovery[op := l.recovery[op].(mayReplace := true)]));
    }
  }

  // ---------------------------------------------------------------- begin

  lemma CreateSound(l: Ledger, id: OperationId, fingerprint: string)
    requires ChainSound(l) && id !in l.operations
    ensures ChainSound(Created(l, id, fingerprint))
  {
    var l' := Created(l, id, fingerprint);
    assert |l'.operations| == |l.operations| + 1;
    assert forall j | j in l.recovery :: RootSound(l.recovery, j) && ActionOf(l.recovery, j) in l.operations;
    CreatedLinks(l, id, fingerprint);
    NewIsAlive(l, l', id);
  }

  lemma CreatedLinks(l: Ledger, id: OperationId, fingerprint: string)
    requires LinksSound(l) && id !in l.operations
    ensures LinksSound(Created(l, id, fingerprint))
  {
    var l' := Created(l, id, fingerprint);
    forall j | j in l'.recovery ensures LinkSound(l', j) {
      assert LinkSound(l, j);
      PaymentsStay(l, l', j);
    }
  }

  /** A new operation is pending. */
  lemma NewIsAlive(l: Ledger, l': Ledger, id: OperationId)
    requires ClosedDead(l) && id in l'.operations && l'.operations[id].state.Pending?
    requires l'.operations == l.operations[id := l'.operations[id]] && l'.payments == l.payments
    ensures ClosedDead(l')
  {
    forall j | j in l'.operations ensures ClosedIsDead(l', j) {
      assert j != id ==> ClosedIsDead(l, j);
    }
  }

  lemma ReplaceSound(l: Ledger, prior: OperationId, minted: OperationId, fingerprint: string)
    requires ChainSound(l) && prior in l.recovery && !Linked(l.recovery, prior) && minted !in l.operations
    requires ProvenUnpaid(l, prior) && l.operations[prior].fingerprint == fingerprint
    ensures ChainSound(Replaced(l, prior, minted, fingerprint))
  {
    var l' := Replaced(l, prior, minted, fingerprint);
    assert |l'.operations| == |l.operations| + 1;
    assert minted !in l.recovery;
    ReplacedTail(l, prior, minted, fingerprint);
    forall j | j in l'.recovery ensures LinkSound(l', j) && RootSound(l'.recovery, j) {
      ReplacedRow(l, prior, minted, fingerprint, j);
    }
    NewIsAlive(l, l', minted);
  }

  lemma ReplacedRow(l: Ledger, prior: OperationId, minted: OperationId, fingerprint: string, j: OperationId)
    requires RowsSound(l) && LinksSound(l) && prior in l.recovery && !Linked(l.recovery, prior)
             && minted !in l.operations
    requires ProvenUnpaid(l, prior) && l.operations[prior].fingerprint == fingerprint
    requires j in Replaced(l, prior, minted, fingerprint).recovery
    ensures var l' := Replaced(l, prior, minted, fingerprint); LinkSound(l', j) && RootSound(l'.recovery, j)
  {
    var l' := Replaced(l, prior, minted, fingerprint);
    assert minted !in l.recovery;
    var from := if j == minted then prior else j;
    assert RootSound(l.recovery, from) && LinkSound(l, from);
    PaymentsStay(l, l', from);
  }

  lemma ReplacedTail(l: Ledger, prior: OperationId, minted: OperationId, fingerprint: string)
    requires ChainSound(l) && prior in l.recovery && !Linked(l.recovery, prior) && minted !in l.operations
    ensures var l' := Replaced(l, prior, minted, fingerprint); OneTail(l') && LinksInjective(l'.recovery)
  {
    var l' := Replaced(l, prior, minted, fingerprint);
    assert minted !in l.recovery;
    ReplacedInjective(l, prior, minted, fingerprint);
    forall i, j | i in l'.operations && j in l'.operations && i != j
                  && ActionOf(l'.recovery, i) == ActionOf(l'.recovery, j)
      ensures Linked(l'.recovery, i) || Linked(l'.recovery, j)
    {
      ReplacedPair(l, prior, minted, fingerprint, i, j);
    }
  }

  lemma ReplacedInjective(l: Ledger, prior: OperationId, minted: OperationId, fingerprint: string)
    requires LinksSound(l) && LinksInjective(l.recovery)
    requires prior in l.recovery && !Linked(l.recovery, prior) && minted !in l.operations && minted !in l.recovery
    ensures LinksInjective(Replaced(l, prior, minted, fingerprint).recovery)
  {
    var after := Replaced(l, prior, minted, fingerprint).recovery;
    forall i, j | Linked(after, i) && Linked(after, j) && after[i].next == after[j].next ensures i == j {
      assert i != prior ==> LinkSound(l, i);
      assert j != prior ==> LinkSound(l, j);
    }
  }

  /** The new operation takes the place of the one it replaces. */
  lemma ReplacedPair(l: Ledger, prior: OperationId, minted: OperationId, fingerprint: string, i: OperationId,
                     j: OperationId)
    requires OneTail(l) && prior in l.operations && prior in l.recovery && minted !in l.operations
             && minted !in l.recovery
    requires !Linked(l.recovery, prior)
    requires var l' := Replaced(l, prior, minted, fingerprint);
             i in l'.operations && j in l'.operations && i != j && ActionOf(l'.recovery, i) == ActionOf(l'.recovery, j)
    ensures var l' := Replaced(l, prior, minted, fingerprint); Linked(l'.recovery, i) || Linked(l'.recovery, j)
  {
    var i' := if i == minted then prior else i;
    var j' := if j == minted then prior else j;
    assert ActionOf(l.recovery, i') == ActionOf(l.recovery, j');
    assert i' != j' ==> Linked(l.recovery, i') || Linked(l.recovery, j');
  }

  lemma BeginSound(l: Ledger, fingerprint: string, named: Option<OperationId>, twin: Option<OperationId>,
                   minted: OperationId)
    requires ChainSound(l) && minted !in l.operations
    ensures ChainSound(Begin(l, fingerprint, named, twin, minted).1)
  {
    if named.Some? && named.value in l.operations {
      if Walk(l.recovery, named.value, HISTORY_LIMIT).Some? {
        WalkStays(l, named.value, HISTORY_LIMIT);
        BeginAtSound(l, Walk(l.recovery, named.value, HISTORY_LIMIT).value, fingerprint, minted);
      }
    } else if !(named.None? && twin.Some?) {
      CreateSound(l, if named.Some? then named.value else minted, fingerprint);
    }
  }

  lemma BeginAtSound(l: Ledger, tail: OperationId, fingerprint: string, minted: OperationId)
    requires ChainSound(l) && tail in l.operations && !Linked(l.recovery, tail) && minted !in l.operations
    ensures ChainSound(BeginAt(l, tail, fingerprint, minted).1)
  {
    var o := l.operations[tail];
    if o.fingerprint == fingerprint && o.state.UnsignedFailed? {
      if !HasPayment(l, tail) {
        StateMoveSound(l, tail, o.(state := Pending), l.(operations := l.operations[tail := o.(state := Pending)]));
      } else if ProvenUnpaid(l, tail) && tail in l.recovery && l.recovery[tail].mayReplace {
        ReplaceSound(l, tail, minted, fingerprint);
      }
    }
  }

  // ---------------------------------------------------------------- every run

  lemma SettleSound(l: Ledger, ids: seq<PaymentId>, transaction: string)
    requires ChainSound(l)
    ensures ChainSound(Settle(l, ids, transaction))
  {
    SettleRevivesNothing(l, ids, transaction);
    RevivingNothingIsSound(l, Settle(l, ids, transaction));
  }

  lemma SettleRevivesNothing(l: Ledger, ids: seq<PaymentId>, transaction: string)
    ensures NothingRevived(l, Settle(l, ids, transaction))
  {
  }

  lemma ReleaseUnsignedSound(l: Ledger, id: PaymentId)
    requires ChainSound(l)
    ensures ChainSound(ReleaseUnsigned(l, id))
  {
    ReleaseRevivesNothing(l, id);
    RevivingNothingIsSound(l, ReleaseUnsigned(l, id));
  }

  lemma ReleaseRevivesNothing(l: Ledger, id: PaymentId)
    ensures NothingRevived(l, ReleaseUnsigned(l, id))
  {
    if id in l.payments && l.payments[id].state.Authorized? {
      assert ReleaseUnsigned(l, id).payments == WithReleased(l, id, SignatureRefused).payments;
    }
  }

  lemma ReleaseSound(l: Ledger, ids: set<PaymentId>, reason: string)
    requires ChainSound(l)
    ensures ChainSound(Release(l, ids, reason))
  {
    RevivingNothingIsSound(l, Release(l, ids, reason));
  }

  lemma BudgetSound(l: Ledger, step: Step)
    requires ChainSound(l) && (step.ResetStep? || step.RefundStep? || step.ReviewStep?)
    ensures ChainSound(Next(l, step))
  {
    match step
    case ResetStep(cap) => OtherColumns(l, Reset(l, cap));
    case RefundStep(id, original, transaction) => OtherColumns(l, ConfirmRefund(l, id, original, transaction));
    case ReviewStep(id) => OtherColumns(l, ReviewRefund(l, id));
  }

  lemma ReserveSound(l: Ledger, id: PaymentId, amount: int, operation: Option<OperationId>, network: string)
    requires ChainSound(l)
    ensures ChainSound(Reserve(l, id, amount, operation, network))
  {
    if id !in l.payments && ReserveRefusal(l, amount, operation).None? {
      NewPaymentSound(l, id, Payment(l.period, Authorized, amount, operation, None, None, network),
                      Reserve(l, id, amount, operation, network));
    }
  }

  lemma EvidenceSound(l: Ledger, id: PaymentId, original: Payment, finding: Finding)
    requires ChainSound(l)
    ensures ChainSound(RecordEvidence(l, id, original, finding))
  {
    if EvidenceApplies(l, id, original) && Recordable(finding) {
      var l' := RecordEvidence(l, id, original, finding);
      var paid := l'.(operations := l.operations, exhausted := l.exhausted);
      RevivingNothingIsSound(l, paid);
      CloseSound(paid, original.operation);
      OtherColumns(paid.(operations := l'.operations), l');
    }
  }

  lemma CompleteSound(l: Ledger, op: OperationId, failed: bool)
    requires ChainSound(l)
    ensures ChainSound(CompleteOperation(l, op, failed))
  {
    if op in l.operations {
      var l' := CompleteOperation(l, op, failed);
      CompleteMoves(l, op, failed);
      StateMoveSound(l, op, l'.operations[op], l');
    }
  }

  lemma CompleteMoves(l: Ledger, op: OperationId, failed: bool)
    requires LinksSound(l) && op in l.operations && ClosedIsDead(l, op)
    ensures var l' := CompleteOperation(l, op, failed);
            && op in l'.operations && l'.operations == l.operations[op := l'.operations[op]]
            && l'.payments == l.payments && l'.recovery == l.recovery
            && l'.operations[op].fingerprint == l.operations[op].fingerprint
            && l'.operations[op].serial == l.operations[op].serial
            && (Linked(l.recovery, op) ==> l'.operations[op].state.UnsignedFailed?)
            && (l'.operations[op].state.UnsignedFailed? ==> forall p | p in l.payments :: !LiveFor(l.payments[p], op))
  {
    assert Linked(l.recovery, op) ==> LinkSound(l, op);
  }

  lemma HeadersSound(l: Ledger, op: OperationId)
    requires ChainSound(l)
    ensures ChainSound(SaveHeaders(l, op))
  {
    if op in l.operations {
      var l' := SaveHeaders(l, op);
      assert ClosedIsDead(l, op);
      HeadersMove(l, op);
      StateMoveSound(l, op, l'.operations[op], l');
    }
  }

  lemma HeadersMove(l: Ledger, op: OperationId)
    requires LinksSound(l) && op in l.operations
    ensures var l' := SaveHeaders(l, op);
            && l'.operations == l.operations[op := l'.operations[op]] && l'.payments == l.payments
            && l'.recovery == l.recovery
            && l'.operations[op].fingerprint == l.operations[op].fingerprint
            && l'.operations[op].serial == l.operations[op].serial
            && l'.operations[op].state == l.operations[op].state
            && (Linked(l.recovery, op) ==> l'.operations[op].state.UnsignedFailed?)
  {
    assert Linked(l.recovery, op) ==> LinkSound(l, op);
  }

  lemma NextSound(l: Ledger, step: Step)
    requires ChainSound(l)
    ensures ChainSound(Next(l, step))
  {
    if PaymentStep(step) {
      PaymentSound(l, step);
    } else if step.ResetStep? || step.RefundStep? || step.ReviewStep? {
      BudgetSound(l, step);
    } else {
      OperationSound(l, step);
    }
  }

  predicate PaymentStep(step: Step) {
    step.ReserveStep? || step.EvidenceStep? || step.SettleStep? || step.ReleaseUnsignedStep? || step.ReleaseStep?
  }

  lemma PaymentSound(l: Ledger, step: Step)
    requires ChainSound(l) && PaymentStep(step)
    ensures ChainSound(Next(l, step))
  {
    match step
    case ReserveStep(id, amount, operation, network) => ReserveSound(l, id, amount, operation, network);
    case EvidenceStep(id, original, finding) => EvidenceSound(l, id, original, finding);
    case SettleStep(ids, transaction) => SettleSound(l, ids, transaction);
    case ReleaseUnsignedStep(id) => ReleaseUnsignedSound(l, id);
    case ReleaseStep(rows, reason) => ReleaseSound(l, rows, reason);
  }

  lemma OperationSound(l: Ledger, step: Step)
    requires ChainSound(l) && !PaymentStep(step) && !step.ResetStep? && !step.RefundStep? && !step.ReviewStep?
    ensures ChainSound(Next(l, step))
  {
    match step
    case CompleteStep(op, failed) => CompleteSound(l, op, failed);
    case HeadersStep(op) => HeadersSound(l, op);
    case AbandonStep(op) => CloseSound(l, Some(op));
    case IdentifyStep(op) => IdentifySound(l, op);
    case AllowStep(op) => AllowSound(l, op);
    case BeginStep(fingerprint, named, twin, minted) =>
      if minted !in l.operations {
        BeginSound(l, fingerprint, named, twin, minted);
      }
  }

  lemma {:induction false} RunSound(l: Ledger, steps: seq<Step>)
    requires ChainSound(l)
    ensures ChainSound(Run(l, steps))
    decreases |steps|
  {
    if steps != [] {
      NextSound(l, steps[0]);
      RunSound(Next(l, steps[0]), steps[1..]);
    }
  }

  /** From installation on, under any interleaving of beginning, reserving, settling, releasing,
      reconciling, completing and abandoning: two payments of one action are never both
      authorized or settled. */
  lemma NeverPaidTwice(configured: nat, steps: seq<Step>, x: PaymentId, y: PaymentId)
    requires var l := Run(Opening(configured), steps);
             && x in l.payments && y in l.payments && x != y
             && l.payments[x].operation.Some? && l.payments[y].operation.Some?
             && ActionOf(l.recovery, l.payments[x].operation.value)
                == ActionOf(l.recovery, l.payments[y].operation.value)
    ensures var l := Run(Opening(configured), steps); !(Counting(l.payments[x]) && Counting(l.payments[y]))
  {
    RunSound(Opening(configured), steps);
    OneLivePaymentPerAction(Run(Opening(configured), steps), x, y);
  }

  // ---------------------------------------------------------------- begin, over two transactions

  /** An operation is never dropped and never moved to another action. */
  lemma ActionKept(l: Ledger, step: Step, id: OperationId)
    requires RowsSound(l) && id in l.operations
    ensures id in Next(l, step).operations && ActionOf(Next(l, step).recovery, id) == ActionOf(l.recovery, id)
  {
    match step
    case BeginStep(fingerprint, named, twin, minted) =>
      if minted !in l.operations {
        BeginKeepsAction(l, fingerprint, named, twin, minted, id);
      }
    case IdentifyStep(op) => IdentifyKeepsLinks(l, op);
    case AllowStep(op) => AllowKeepsAction(l, op, id);
    case EvidenceStep(payment, original, finding) => EvidenceKeepsRecovery(l, payment, original, finding);
    case CompleteStep(op, failed) => CompleteKeepsRecovery(l, op, failed);
    case HeadersStep(op) => HeadersKeepRecovery(l, op);
    case AbandonStep(op) => AbandonKeepsRecovery(l, op);
    case _ => MoneyKeepsOperations(l, step);
  }

  lemma CompleteKeepsRecovery(l: Ledger, op: OperationId, failed: bool)
    ensures var l' := CompleteOperation(l, op, failed);
            l'.recovery == l.recovery && l'.operations.Keys == l.operations.Keys
  {
  }

  lemma HeadersKeepRecovery(l: Ledger, op: OperationId)
    ensures SaveHeaders(l, op).recovery == l.recovery && SaveHeaders(l, op).operations.Keys == l.operations.Keys
  {
  }

  lemma AbandonKeepsRecovery(l: Ledger, op: OperationId)
    ensures Abandon(l, op).recovery == l.recovery && Abandon(l, op).operations.Keys == l.operations.Keys
  {
  }

  lemma MoneyKeepsOperations(l: Ledger, step: Step)
    requires step.ReserveStep? || step.SettleStep? || step.ReleaseUnsignedStep? || step.ReleaseStep? || step.ResetStep?
             || step.RefundStep? || step.ReviewStep?
    ensures Next(l, step).operations == l.operations && Next(l, step).recovery == l.recovery
  {
    match step
    case ReleaseUnsignedStep(id) => ReleaseRevivesNothing(l, id);
    case SettleStep(ids, transaction) => SettleRevivesNothing(l, ids, transaction);
    case ReserveStep(_, _, _, _) =>
    case ReleaseStep(_, _) =>
    case ResetStep(_) =>
    case RefundStep(_, _, _) =>
    case ReviewStep(_) =>
  }

  lemma EvidenceKeepsRecovery(l: Ledger, id: PaymentId, original: Payment, finding: Finding)
    ensures var l' := RecordEvidence(l, id, original, finding);
            l'.recovery == l.recovery && l'.operations.Keys == l.operations.Keys
  {
  }

  lemma AllowKeepsAction(l: Ledger, op: OperationId, id: OperationId)
    ensures AllowReplacement(l, op).operations == l.operations
            && ActionOf(AllowReplacement(l, op).recovery, id) == ActionOf(l.recovery, id)
  {
    IdentifyKeepsLinks(l, op);
  }

  lemma BeginKeepsAction(l: Ledger, fingerprint: string, named: Option<OperationId>, twin: Option<OperationId>,
                         minted: OperationId, id: OperationId)
    requires RowsSound(l) && id in l.operations && minted !in l.operations
    ensures var l' := Begin(l, fingerprint, named, twin, minted).1;
            id in l'.operations && ActionOf(l'.recovery, id) == ActionOf(l.recovery, id)
  {
    assert minted !in l.recovery;
    if named.Some? && named.value in l.operations {
      var tail := Walk(l.recovery, named.value, HISTORY_LIMIT);
      if tail.Some? && tail.value in l.operations {
        BeginAtKeepsAction(l, tail.value, fingerprint, minted, id);
      }
    }
  }

  lemma BeginAtKeepsAction(l: Ledger, tail: OperationId, fingerprint: string, minted: OperationId, id: OperationId)
    requires tail in l.operations && id in l.operations && minted !in l.operations && minted !in l.recovery
    ensures var l' := BeginAt(l, tail, fingerprint, minted).1;
            id in l'.operations && ActionOf(l'.recovery, id) == ActionOf(l.recovery, id)
  {
  }

  lemma {:induction false} RunKeepsAction(l: Ledger, steps: seq<Step>, id: OperationId)
    requires ChainSound(l) && id in l.operations
    ensures id in Run(l, steps).operations && ActionOf(Run(l, steps).recovery, id) == ActionOf(l.recovery, id)
    decreases |steps|
  {
    if steps != [] {
      ActionKept(l, steps[0], id);
      NextSound(l, steps[0]);
      RunKeepsAction(Next(l, steps[0]), steps[1..], id);
    }
  }

  /** `begin` follows links once before recovery and once more when it decides. Whatever other
      transactions run in between, an owner it returns belongs to the action first named, is
      pending, and has never had a payment. */
  lemma ResolvedOwnerMayPayOnce(l: Ledger, named: OperationId, steps: seq<Step>, fingerprint: string,
                                minted: OperationId)
    requires ChainSound(l) && named in l.operations && Walk(l.recovery, named, HISTORY_LIMIT).Some?
    requires minted !in Run(l, steps).operations
    requires Begin(Run(l, steps), fingerprint, Walk(l.recovery, named, HISTORY_LIMIT), None, minted).0.Owner?
    ensures var decided := Begin(Run(l, steps), fingerprint, Walk(l.recovery, named, HISTORY_LIMIT), None, minted);
            var owner := decided.0.operation;
            && Unsigned(decided.1, owner) && !HasPayment(decided.1, owner)
            && ActionOf(decided.1.recovery, owner) == ActionOf(l.recovery, named)
  {
    var newest := Walk(l.recovery, named, HISTORY_LIMIT).value;
    WalkStays(l, named, HISTORY_LIMIT);
    RunSound(l, steps);
    RunKeepsAction(l, steps, newest);
    OwnerMayPayOnce(Run(l, steps), fingerprint, newest, minted);
  }
}
