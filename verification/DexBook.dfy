/** The receipt-driven journal of swaps: what reconcilers may commit in any order, and what that
    leaves true of holdings, cash and profit. */
module DexBook {
  import opened Sums
  import opened BrokerBook

  datatype DexStatus = Reserved | Broadcasting | Unresolved | Confirmed | FeesOnly | Failed

  predicate Unfinished(status: DexStatus) {
    status.Reserved? || status.Broadcasting? || status.Unresolved?
  }

  /** Token amounts proved by a finalized receipt. */
  datatype Swap = Swap(spent: real, received: real)

  /** The part of an order's context column that later readers use: the settled fill, whether its
      finances are complete, and whether it is known never to have been broadcast. The column is
      one text, always written whole. */
  datatype Context = Context(fill: Option<Swap>, complete: bool, noBroadcast: bool)

  const NO_CONTEXT: Context := Context(None, false, false)

  datatype DexOrder = DexOrder(strategy: StrategyId, key: IntentKey, action: Action, position: PositionId,
                               status: DexStatus, txHash: Option<string>, expected: Option<(nat, nat)>,
                               context: Context)

  datatype DexTrade = DexTrade(strategy: StrategyId, action: Action, swap: Swap, complete: bool, pnl: Option<real>)

  datatype DexHolding = DexHolding(strategy: StrategyId, quantity: real, unitCost: real, complete: bool)

  type ReaderId = nat

  /** What a thread has read of an order and may still write back. */
  datatype OrderRead = OrderRead(id: OrderId, context: Context)

  datatype DexRows = DexRows(strategies: map<StrategyId, Strategy>, orders: map<OrderId, DexOrder>,
                             positions: map<PositionId, Position>, holdings: map<PositionId, DexHolding>,
                             trades: map<OrderId, DexTrade>, read: map<ReaderId, OrderRead>)

  // ---------------------------------------------------------------- reserve

  /** `legacy` says that an unresolved trade without an order exists. */
  datatype DexRequest = DexRequest(strategy: StrategyId, key: IntentKey, action: Action, position: PositionId,
                                   amount: real, revision: Option<(nat, nat)>, id: OrderId, legacy: bool)

  predicate EntryOpen(b: DexRows, r: DexRequest)
    requires r.strategy in b.strategies
  {
    var s := b.strategies[r.strategy];
    r.position !in b.positions && s.status.Live? && r.revision == Some((s.executionRevision, s.bookRevision))
  }

  predicate ExitOpen(b: DexRows, r: DexRequest)
    requires r.strategy in b.strategies
  {
    var s := b.strategies[r.strategy];
    && (s.status.Live? || s.exitMonitor == Some(LiveMode))
    && r.position in b.holdings && b.holdings[r.position].strategy == r.strategy
    && r.amount <= b.holdings[r.position].quantity
  }

  predicate Obstructs(o: DexOrder, r: DexRequest) {
    && o.strategy == r.strategy && Unfinished(o.status)
    && (o.position == "" || o.position == r.position || r.action.Enter?)
  }

  predicate DexReservable(b: DexRows, r: DexRequest) {
    && r.strategy in b.strategies && r.position != "" && !r.legacy && r.id !in b.orders
    && (if r.action.Enter? then EntryOpen(b, r) else ExitOpen(b, r))
    && (forall j | j in b.orders :: !Obstructs(b.orders[j], r))
    && (forall j | j in b.orders && b.orders[j].strategy == r.strategy ::
          b.orders[j].key != r.key && !ClashesPending(b.orders[j], r))
  }

  /** The unique indexes over unfinished orders: a position, and an entry, once per strategy. */
  predicate ClashesPending(o: DexOrder, r: DexRequest) {
    Unfinished(o.status) && (o.position == r.position || (o.action.Enter? && r.action.Enter?))
  }

  function ReservedOrder(r: DexRequest): DexOrder {
    DexOrder(r.strategy, r.key, r.action, r.position, Reserved, None, r.revision, NO_CONTEXT)
  }

  function DexReserve(b: DexRows, r: DexRequest): DexRows {
    if DexReservable(b, r) then b.(orders := b.orders[r.id := ReservedOrder(r)]) else b
  }

  // ---------------------------------------------------------------- update, in two statements

  /** The SELECT that starts an update, and the row a reconciler works from. */
  function DexRead(b: DexRows, reader: ReaderId, id: OrderId): DexRows {
    if id in b.orders then b.(read := b.read[reader := OrderRead(id, b.orders[id].context)]) else b
  }

  /** What callers write: never a confirmation. */
  datatype Patch = Patch(status: Option<DexStatus>, txHash: Option<string>, noBroadcast: bool)

  predicate WritablePatch(patch: Patch) {
    patch.status.None? || patch.status.value.Broadcasting? || patch.status.value.Unresolved?
    || patch.status.value.Failed?
  }

  /** The UPDATE: status and hash are decided on the row as it is, the context is the one read
      before, with the caller's additions. */
  function Patched(o: DexOrder, context: Context, patch: Patch): DexOrder {
    o.(status := if o.status.Confirmed? || patch.status.None? then o.status else patch.status.value,
       txHash := if patch.txHash.Some? then patch.txHash else o.txHash,
       context := context.(noBroadcast := context.noBroadcast || patch.noBroadcast))
  }

  /** An unfinished order must stay alone on its position and, if it enters, in its strategy. */
  predicate UnfinishedUnique(orders: map<OrderId, DexOrder>, id: OrderId, o: DexOrder) {
    Unfinished(o.status) ==>
      forall j | j in orders && j != id && orders[j].strategy == o.strategy && Unfinished(orders[j].status) ::
        orders[j].position != o.position && !(orders[j].action.Enter? && o.action.Enter?)
  }

  predicate Writable(b: DexRows, id: OrderId, context: Context, patch: Patch) {
    id in b.orders && WritablePatch(patch) && UnfinishedUnique(b.orders, id, Patched(b.orders[id], context, patch))
  }

  function DexWrite(b: DexRows, id: OrderId, context: Context, patch: Patch): DexRows {
    if Writable(b, id, context, patch)
    then b.(orders := b.orders[id := Patched(b.orders[id], context, patch)]) else b
  }

  // ---------------------------------------------------------------- settlement

  /** A finalized revert, or an approval whose swap was never signed: fees but no fill, recorded in
      one transaction. Only an order already in this state is left alone. */
  function FeeOnly(b: DexRows, id: OrderId, complete: bool): DexRows {
    if id !in b.orders || b.orders[id].status.FeesOnly? then b
    else
      var o := b.orders[id];
      b.(orders := b.orders[id := o.(status := FeesOnly, context := o.context.(complete := complete))],
         strategies := BookRevised(b.strategies, o.strategy))
  }

  function Quantity(action: Action, swap: Swap): real {
    if action.Enter? then swap.received else swap.spent
  }

  function Cash(action: Action, swap: Swap): real {
    if action.Enter? then swap.spent else swap.received
  }

  /** What the transaction itself refuses: the holding rule, or a key already taken. */
  predicate Bookable(b: DexRows, id: OrderId, swap: Swap)
    requires id in b.orders
  {
    var o := b.orders[id];
    var held := o.position in b.holdings && b.holdings[o.position].strategy == o.strategy;
    && Quantity(o.action, swap) != 0.0
    && id !in b.trades
    && (if o.action.Enter? then !held && o.position !in b.positions && o.position !in b.holdings
        else held && Quantity(o.action, swap) <= b.holdings[o.position].quantity)
  }

  /** An exit's profit: its proceeds less the cost of the units sold. */
  function Profit(h: DexHolding, quantity: real, cash: real): real {
    cash - quantity * h.unitCost
  }

  function SwapTrade(b: DexRows, o: DexOrder, swap: Swap, complete: bool): DexTrade
    requires o.action.Exit? ==> o.position in b.holdings
  {
    var pnl := if o.action.Exit? && complete
               then Some(Profit(b.holdings[o.position], Quantity(o.action, swap), Cash(o.action, swap))) else None;
    DexTrade(o.strategy, o.action, swap, complete, pnl)
  }

  /** An entry opens a holding at its price; an exit takes from the holding and keeps its cost. */
  function SwapHolding(b: DexRows, o: DexOrder, swap: Swap, complete: bool): DexHolding
    requires o.action.Exit? ==> o.position in b.holdings
    requires Quantity(o.action, swap) != 0.0
  {
    var qty := Quantity(o.action, swap);
    if o.action.Enter? then DexHolding(o.strategy, qty, Cash(o.action, swap) / qty, complete)
    else b.holdings[o.position].(quantity := b.holdings[o.position].quantity - qty, complete := complete)
  }

  predicate Fillable(b: DexRows, id: OrderId, swap: Swap) {
    id in b.orders && !b.orders[id].status.Confirmed? && Bookable(b, id, swap)
  }

  predicate CompleteFill(b: DexRows, o: DexOrder, feesKnown: bool)
    requires o.action.Exit? ==> o.position in b.holdings
  {
    feesKnown && (o.action.Enter? || b.holdings[o.position].complete)
  }

  /** Booked in one transaction, except that the rest of the context is the one the reconciler read
      before; `feesKnown`: every native fee is proved to be zero. */
  function ApplyFill(b: DexRows, id: OrderId, context: Context, swap: Swap, feesKnown: bool): DexRows {
    if !Fillable(b, id, swap) then b
    else
      var o := b.orders[id];
      var complete := CompleteFill(b, o, feesKnown);
      var after := SwapHolding(b, o, swap, complete);
      b.(strategies := BookRevised(b.strategies, o.strategy),
         orders := b.orders[id := o.(status := Confirmed,
                                     context := context.(fill := Some(swap), complete := complete))],
         positions := PositionsAfter(b, o, after.quantity),
         holdings := b.holdings[o.position := after],
         trades := b.trades[id := SwapTrade(b, o, swap, complete)])
  }

  function PositionsAfter(b: DexRows, o: DexOrder, quantity: real): map<PositionId, Position> {
    if o.action.Enter? then b.positions[o.position := Position(o.strategy, true)]
    else if o.position in b.positions then b.positions[o.position := b.positions[o.position].(open := quantity != 0.0)]
    else b.positions
  }

  /** The last check before a broadcast, under the lock that lifecycle changes also take. */
  predicate BroadcastAuthorized(b: DexRows, id: OrderId) {
    id in b.orders && (b.orders[id].action.Enter? ==>
      && b.orders[id].strategy in b.strategies
      && var s := b.strategies[b.orders[id].strategy];
         s.status.Live? && b.orders[id].expected == Some((s.executionRevision, s.bookRevision)))
  }

  // ---------------------------------------------------------------- the strategy row

  function DexCommit(b: DexRows, sid: StrategyId, revision: (nat, nat)): DexRows {
    if sid in b.strategies && revision == (b.strategies[sid].executionRevision, b.strategies[sid].bookRevision)
    then b.(strategies := ExecutionRevised(b.strategies, sid)) else b
  }

  predicate DexAllocatable(b: DexRows, sid: StrategyId) {
    sid in b.strategies && forall j | j in b.orders :: b.orders[j].strategy != sid
  }

  /** A first allocation, before the strategy has any order, invalidates running evaluations. */
  function DexAllocate(b: DexRows, sid: StrategyId): DexRows {
    if DexAllocatable(b, sid) then b.(strategies := ExecutionRevised(b.strategies, sid)) else b
  }

  // ---------------------------------------------------------------- runs

  datatype DexStep =
    | DexReserveStep(request: DexRequest)
    | DexReadStep(reader: ReaderId, id: OrderId)
    | DexWriteStep(reader: ReaderId, patch: Patch)
    | FillStep(reader: ReaderId, swap: Swap, feesKnown: bool)
    | FeeOnlyStep(id: OrderId, complete: bool)
    | DexCommitStep(sid: StrategyId, revision: (nat, nat))
    | DexAllocateStep(sid: StrategyId)
    | DexLifecycleStep(sid: StrategyId, lifecycle: Lifecycle, exitMonitor: Option<Mode>)

  /** A receipt is accepted only with positive amounts on both sides. */
  predicate Proven(swap: Swap) {
    swap.spent > 0.0 && swap.received > 0.0
  }

  function DexNext(b: DexRows, step: DexStep): DexRows {
    match step
    case DexReserveStep(r) => DexReserve(b, r)
    case DexReadStep(reader, id) => DexRead(b, reader, id)
    case DexWriteStep(reader, patch) =>
      if reader in b.read then DexWrite(b, b.read[reader].id, b.read[reader].context, patch) else b
    case FillStep(reader, swap, feesKnown) =>
      if reader in b.read && Proven(swap) then ApplyFill(b, b.read[reader].id, b.read[reader].context, swap, feesKnown)
      else b
    case FeeOnlyStep(id, complete) => FeeOnly(b, id, complete)
    case DexCommitStep(sid, revision) => DexCommit(b, sid, revision)
    case DexAllocateStep(sid) => DexAllocate(b, sid)
    case DexLifecycleStep(sid, lifecycle, exitMonitor) =>
      if sid in b.strategies
      then b.(strategies := b.strategies[sid := b.strategies[sid].(status := lifecycle, exitMonitor := exitMonitor)])
      else b
  }

  function DexRun(b: DexRows, steps: seq<DexStep>): DexRows
    decreases |steps|
  {
    if steps == [] then b else DexRun(DexNext(b, steps[0]), steps[1..])
  }

  predicate DexFresh(b: DexRows) {
    b.orders == map[] && b.positions == map[] && b.holdings == map[] && b.trades == map[] && b.read == map[]
  }
}
