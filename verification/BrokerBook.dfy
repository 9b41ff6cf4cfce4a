/** The Robinhood journal as rows, and each transaction on it as a step from one book to the next.

    Amounts are exact rationals (`real`). A table is a map from its primary key, so a row is
    found by key and reading order never matters.
 */
module BrokerBook {
  import opened Sums

  type OrderId = string
  type PositionId = string  // "" stands for an absent identity, as the program's truth test reads it
  type StrategyId = string

  datatype Side = Buy | Sell

  datatype Action = Enter | Exit

  datatype AssetClass = Crypto | Equity

  datatype Lifecycle = Draft | Inactive | Paper | Live | Archived

  datatype Mode = LiveMode | PaperMode

  datatype Status =
    | Submitting | Uncertain | Open | Partial | AwaitingApproval | CancelPending
    | Filled | Canceled | Rejected

  /** The orders a broker may still fill. */
  predicate Pending(status: Status) {
    !status.Filled? && !status.Canceled? && !status.Rejected?
  }

  datatype Intent = Intent(action: Action, side: Side, symbol: string, amount: real,
                           positionId: PositionId, engineOrderId: Option<string>)

  /** An entry buys and an exit sells; the engine mapping produces only such intents, but an
      intent that arrives in final form is passed through unchecked. */
  predicate Coherent(intent: Intent) {
    intent.action.Enter? <==> intent.side.Buy?
  }

  datatype KeyBase =
    | ByEngineOrder(engineOrderId: string)
    | ByPosition(evaluation: string, positionId: PositionId, action: Action)

  datatype IntentKey = IntentKey(base: KeyBase, sold: Option<real>)

  function KeyOf(evaluation: string, intent: Intent): IntentKey {
    IntentKey(if intent.engineOrderId.Some? then ByEngineOrder(intent.engineOrderId.value)
              else ByPosition(evaluation, intent.positionId, intent.action),
              if intent.side.Sell? then Some(intent.amount) else None)
  }

  datatype Order = Order(strategy: StrategyId, key: IntentKey, intent: Intent, quantity: real, status: Status,
                         brokerId: string, approvalId: string, filled: real, notional: real, fees: real)

  datatype Position = Position(strategy: StrategyId, open: bool)

  datatype Holding = Holding(strategy: StrategyId, quantity: real, unitCost: real)

  datatype Trade = Trade(strategy: StrategyId, positionId: PositionId, quantity: real, gross: real, fees: real,
                         pnl: Option<real>)

  /** `bound` marks a strategy adopted from the server; `capital` is its route's committed capital. */
  datatype Strategy = Strategy(status: Lifecycle, exitMonitor: Option<Mode>, executionRevision: nat, bookRevision: nat,
                               capital: real, bound: bool)

  datatype Event = Event(order: OrderId, status: Status, filled: real)

  /** A fill's primary key: its order and the cumulative quantity it brings the order to. */
  type FillId = (OrderId, real)

  datatype Book = Book(strategies: map<StrategyId, Strategy>, orders: map<OrderId, Order>,
                       positions: map<PositionId, Position>, holdings: map<PositionId, Holding>,
                       trades: map<FillId, Trade>, events: seq<Event>)

  // ---------------------------------------------------------------- reserve

  /** What an entry needs of the strategy and of its position identity. */
  predicate EntryAllowed(b: Book, sid: StrategyId, intent: Intent, expected: Option<(nat, nat)>)
    requires sid in b.strategies
  {
    var s := b.strategies[sid];
    && (intent.positionId in b.positions ==>
          b.positions[intent.positionId].open && b.positions[intent.positionId].strategy == sid)
    && s.status.Live?
    && expected == Some((s.executionRevision, s.bookRevision))
  }

  /** What an exit needs: an active strategy and an open holding of its own that covers it. */
  predicate ExitAllowed(b: Book, sid: StrategyId, intent: Intent, quantity: real)
    requires sid in b.strategies
  {
    var s := b.strategies[sid];
    var p := intent.positionId;
    && (s.status.Live? || s.exitMonitor == Some(LiveMode))
    && p in b.holdings && b.holdings[p].strategy == sid
    && p in b.positions && b.positions[p].open
    && quantity <= b.holdings[p].quantity
  }

  /** A pending order that forbids a new intent of the same strategy. */
  predicate Blocks(o: Order, sid: StrategyId, intent: Intent) {
    && o.strategy == sid && Pending(o.status)
    && (o.intent.positionId == "" || o.intent.positionId == intent.positionId || intent.action.Enter?)
  }

  /** The two unique indexes over pending orders, and the primary key. */
  predicate Insertable(orders: map<OrderId, Order>, id: OrderId, o: Order) {
    && id !in orders
    && (Pending(o.status) ==> PendingUnique(orders, id, o))
  }

  /** No other pending order of the strategy shares the position, or the buying side. */
  predicate PendingUnique(orders: map<OrderId, Order>, id: OrderId, o: Order) {
    forall j | j in orders && j != id && orders[j].strategy == o.strategy && Pending(orders[j].status) ::
      && orders[j].intent.positionId != o.intent.positionId
      && !(orders[j].intent.side.Buy? && o.intent.side.Buy?)
  }

  datatype Request = Request(strategy: StrategyId, evaluation: string, intent: Intent, quantity: real,
                             id: OrderId, expected: Option<(nat, nat)>)

  function NewOrder(r: Request): Order {
    Order(r.strategy, KeyOf(r.evaluation, r.intent), r.intent, r.quantity, Submitting, "", "", 0.0, 0.0, 0.0)
  }

  predicate Reservable(b: Book, r: Request) {
    && r.strategy in b.strategies && r.intent.positionId != ""
    && (if r.intent.action.Enter? then EntryAllowed(b, r.strategy, r.intent, r.expected)
        else ExitAllowed(b, r.strategy, r.intent, r.quantity))
    && (forall j | j in b.orders :: !Blocks(b.orders[j], r.strategy, r.intent))
    && (forall j | j in b.orders && b.orders[j].strategy == r.strategy ::
         b.orders[j].key != KeyOf(r.evaluation, r.intent))
    && Insertable(b.orders, r.id, NewOrder(r))
  }

  function Reserve(b: Book, r: Request): Book {
    if Reservable(b, r) then b.(orders := b.orders[r.id := NewOrder(r)]) else b
  }

  // ---------------------------------------------------------------- mark

  function Marked(o: Order, status: Status, brokerId: string, approvalId: string): Order {
    o.(status := status,
       brokerId := if brokerId == "" then o.brokerId else brokerId,
       approvalId := if approvalId == "" then o.approvalId else approvalId)
  }

  /** An unconditional UPDATE; only the unique indexes can refuse it. */
  predicate Markable(b: Book, id: OrderId, status: Status) {
    && id in b.orders
    && (Pending(status) ==> PendingUnique(b.orders, id, b.orders[id]))
  }

  function Mark(b: Book, id: OrderId, status: Status, brokerId: string, approvalId: string): Book {
    if Markable(b, id, status) then b.(orders := b.orders[id := Marked(b.orders[id], status, brokerId, approvalId)])
    else b
  }

  // ---------------------------------------------------------------- apply_snapshot

  /** A numeric field of a broker reply: not there, not a finite number, or read. A null
      `rounded_executed_notional` counts as absent; any other null is malformed. */
  datatype Num = Absent | Malformed | Number(value: real)

  datatype Snapshot = Snapshot(id: string, state: string, side: Option<Side>, symbol: Option<string>, refId: string,
                               cumulative: Num, averagePrice: Num, roundedNotional: Num, netNotional: Num, fees: Num)

  datatype Refusal =
    // what the broker's own reply can cause
    | UnknownState | BadNumber | NegativeQuantity | MissingPrice | InvalidFees | IdentityMismatch | Overfill
    | Regression | TerminalChanged | EmptyFill | IncrementalPrice | CashRevision
    // what only the local book can cause
    | UnknownOrder | ForeignPosition | NoHolding | ExitExceedsHolding | DuplicateTrade | ZeroTotal | EntryOnClosed

  /** The refusals that blame the local journal rather than the reply. */
  predicate BlamesBook(e: Refusal) {
    e.ForeignPosition? || e.NoHolding? || e.ExitExceedsHolding? || e.DuplicateTrade? || e.ZeroTotal? || e.EntryOnClosed?
  }

  function StatusNamed(state: string): Option<Status> {
    match state
    case "filled" => Some(Filled)
    case "cancelled" => Some(Canceled)
    case "canceled" => Some(Canceled)
    case "partially_filled_rest_cancelled" => Some(Canceled)
    case "rejected" => Some(Rejected)
    case "failed" => Some(Rejected)
    case "voided" => Some(Canceled)
    case "pending_cancelled" => Some(CancelPending)
    case "queued" => Some(Open)
    case "unconfirmed" => Some(Open)
    case "confirmed" => Some(Open)
    case "new" => Some(Open)
    case "partially_filled" => Some(Partial)
    case _ => None
  }

  /** What a snapshot reports, cumulatively, once its fields are read. */
  datatype Reading = Reading(status: Status, quantity: real, gross: real, fees: real)

  function Max(a: real, b: real): real {
    if a < b then b else a
  }

  /** Net cash includes fees; they are never negative and never assumed to be zero. */
  function CryptoReading(s: Snapshot, status: Status, gross: real): Result<Reading, Refusal>
    requires s.cumulative.Number?
  {
    var notional := if s.roundedNotional.Absent? then Number(gross) else s.roundedNotional;
    if !notional.Number? || !s.netNotional.Number? then Err(BadNumber)
    else
      var fees := if s.side == Some(Buy) then s.netNotional.value - notional.value
                  else notional.value - s.netNotional.value;
      Ok(Reading(status, s.cumulative.value, notional.value, Max(0.0, fees)))
  }

  function Read(s: Snapshot, asset: AssetClass): Result<Reading, Refusal> {
    var status := StatusNamed(s.state);
    if status.None? then Err(UnknownState)
    else if !s.cumulative.Number? then Err(BadNumber)
    else if s.cumulative.value < 0.0 then Err(NegativeQuantity)
    else if s.cumulative.value != 0.0 && !s.averagePrice.Number? then Err(BadNumber)
    else if s.cumulative.value != 0.0 && s.averagePrice.value <= 0.0 then Err(MissingPrice)
    else
      var gross := if s.cumulative.value == 0.0 then 0.0 else Product(s.cumulative.value, s.averagePrice.value);
      if asset.Crypto? then
        if s.cumulative.value != 0.0 then CryptoReading(s, status.value, gross)
        else Ok(Reading(status.value, 0.0, gross, 0.0))
      else if s.fees.Malformed? then Err(BadNumber)
      else
        var fees := if s.fees.Absent? then 0.0 else s.fees.value;
        if fees < 0.0 then Err(InvalidFees)
        else Ok(Reading(status.value, s.cumulative.value, gross, fees))
  }

  predicate Identified(id: OrderId, o: Order, s: Snapshot) {
    && s.side == Some(o.intent.side)
    && (s.symbol.None? || s.symbol.value == o.intent.symbol)
    && (s.refId == "" || s.refId == id || s.refId == o.approvalId)
    && (o.brokerId == "" || s.id == o.brokerId)
  }

  /** The part of a cumulative reading that is new. */
  datatype Fill = Fill(quantity: real, gross: real, fees: real)

  function NewPart(o: Order, r: Reading): Fill {
    Fill(r.quantity - o.filled, r.gross - o.notional, r.fees - o.fees)
  }

  /** A reported open or partial state is not a cancellation failure. */
  function NextStatus(current: Status, reported: Status): Status {
    if current.CancelPending? && Pending(reported) then CancelPending else reported
  }

  function FirstRefusal(id: OrderId, o: Order, s: Snapshot, r: Reading): Option<Refusal> {
    if !Identified(id, o, s) then Some(IdentityMismatch)
    else if r.quantity > o.quantity then Some(Overfill)
    else if r.quantity < o.filled || r.gross < o.notional || r.fees < o.fees then Some(Regression)
    else if !Pending(o.status) && (r.quantity != o.filled || r.status != o.status) then Some(TerminalChanged)
    else if r.status.Filled? && r.quantity <= 0.0 then Some(EmptyFill)
    else None
  }

  function PositionOf(id: OrderId, o: Order): PositionId {
    if o.intent.positionId == "" then id else o.intent.positionId
  }

  function HeldAt(b: Book, p: PositionId, sid: StrategyId): Holding {
    if p in b.holdings then b.holdings[p] else Holding(sid, 0.0, 0.0)
  }

  /** Why a fill cannot be booked. */
  function FillRefusal(b: Book, id: OrderId, o: Order, f: Fill, upTo: real): Option<Refusal>
    requires f.quantity != 0.0
  {
    var p := PositionOf(id, o);
    var held := HeldAt(b, p, o.strategy);
    if f.gross / f.quantity <= 0.0 then Some(IncrementalPrice)
    else if p in b.positions && b.positions[p].strategy != o.strategy then Some(ForeignPosition)
    else if p in b.positions && p !in b.holdings then Some(NoHolding)
    else if o.intent.side.Sell? && (p !in b.positions || !b.positions[p].open || held.quantity < f.quantity)
    then Some(ExitExceedsHolding)
    else if (id, upTo) in b.trades then Some(DuplicateTrade)
    else if o.intent.side.Buy? && p in b.positions && !b.positions[p].open then Some(EntryOnClosed)
    else if o.intent.side.Buy? && held.quantity + f.quantity == 0.0 then Some(ZeroTotal)
    else None
  }

  /** Entry fees join the cost basis; an exit keeps its position's unit cost. */
  function HoldingAfter(held: Holding, side: Side, f: Fill): Holding
    requires side.Buy? ==> held.quantity + f.quantity != 0.0
  {
    if side.Buy? then
      var total := held.quantity + f.quantity;
      held.(quantity := total, unitCost := (held.quantity * held.unitCost + f.gross + f.fees) / total)
    else held.(quantity := held.quantity - f.quantity)
  }

  /** An exit's profit: its proceeds less the cost of the units and the fees. */
  function Realized(held: Holding, f: Fill): real {
    f.gross - f.quantity * held.unitCost - f.fees
  }

  function PnlOf(held: Holding, side: Side, f: Fill): Option<real> {
    if side.Buy? then None else Some(Realized(held, f))
  }

  function PositionAfter(b: Book, p: PositionId, o: Order, after: Holding): Position {
    if o.intent.side.Buy? then (if p in b.positions then b.positions[p] else Position(o.strategy, true))
    else Position(if p in b.positions then b.positions[p].strategy else o.strategy, after.quantity != 0.0)
  }

  function BookRevised(strategies: map<StrategyId, Strategy>, sid: StrategyId): map<StrategyId, Strategy> {
    if sid in strategies then strategies[sid := strategies[sid].(bookRevision := strategies[sid].bookRevision + 1)]
    else strategies
  }

  function BookFill(b: Book, id: OrderId, o: Order, f: Fill, upTo: real): Book
    requires f.quantity != 0.0 && FillRefusal(b, id, o, f, upTo).None?
  {
    var p := PositionOf(id, o);
    var held := HeldAt(b, p, o.strategy);
    var after := HoldingAfter(held, o.intent.side, f);
    b.(trades := b.trades[(id, upTo) := Trade(o.strategy, p, f.quantity, f.gross, f.fees,
                                              PnlOf(held, o.intent.side, f))],
       positions := b.positions[p := PositionAfter(b, p, o, after)],
       holdings := b.holdings[p := after],
       strategies := BookRevised(b.strategies, o.strategy))
  }

  function OrderAfter(o: Order, s: Snapshot, r: Reading): Order {
    o.(brokerId := s.id, status := NextStatus(o.status, r.status), filled := r.quantity, notional := r.gross,
       fees := r.fees)
  }

  function Recorded(b: Book, id: OrderId, o: Order): Book {
    b.(orders := b.orders[id := o], events := b.events + [Event(id, o.status, o.filled)])
  }

  /** One cumulative snapshot, booked whole or not at all. */
  function ApplySnapshot(b: Book, id: OrderId, s: Snapshot, asset: AssetClass): Result<Book, Refusal> {
    var read := Read(s, asset);
    if read.Err? then Err(read.error) else ApplyReading(b, id, s, read.value)
  }

  function ApplyReading(b: Book, id: OrderId, s: Snapshot, r: Reading): Result<Book, Refusal> {
    if id !in b.orders then Err(UnknownOrder)
    else
      var o := b.orders[id];
      var refusal := FirstRefusal(id, o, s, r);
      if refusal.Some? then Err(refusal.value)
      else
        var f := NewPart(o, r);
        if f.quantity == 0.0 then
          if f.gross != 0.0 || f.fees != 0.0 then Err(CashRevision) else Ok(Recorded(b, id, OrderAfter(o, s, r)))
        else
          var fillRefusal := FillRefusal(b, id, o, f, r.quantity);
          if fillRefusal.Some? then Err(fillRefusal.value)
          else Ok(Recorded(BookFill(b, id, o, f, r.quantity), id, OrderAfter(o, s, r)))
  }

  // ---------------------------------------------------------------- risk commit

  /** The compare and set that commits one evaluation's risk state. */
  predicate Current(b: Book, sid: StrategyId, revision: (nat, nat)) {
    sid in b.strategies && revision == (b.strategies[sid].executionRevision, b.strategies[sid].bookRevision)
  }

  function ExecutionRevised(strategies: map<StrategyId, Strategy>, sid: StrategyId): map<StrategyId, Strategy> {
    if sid in strategies
    then strategies[sid := strategies[sid].(executionRevision := strategies[sid].executionRevision + 1)] else strategies
  }

  function CommitRisk(b: Book, sid: StrategyId, revision: (nat, nat)): Book {
    if Current(b, sid, revision) then b.(strategies := ExecutionRevised(b.strategies, sid)) else b
  }

  /** A first allocation, before the strategy has any order, invalidates running evaluations. */
  predicate Allocatable(b: Book, sid: StrategyId) {
    sid in b.strategies && forall j | j in b.orders :: b.orders[j].strategy != sid
  }

  function Allocate(b: Book, sid: StrategyId): Book {
    if Allocatable(b, sid) then b.(strategies := ExecutionRevised(b.strategies, sid)) else b
  }

  // ---------------------------------------------------------------- runs

  /** Each constructor is one committed transaction. A lifecycle step is any change of a
      strategy's status and exit monitor; ExitMonitor says which the program makes. */
  datatype Step =
    | ReserveStep(request: Request)
    | MarkStep(id: OrderId, status: Status, brokerId: string, approvalId: string)
    | SnapshotStep(id: OrderId, snapshot: Snapshot, asset: AssetClass)
    | CommitStep(sid: StrategyId, revision: (nat, nat))
    | AllocateStep(sid: StrategyId)
    | LifecycleStep(sid: StrategyId, lifecycle: Lifecycle, exitMonitor: Option<Mode>)

  function Lifecycles(b: Book, sid: StrategyId, lifecycle: Lifecycle, exitMonitor: Option<Mode>): Book {
    if sid in b.strategies
    then b.(strategies := b.strategies[sid := b.strategies[sid].(status := lifecycle, exitMonitor := exitMonitor)])
    else b
  }

  /** A refused transaction leaves the book as it was. */
  function Next(b: Book, step: Step): Book {
    match step
    case ReserveStep(r) => Reserve(b, r)
    case MarkStep(id, status, brokerId, approvalId) => Mark(b, id, status, brokerId, approvalId)
    case SnapshotStep(id, s, asset) =>
      var applied := ApplySnapshot(b, id, s, asset);
      if applied.Ok? then applied.value else b
    case CommitStep(sid, revision) => CommitRisk(b, sid, revision)
    case AllocateStep(sid) => Allocate(b, sid)
    case LifecycleStep(sid, lifecycle, exitMonitor) => Lifecycles(b, sid, lifecycle, exitMonitor)
  }

  function Run(b: Book, steps: seq<Step>): Book
    decreases |steps|
  {
    if steps == [] then b else Run(Next(b, steps[0]), steps[1..])
  }

  /** Strategies are recorded; nothing has been ordered or filled. */
  predicate Fresh(b: Book) {
    b.orders == map[] && b.positions == map[] && b.holdings == map[] && b.trades == map[]
  }
}
