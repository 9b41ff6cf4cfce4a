/** The simulated book: cash, positions and fills of stateless paper strategies. */
module PaperBook {
  import opened Sums
  import opened BrokerBook

  type TradeId = string

  datatype PaperTrade = PaperTrade(strategy: StrategyId, action: Action, position: PositionId, key: string,
                                   quantity: real, price: real, pnl: Option<real>)

  /** A position is open until it has an exit. */
  datatype PaperPosition = PaperPosition(strategy: StrategyId, entry: TradeId, exit: Option<TradeId>, quantity: real,
                                         price: real)

  /** `fills` is the primary key of the fill table: one row per strategy and engine order. */
  datatype PaperRows = PaperRows(strategies: map<StrategyId, Strategy>, capitals: map<StrategyId, real>,
                                 trades: map<TradeId, PaperTrade>,
                                 positions: map<PositionId, PaperPosition>, fills: map<(StrategyId, string), TradeId>)

  /** `prospective`: the engine's unconfirmed template of this very position came with the intent;
      `legacy`: the strategy has a simulated trade from before the journal. */
  datatype PaperIntent = PaperIntent(strategy: StrategyId, action: Action, side: Side, position: PositionId,
                                     key: string, quantity: real, price: real, prospective: bool, legacy: bool,
                                     revision: (nat, nat), trade: TradeId)

  // ---------------------------------------------------------------- totals

  function Amount(quantity: real, price: real): real {
    quantity * price
  }

  function PaperFlow(t: PaperTrade): real {
    if t.action.Enter? then -Amount(t.quantity, t.price) else Amount(t.quantity, t.price)
  }

  ghost function PaperFlows(trades: map<TradeId, PaperTrade>, sid: StrategyId): map<TradeId, real> {
    map t | t in trades :: if trades[t].strategy == sid then PaperFlow(trades[t]) else 0.0
  }

  ghost function PaperPnls(trades: map<TradeId, PaperTrade>, sid: StrategyId): map<TradeId, real> {
    map t | t in trades :: if trades[t].strategy == sid && trades[t].pnl.Some? then trades[t].pnl.value else 0.0
  }

  function PaperCost(p: PaperPosition): real {
    if p.exit.None? then Amount(p.quantity, p.price) else 0.0
  }

  ghost function PaperCosts(positions: map<PositionId, PaperPosition>, sid: StrategyId): map<PositionId, real> {
    map p | p in positions :: if positions[p].strategy == sid then PaperCost(positions[p]) else 0.0
  }

  ghost function Moved(b: PaperRows, sid: StrategyId): real {
    Total(PaperFlows(b.trades, sid))
  }

  // ---------------------------------------------------------------- one fill

  ghost predicate EntryFillable(b: PaperRows, r: PaperIntent)
    requires r.strategy in b.strategies
  {
    && b.strategies[r.strategy].status.Paper? && r.position !in b.positions && r.prospective && !r.legacy
    && r.strategy in b.capitals && Amount(r.quantity, r.price) <= b.capitals[r.strategy] + Moved(b, r.strategy)
  }

  /** An exit takes exactly the quantity the strategy's own open position holds. */
  predicate ExitFillable(b: PaperRows, r: PaperIntent)
    requires r.strategy in b.strategies
  {
    && (b.strategies[r.strategy].status.Paper? || b.strategies[r.strategy].exitMonitor == Some(PaperMode))
    && r.position in b.positions && b.positions[r.position].strategy == r.strategy && b.positions[r.position].exit.None?
    && b.positions[r.position].entry in b.trades && r.quantity == b.positions[r.position].quantity
  }

  predicate WellMade(r: PaperIntent) {
    r.position != "" && r.key != "" && (r.action.Enter? <==> r.side.Buy?) && r.quantity > 0.0 && r.price > 0.0
  }

  ghost predicate Fillable(b: PaperRows, r: PaperIntent) {
    && WellMade(r) && r.strategy in b.strategies
    && r.revision == (b.strategies[r.strategy].executionRevision, b.strategies[r.strategy].bookRevision)
    && (r.strategy, r.key) !in b.fills && r.trade !in b.trades
    && (if r.action.Enter? then EntryFillable(b, r) else ExitFillable(b, r))
  }

  function Profit(p: PaperPosition, quantity: real, price: real): real {
    quantity * (price - p.price)
  }

  function TradeOf(b: PaperRows, r: PaperIntent): PaperTrade
    requires r.action.Exit? ==> r.position in b.positions
  {
    PaperTrade(r.strategy, r.action, r.position, r.key, r.quantity, r.price,
               if r.action.Enter? then None else Some(Profit(b.positions[r.position], r.quantity, r.price)))
  }

  function PositionOf(b: PaperRows, r: PaperIntent): PaperPosition
    requires r.action.Exit? ==> r.position in b.positions
  {
    if r.action.Enter? then PaperPosition(r.strategy, r.trade, None, r.quantity, r.price)
    else b.positions[r.position].(exit := Some(r.trade))
  }

  ghost function Fill(b: PaperRows, r: PaperIntent): PaperRows {
    if !Fillable(b, r) then b
    else PaperRows(BookRevised(b.strategies, r.strategy), b.capitals, b.trades[r.trade := TradeOf(b, r)],
                   b.positions[r.position := PositionOf(b, r)], b.fills[(r.strategy, r.key) := r.trade])
  }

  datatype PaperStep =
    | FillStep(intent: PaperIntent)
    | FundStep(sid: StrategyId, capital: real)
    | PaperCommitStep(sid: StrategyId, revision: (nat, nat))
    | PaperLifecycleStep(sid: StrategyId, lifecycle: Lifecycle, exitMonitor: Option<Mode>)

  ghost function PaperNext(b: PaperRows, step: PaperStep): PaperRows {
    match step
    case FillStep(r) => Fill(b, r)
    case FundStep(sid, capital) =>
      if capital <= 0.0 || sid in b.capitals then b else b.(capitals := b.capitals[sid := capital])
    case PaperCommitStep(sid, revision) =>
      if sid in b.strategies && revision == (b.strategies[sid].executionRevision, b.strategies[sid].bookRevision)
      then b.(strategies := b.strategies[sid := b.strategies[sid].(executionRevision := revision.0 + 1)]) else b
    case PaperLifecycleStep(sid, lifecycle, exitMonitor) =>
      if sid in b.strategies
      then b.(strategies := b.strategies[sid := b.strategies[sid].(status := lifecycle,
                                                                   exitMonitor := exitMonitor)]) else b
  }

  ghost function PaperRun(b: PaperRows, steps: seq<PaperStep>): PaperRows
    decreases |steps|
  {
    if steps == [] then b else PaperRun(PaperNext(b, steps[0]), steps[1..])
  }

  // ---------------------------------------------------------------- what every state keeps

  predicate TradeSound(b: PaperRows, t: TradeId)
    requires t in b.trades
  {
    var k := b.trades[t];
    && k.quantity > 0.0 && k.price > 0.0 && k.position in b.positions && b.positions[k.position].strategy == k.strategy
    && (k.strategy, k.key) in b.fills && b.fills[(k.strategy, k.key)] == t
    && k.quantity == b.positions[k.position].quantity
    && (if k.action.Enter?
        then b.positions[k.position].entry == t && k.price == b.positions[k.position].price && k.pnl.None?
        else b.positions[k.position].exit == Some(t) && k.pnl.Some?)
  }

  predicate PositionSound(b: PaperRows, p: PositionId)
    requires p in b.positions
  {
    var k := b.positions[p];
    && k.entry in b.trades && b.trades[k.entry].action.Enter? && b.trades[k.entry].position == p
    && b.trades[k.entry].strategy == k.strategy
    && (k.exit.Some?
       ==> k.exit.value in b.trades && b.trades[k.exit.value].action.Exit? && b.trades[k.exit.value].position == p)
  }

  ghost predicate MoneySound(b: PaperRows, sid: StrategyId) {
    && (sid in b.capitals ==> b.capitals[sid] + Moved(b, sid) >= 0.0)
    && (sid !in b.capitals ==> forall t | t in b.trades :: b.trades[t].strategy != sid)
    && Moved(b, sid) + Total(PaperCosts(b.positions, sid)) == Total(PaperPnls(b.trades, sid))
  }

  ghost predicate PaperSound(b: PaperRows) {
    && (forall t | t in b.trades :: TradeSound(b, t))
    && (forall p | p in b.positions :: PositionSound(b, p))
    && (forall sid :: MoneySound(b, sid))
  }

  lemma PaperFlowsSet(trades: map<TradeId, PaperTrade>, t: TradeId, k: PaperTrade, sid: StrategyId)
    requires t !in trades
    ensures Total(PaperFlows(trades[t := k], sid))
            == Total(PaperFlows(trades, sid)) + (if k.strategy == sid then PaperFlow(k) else 0.0)
  {
    var v := if k.strategy == sid then PaperFlow(k) else 0.0;
    assert PaperFlows(trades[t := k], sid) == PaperFlows(trades, sid)[t := v];
    TotalSet(PaperFlows(trades, sid), t, v);
  }

  lemma PaperPnlsSet(trades: map<TradeId, PaperTrade>, t: TradeId, k: PaperTrade, sid: StrategyId)
    requires t !in trades
    ensures Total(PaperPnls(trades[t := k], sid)) ==
            Total(PaperPnls(trades, sid)) + (if k.strategy == sid && k.pnl.Some? then k.pnl.value else 0.0)
  {
    var v := if k.strategy == sid && k.pnl.Some? then k.pnl.value else 0.0;
    assert PaperPnls(trades[t := k], sid) == PaperPnls(trades, sid)[t := v];
    TotalSet(PaperPnls(trades, sid), t, v);
  }

  lemma PaperCostsSet(positions: map<PositionId, PaperPosition>, p: PositionId, k: PaperPosition, sid: StrategyId)
    ensures Total(PaperCosts(positions[p := k], sid)) == Total(PaperCosts(positions, sid))
              - (if p in positions && positions[p].strategy == sid then PaperCost(positions[p]) else 0.0)
              + (if k.strategy == sid then PaperCost(k) else 0.0)
  {
    var v := if k.strategy == sid then PaperCost(k) else 0.0;
    assert PaperCosts(positions[p := k], sid) == PaperCosts(positions, sid)[p := v];
    TotalSet(PaperCosts(positions, sid), p, v);
  }

  /** Cash, cost and profit of one fill cancel. */
  lemma FillCancels(b: PaperRows, r: PaperIntent)
    requires Fillable(b, r)
    ensures var was := if r.position in b.positions then PaperCost(b.positions[r.position]) else 0.0;
            var pnl := TradeOf(b, r).pnl;
            PaperFlow(TradeOf(b, r)) + PaperCost(PositionOf(b, r)) == was + (if pnl.Some? then pnl.value else 0.0)
  {
    if r.action.Exit? {
      var p := b.positions[r.position];
      assert r.quantity * (r.price - p.price) == r.quantity * r.price - r.quantity * p.price;
    }
  }

  lemma FillMoney(b: PaperRows, r: PaperIntent, sid: StrategyId)
    requires Fillable(b, r) && MoneySound(b, sid)
             && (r.action.Exit? ==> PositionSound(b, r.position) && MoneySound(b, r.strategy))
    ensures MoneySound(Fill(b, r), sid)
  {
    PaperFlowsSet(b.trades, r.trade, TradeOf(b, r), sid);
    PaperPnlsSet(b.trades, r.trade, TradeOf(b, r), sid);
    PaperCostsSet(b.positions, r.position, PositionOf(b, r), sid);
    FillCancels(b, r);
    PositiveAmount(r.quantity, r.price);
  }

  lemma PositiveAmount(quantity: real, price: real)
    requires quantity > 0.0 && price > 0.0
    ensures Amount(quantity, price) > 0.0
  {
  }

  lemma FillTables(b: PaperRows, r: PaperIntent)
    requires PaperSound(b) && Fillable(b, r)
    ensures forall t | t in Fill(b, r).trades :: TradeSound(Fill(b, r), t)
    ensures forall p | p in Fill(b, r).positions :: PositionSound(Fill(b, r), p)
  {
    FillTrades(b, r);
    FillPositions(b, r);
  }

  lemma FillTrades(b: PaperRows, r: PaperIntent)
    requires PaperSound(b) && Fillable(b, r)
    ensures forall t | t in Fill(b, r).trades :: TradeSound(Fill(b, r), t)
  {
    var b' := Fill(b, r);
    assert r.position in b.positions ==> PositionSound(b, r.position);
    forall t | t in b'.trades ensures TradeSound(b', t) {
      assert t in b.trades ==> TradeSound(b, t);
    }
  }

  lemma FillPositions(b: PaperRows, r: PaperIntent)
    requires PaperSound(b) && Fillable(b, r)
    ensures forall p | p in Fill(b, r).positions :: PositionSound(Fill(b, r), p)
  {
    var b' := Fill(b, r);
    assert r.position in b.positions ==> PositionSound(b, r.position);
    forall p | p in b'.positions ensures PositionSound(b', p) {
      assert p in b.positions ==> PositionSound(b, p);
    }
  }

  lemma PaperNextSound(b: PaperRows, step: PaperStep)
    requires PaperSound(b)
    ensures PaperSound(PaperNext(b, step))
  {
    var b' := PaperNext(b, step);
    if step.FillStep? && Fillable(b, step.intent) {
      FillTables(b, step.intent);
      assert step.intent.position in b.positions ==> PositionSound(b, step.intent.position);
      forall sid ensures MoneySound(b', sid) {
        assert MoneySound(b, sid) && MoneySound(b, step.intent.strategy);
        FillMoney(b, step.intent, sid);
      }
    } else {
      OtherTables(b, step);
      forall t | t in b'.trades ensures TradeSound(b', t) {
        assert TradeSound(b, t);
      }
      forall p | p in b'.positions ensures PositionSound(b', p) {
        assert PositionSound(b, p);
      }
      forall sid ensures MoneySound(b', sid) {
        assert MoneySound(b, sid);
        NothingMoved(b, sid);
      }
    }
  }

  lemma OtherTables(b: PaperRows, step: PaperStep)
    requires step.FillStep? ==> !Fillable(b, step.intent)
    ensures var b' := PaperNext(b, step);
            && b'.trades == b.trades && b'.positions == b.positions && b'.fills == b.fills
            && forall sid | sid in b'.capitals ::
                 if sid in b.capitals then b'.capitals[sid] == b.capitals[sid] else b'.capitals[sid] > 0.0
    ensures forall sid | sid in b.capitals :: sid in PaperNext(b, step).capitals
  {
  }

  lemma NothingMoved(b: PaperRows, sid: StrategyId)
    ensures (forall t | t in b.trades :: b.trades[t].strategy != sid) ==> Moved(b, sid) == 0.0
  {
    if forall t | t in b.trades :: b.trades[t].strategy != sid {
      TotalZero(PaperFlows(b.trades, sid));
    }
  }

  predicate PaperFresh(b: PaperRows) {
    b.trades == map[] && b.positions == map[] && b.fills == map[] && b.capitals == map[]
  }

  lemma {:induction false} PaperRunSound(b: PaperRows, steps: seq<PaperStep>)
    requires PaperSound(b)
    ensures PaperSound(PaperRun(b, steps))
    decreases |steps|
  {
    if steps != [] {
      PaperNextSound(b, steps[0]);
      PaperRunSound(PaperNext(b, steps[0]), steps[1..]);
    }
  }

  lemma PaperFreshSound(b: PaperRows)
    requires PaperFresh(b)
    ensures PaperSound(b)
  {
    forall s ensures MoneySound(b, s) {
      NothingMoved(b, s);
      TotalZero(PaperCosts(b.positions, s));
      TotalZero(PaperPnls(b.trades, s));
    }
  }

  /** From a fresh book, whatever is funded, filled or refused in whatever order: cash is never
      negative, cash and open positions make up capital and profit, a position has one entry and
      at most one exit, for its whole quantity, and an engine order fills at most once. */
  lemma PaperHolds(b: PaperRows, steps: seq<PaperStep>, sid: StrategyId, t: TradeId, u: TradeId)
    requires PaperFresh(b)
    ensures var now := PaperRun(b, steps);
            && (sid in now.capitals ==> now.capitals[sid] + Moved(now, sid) >= 0.0)
            && Moved(now, sid) + Total(PaperCosts(now.positions, sid)) == Total(PaperPnls(now.trades, sid))
            && (t in now.trades && u in now.trades && t != u ==>
                  && (now.trades[t].position == now.trades[u].position ==> now.trades[t].action != now.trades[u].action)
                  && (now.trades[t].strategy == now.trades[u].strategy ==> now.trades[t].key != now.trades[u].key))
            && (t in now.trades && now.trades[t].action.Exit? ==>
                  now.trades[t].position in now.positions
                  && now.trades[t].quantity == now.positions[now.trades[t].position].quantity)
  {
    PaperFreshSound(b);
    PaperRunSound(b, steps);
    var now := PaperRun(b, steps);
    assert MoneySound(now, sid);
    assert t in now.trades ==> TradeSound(now, t);
    assert u in now.trades ==> TradeSound(now, u);
  }
}
