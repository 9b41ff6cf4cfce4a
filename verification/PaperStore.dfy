/** The simulated book's tables: the transaction that books a fill, and the inputs of an evaluation. */
module PaperStore {
  import opened Sums
  import opened BrokerBook
  import opened PaperBook

  datatype Report = Report(cash: real, complete: bool, held: set<PositionId>, closed: set<PositionId>)

  ghost function HeldOf(positions: map<PositionId, PaperPosition>, sid: StrategyId): set<PositionId> {
    set p | p in positions && positions[p].strategy == sid && positions[p].exit.None?
  }

  ghost function ClosedOf(positions: map<PositionId, PaperPosition>, sid: StrategyId): set<PositionId> {
    set p | p in positions && positions[p].strategy == sid && positions[p].exit.Some?
  }

  class PaperJournal {
    var strategies: map<StrategyId, Strategy>
    var capitals: map<StrategyId, real>
    var trades: map<TradeId, PaperTrade>
    var positions: map<PositionId, PaperPosition>
    var fills: map<(StrategyId, string), TradeId>

    ghost function Rows(): PaperRows
      reads this
    {
      PaperRows(strategies, capitals, trades, positions, fills)
    }

    /** Books one simulated fill, its position and its deduplication key, or nothing. */
    method Fill(r: PaperIntent) returns (booked: bool)
      modifies this
      ensures booked == Fillable(old(Rows()), r)
      ensures Rows() == PaperBook.Fill(old(Rows()), r)
    {
      booked := false;
      if r.position == "" || r.key == "" || (r.action.Enter? && r.side.Sell?) || (r.action.Exit? && r.side.Buy?)
         || r.quantity <= 0.0 || r.price <= 0.0 {
        return;
      }
      if r.strategy !in strategies
         || r.revision != (strategies[r.strategy].executionRevision, strategies[r.strategy].bookRevision) {
        return;
      }
      if (r.strategy, r.key) in fills {
        return;
      }
      var s := strategies[r.strategy];
      if r.action.Enter? {
        if !s.status.Paper? || r.position in positions || !r.prospective || r.legacy {
          return;
        }
        if r.strategy !in capitals {
          return;
        }
        var moved := SumFlows(r.strategy);
        if Amount(r.quantity, r.price) > capitals[r.strategy] + moved {
          return;
        }
      } else {
        if !s.status.Paper? && s.exitMonitor != Some(PaperMode) {
          return;
        }
        if r.position !in positions || positions[r.position].strategy != r.strategy
           || positions[r.position].exit.Some? {
          return;
        }
        if positions[r.position].entry !in trades || r.quantity != positions[r.position].quantity {
          return;
        }
      }
      if r.trade in trades {
        return;
      }
      BookRows(r);
      booked := true;
    }

    method BookRows(r: PaperIntent)
      requires r.action.Exit? ==> r.position in positions
      modifies this
      ensures Rows()
              == PaperRows(BookRevised(old(strategies), r.strategy), old(capitals),
                           old(trades)[r.trade := TradeOf(old(Rows()), r)],
                           old(positions)[r.position := PaperBook.PositionOf(old(Rows()), r)],
                           old(fills)[(r.strategy, r.key) := r.trade])
    {
      var pnl: Option<real> := None;
      if r.action.Exit? {
        pnl := Some(Profit(positions[r.position], r.quantity, r.price));
      }
      trades := trades[r.trade := PaperTrade(r.strategy, r.action, r.position, r.key, r.quantity, r.price, pnl)];
      if r.action.Enter? {
        positions := positions[r.position := PaperPosition(r.strategy, r.trade, None, r.quantity, r.price)];
      } else {
        positions := positions[r.position := positions[r.position].(exit := Some(r.trade))];
      }
      fills := fills[(r.strategy, r.key) := r.trade];
      if r.strategy in strategies {
        strategies :=
          strategies[r.strategy := strategies[r.strategy].(bookRevision := strategies[r.strategy].bookRevision + 1)];
      }
    }

    method SumFlows(sid: StrategyId) returns (moved: real)
      ensures moved == Moved(Rows(), sid)
    {
      moved := 0.0;
      var rest := trades.Keys;
      ghost var column, seen := PaperFlows(trades, sid), map[];
      while rest != {}
        invariant rest <= trades.Keys
        invariant seen == map t | t in trades && t !in rest :: column[t]
        invariant moved == Total(seen)
      {
        var t :| t in rest;
        if trades[t].strategy == sid {
          moved := moved + PaperFlow(trades[t]);
        }
        TotalSet(seen, t, column[t]);
        seen, rest := seen[t := column[t]], rest - {t};
      }
      assert seen == column;
    }

    /** Funds a strategy once, then reads its book. In every reachable state the history is found
        complete and the cash is not negative. */
    method Inputs(sid: StrategyId, initial: real) returns (report: Option<Report>)
      modifies this`capitals
      ensures report.None? <==> initial <= 0.0
      ensures Rows() == PaperNext(old(Rows()), PaperBook.FundStep(sid, initial))
      ensures report.Some? ==> sid in capitals && report.value.cash == capitals[sid] + Moved(Rows(), sid)
      ensures report.Some? && PaperSound(old(Rows())) ==>
                && report.value.complete && report.value.cash >= 0.0
                && report.value.held == HeldOf(positions, sid) && report.value.closed == ClosedOf(positions, sid)
    {
      if initial <= 0.0 {
        return None;
      }
      ghost var before := Rows();
      if sid !in capitals {
        capitals := capitals[sid := initial];
      }
      if PaperSound(before) {
        PaperNextSound(before, PaperBook.FundStep(sid, initial));
        assert MoneySound(Rows(), sid);
      }
      var moved := SumFlows(sid);
      var cash := capitals[sid] + moved;
      var whole := FillsComplete(sid);
      var held, closed, known := Classify(sid);
      report := Some(Report(cash, whole && known && cash >= 0.0, held, closed));
    }

    /** Every fill is a buying entry, or a selling exit with a profit. */
    method FillsComplete(sid: StrategyId) returns (complete: bool)
      ensures PaperSound(Rows()) ==> complete
    {
      complete := true;
      var rest := trades.Keys;
      while rest != {}
        invariant rest <= trades.Keys
        invariant PaperSound(Rows()) ==> complete
      {
        var t :| t in rest;
        assert PaperSound(Rows()) ==> TradeSound(Rows(), t);
        if trades[t].strategy == sid && trades[t].action.Exit? && trades[t].pnl.None? {
          complete := false;
        }
        rest := rest - {t};
      }
    }

    /** Open and closed positions whose trades are on record. */
    method Classify(sid: StrategyId) returns (held: set<PositionId>, closed: set<PositionId>, complete: bool)
      ensures PaperSound(Rows()) ==>
                && complete
                && held == HeldOf(positions, sid) && closed == ClosedOf(positions, sid)
    {
      held, closed, complete := {}, {}, true;
      var rest := positions.Keys;
      while rest != {}
        invariant rest <= positions.Keys
        invariant PaperSound(Rows()) ==> complete
        invariant PaperSound(Rows()) ==> held == HeldOf(positions, sid) - rest
        invariant PaperSound(Rows()) ==> closed == ClosedOf(positions, sid) - rest
      {
        var p :| p in rest;
        var k := positions[p];
        assert PaperSound(Rows()) ==> PositionSound(Rows(), p);
        assert PaperSound(Rows()) && k.exit.Some? ==> TradeSound(Rows(), k.exit.value);
        if k.strategy == sid {
          if k.entry !in trades {
            complete := false;
          } else if k.exit.None? {
            held := held + {p};
          } else if k.exit.value !in trades || trades[k.exit.value].pnl.None? {
            complete := false;
          } else {
            closed := closed + {p};
          }
        }
        rest := rest - {p};
      }
    }
  }
}
