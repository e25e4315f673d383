/** What the backtest reports at its end: every point of the curve is the equity at its bar's close, and the position
    left open after the last bar is worth what that close says, less the costs of leaving. */
module BacktestEnd {
  import opened Market
  import opened PnlEngine
  import opened PositionManager
  import opened Accounting
  import opened PaperLoop
  import opened Backtest
  import opened BacktestOrder
  import opened Prices
  import Drawdowns

  /** Cash and, of a position already entered, the distance from its entry price on its own side. */
  function Worth(st: Bt, i: nat, price: real): real {
    if st.pos.None? || st.pos.value.entryIndex > i then st.balance
    else if st.pos.value.side.Long? then st.balance + (price - st.pos.value.entryPrice) * st.pos.value.quantity
    else st.balance + (st.pos.value.entryPrice - price) * st.pos.value.quantity
  }

  /** An iteration that is not cut short by a death appends the equity at its bar's close, leaves the loop exactly when
      nothing is left of it, and keeps the peak. */
  lemma IterationMarks(st: Bt, d: Data, cfg: Config, i: nat)
    requires i < |d.bars| && !st.stopped && d.strategy.context(d.Prefix(i)).Some?
    requires !BtManage(BtRollDay(st, d, i), d, cfg, i).dead
    ensures var m := BtIterate(st, d, cfg, i); var e := Worth(m, i, d.bars[i].close);
      && m.curve == st.curve + [e] && m.peakEquity == Max(st.peakEquity, e) && (m.stopped <==> e <= 0.0)
      && (e <= 0.0 ==> m.dead)
  {
    hide BtManage, BtSignal, BtUpnl, Worth;
    var r := BtRollDay(st, d, i);
    var c := BtManage(r, d, cfg, i);
    var s := BtSignal(c, d, cfg, i, Held(r, i) && c.pos.None?, d.strategy.context(d.Prefix(i)).value);
    WorthIsTheMark(s, BtMark(s, d, i), i, d.bars[i].close);
    KeepsCurve(r, d, cfg, i, Held(r, i) && c.pos.None?, d.strategy.context(d.Prefix(i)).value);
  }

  lemma WorthIsTheMark(s: Bt, m: Bt, i: nat, price: real)
    requires m.pos == s.pos && m.balance == s.balance
    ensures s.balance + (if Held(s, i) then BtUpnl(s.pos.value, price) else 0.0) == Worth(m, i, price)
  {}

  lemma KeepsCurve(r: Bt, d: Data, cfg: Config, i: nat, exited: bool, intent: Intent)
    requires i < |d.bars|
    ensures var s := BtSignal(BtManage(r, d, cfg, i), d, cfg, i, exited, intent);
      s.curve == r.curve && s.peakEquity == r.peakEquity
  {
    hide EvaluateBar, Liquidatable, BtLevels, AdvanceExtremes, ExitQuote, LiquidationPenalty, ComputeTradePnL,
      SettleClose, EntryQuantity, EntryQuote, BtCharge;
  }

  /** Until the loop is left, the peak is the highest of the starting equity and all points. */
  lemma {:induction false} PeakIsHighest(d: Data, cfg: Config, i: nat)
    requires i <= |d.bars|
    ensures var st := BtRun(d, cfg, i);
      !st.stopped ==> Drawdowns.IsHighest([d.start] + st.curve, st.peakEquity)
  {
    hide BtIterate;
    if d.first < i {
      PeakIsHighest(d, cfg, i - 1);
      var st := BtRun(d, cfg, i - 1);
      if !st.stopped && d.strategy.context(d.Prefix(i - 1)).Some? {
        PeakStep(st, d, cfg, i - 1);
      } else {
        NotVisited(st, d, cfg, i - 1);
      }
    }
  }

  lemma NotVisited(st: Bt, d: Data, cfg: Config, i: nat)
    requires i < |d.bars| && (st.stopped || d.strategy.context(d.Prefix(i)).None?)
    ensures BtIterate(st, d, cfg, i) == st
  {}

  lemma PeakStep(st: Bt, d: Data, cfg: Config, i: nat)
    requires i < |d.bars| && !st.stopped && d.strategy.context(d.Prefix(i)).Some?
    requires Drawdowns.IsHighest([d.start] + st.curve, st.peakEquity)
    ensures var m := BtIterate(st, d, cfg, i); !m.stopped ==> Drawdowns.IsHighest([d.start] + m.curve, m.peakEquity)
  {
    if BtManage(BtRollDay(st, d, i), d, cfg, i).dead {
      DeathLeaves(st, d, cfg, i);
    } else {
      hide BtIterate;
      IterationMarks(st, d, cfg, i);
      var m := BtIterate(st, d, cfg, i);
      var was, now := [d.start] + st.curve, [d.start] + m.curve;
      assert now == was + [m.curve[|st.curve|]];
    }
  }

  lemma DeathLeaves(st: Bt, d: Data, cfg: Config, i: nat)
    requires i < |d.bars| && !st.stopped && d.strategy.context(d.Prefix(i)).Some?
    requires BtManage(BtRollDay(st, d, i), d, cfg, i).dead
    ensures BtIterate(st, d, cfg, i).stopped
  {
    hide BtManage;
  }

  // ---------------------------------------------------------------- the end-of-data close

  /** What leaving at `close` costs: the slippage against the account and the taker fee. */
  function LeavingCosts(p: BtPos, close: real, cfg: Config): real {
    var exit := Against(p.side.Short?, close, OrderSlippage(p.quantity, close, MarketOrder, cfg.costs));
    (if p.side.Long? then close - exit else exit - close) * p.quantity + exit * p.quantity * cfg.costs.taker
  }

  /** A position open after the last bar leaves at that bar's close: the final cash is the equity there less the costs
      of leaving, floored at nothing with the shortfall recorded, and it is the last point of the curve. */
  lemma EndIsWorthTheLastClose(d: Data, cfg: Config)
    requires d.Valid() && d.last > 0 && BtRun(d, cfg, d.last).pos.Some? && !BtRun(d, cfg, d.last).dead
    ensures var st, b := BtRun(d, cfg, d.last), BtFinish(BtRun(d, cfg, d.last), d, cfg);
      var close := d.bars[d.last - 1].close;
      var left := Worth(st, d.last - 1, close) - LeavingCosts(st.pos.value, close, cfg);
      && b.pos.None? && b.balance == Max(0.0, left) && b.totalBadDebt == st.totalBadDebt + Max(0.0, -left)
      && |b.trades| == |st.trades| + 1 && b.trades[|st.trades|].exitIndex == d.last - 1
      && (st.curve != [] ==> b.curve == st.curve[..|st.curve| - 1] + [b.balance])
  {
    hide BtRun;
    RunIsOrdered(d, cfg, d.last);
    var st := BtRun(d, cfg, d.last);
    ClosesFor(st, d, cfg, st.pos.value, d.bars[d.last - 1].close, d.last - 1);
  }

  lemma ClosesFor(st: Bt, d: Data, cfg: Config, p: BtPos, close: real, at: int)
    requires st.pos == Some(p) && 0 <= p.entryIndex <= at
    ensures var b, left := BtClose(st, d, cfg, p, close, MarketOrder, EndOfData, at),
                           Worth(st, at, close) - LeavingCosts(p, close, cfg);
      && b.pos.None? && b.curve == st.curve && b.balance == Max(0.0, left)
      && b.totalBadDebt == st.totalBadDebt + Max(0.0, -left)
      && |b.trades| == |st.trades| + 1 && b.trades[|st.trades|].exitIndex == at
  {
    hide OrderSlippage, CooldownBars, BtBankruptcyLevel, ExitPrice, LeavingCosts, BtBook, BtClose, SettleClose, Worth,
      Direction;
    WorthOf(st, p, at, close);
    CostsAreFractions(p.side, p.quantity, close, MarketOrder, cfg.costs);
    var exit := ExitPrice(p.side, p.quantity, close, MarketOrder, cfg.costs);
    Leaves(p, st.balance, close, exit, cfg);
    Books(st, d, cfg, p, exit, exit * p.quantity * cfg.costs.taker, at);
    LeavesWithTheTakerFee(st, d, cfg, p, close, at, exit, exit * p.quantity * cfg.costs.taker);
  }

  lemma LeavesWithTheTakerFee(st: Bt, d: Data, cfg: Config, p: BtPos, close: real, at: int, exit: real, fee: real)
    requires exit == ExitPrice(p.side, p.quantity, close, MarketOrder, cfg.costs)
    requires fee == exit * p.quantity * cfg.costs.taker
    ensures BtClose(st, d, cfg, p, close, MarketOrder, EndOfData, at) == BtBook(st, d, cfg, p, exit, fee, EndOfData, at)
  {
    hide BtBook, ExitPrice;
    var quote := ExitQuote(p.side, p.quantity, close, MarketOrder, cfg.costs);
    assert quote.price == exit;
    assert quote.fee + LiquidationPenalty(MarketOrder, quote.price, p.quantity, cfg.costs) == fee;
  }

  lemma Books(st: Bt, d: Data, cfg: Config, p: BtPos, exit: real, fee: real, at: int)
    ensures var b := BtBook(st, d, cfg, p, exit, fee, EndOfData, at);
      var raw := st.balance + (exit - p.entryPrice) * p.quantity * Direction(p.side) - fee;
      && b.pos.None? && b.curve == st.curve && b.balance == Max(0.0, raw)
      && b.totalBadDebt == st.totalBadDebt + Max(0.0, -raw)
      && |b.trades| == |st.trades| + 1 && b.trades[|st.trades|].exitIndex == at
  {
    hide CooldownBars, BtBankruptcyLevel;
  }

  /** What the close brings, less its fee. */
  lemma Leaves(p: BtPos, balance: real, close: real, exit: real, cfg: Config)
    requires var s := OrderSlippage(p.quantity, close, MarketOrder, cfg.costs);
      exit == close * (if p.side.Long? then 1.0 - s else 1.0 + s)
    ensures balance + (exit - p.entryPrice) * p.quantity * Direction(p.side) - exit * p.quantity * cfg.costs.taker
         == (if p.side.Long? then balance + (close - p.entryPrice) * p.quantity
             else balance + (p.entryPrice - close) * p.quantity) - LeavingCosts(p, close, cfg)
  {
    hide OrderSlippage;
    var moved := if p.side.Long? then close - exit else exit - close;
    assert (exit - p.entryPrice) * p.quantity * Direction(p.side)
        == (close - p.entryPrice) * p.quantity * Direction(p.side) - moved * p.quantity;
  }

  lemma WorthOf(st: Bt, p: BtPos, i: int, price: real)
    requires st.pos == Some(p) && 0 <= p.entryIndex <= i
    ensures Worth(st, i, price) == if p.side.Long? then st.balance + (price - p.entryPrice) * p.quantity
                                   else st.balance + (p.entryPrice - price) * p.quantity
  {}

  /** Without costs the close leaves the curve where the last mark put it. */
  lemma FreeEndKeepsTheCurve(d: Data, cfg: Config)
    requires d.Valid() && d.last > d.first && BtRun(d, cfg, d.last).pos.Some? && !BtRun(d, cfg, d.last).dead
    requires d.strategy.context(d.Prefix(d.last - 1)).Some?
    requires cfg.costs == Costs(0.0, 0.0, 0.0, 0.0, 0.0, 0.0)
    ensures BtFinish(BtRun(d, cfg, d.last), d, cfg).curve == BtRun(d, cfg, d.last).curve
  {
    hide BtIterate, BtFinish, BtManage, LeavingCosts, Worth, BtRollDay;
    var was, st := BtRun(d, cfg, d.last - 1), BtRun(d, cfg, d.last);
    StoppedIsDead(d, cfg, d.last - 1);
    StoppedIsDead(d, cfg, d.last);
    LastIsVisited(was, d, cfg, d.last - 1);
    IterationMarks(was, d, cfg, d.last - 1);
    EndIsWorthTheLastClose(d, cfg);
    LeavingIsFree(st.pos.value, d.bars[d.last - 1].close, cfg);
    var e := Worth(st, d.last - 1, d.bars[d.last - 1].close);
    SamePoint(was.curve, st.curve, BtFinish(st, d, cfg).curve, e, BtFinish(st, d, cfg).balance);
  }

  lemma SamePoint(was: seq<real>, now: seq<real>, end: seq<real>, e: real, balance: real)
    requires now == was + [e] && end == now[..|now| - 1] + [balance] && balance == e
    ensures end == now
  {}

  lemma LeavingIsFree(p: BtPos, close: real, cfg: Config)
    requires cfg.costs == Costs(0.0, 0.0, 0.0, 0.0, 0.0, 0.0)
    ensures LeavingCosts(p, close, cfg) == 0.0
  {}

  /** A living run came through the last iteration alive. */
  lemma LastIsVisited(was: Bt, d: Data, cfg: Config, i: nat)
    requires i < |d.bars| && (was.stopped ==> was.dead) && d.strategy.context(d.Prefix(i)).Some?
    requires !BtIterate(was, d, cfg, i).dead
    ensures !was.stopped && !BtManage(BtRollDay(was, d, i), d, cfg, i).dead
  {
    hide BtManage;
  }

  lemma {:induction false} StoppedIsDead(d: Data, cfg: Config, i: nat)
    requires i <= |d.bars|
    ensures BtRun(d, cfg, i).stopped ==> BtRun(d, cfg, i).dead
  {
    if d.first < i {
      StoppedIsDead(d, cfg, i - 1);
      OneMoreStop(BtRun(d, cfg, i - 1), d, cfg, i - 1);
    }
  }

  lemma OneMoreStop(st: Bt, d: Data, cfg: Config, i: nat)
    requires i < |d.bars| && (st.stopped ==> st.dead)
    ensures var m := BtIterate(st, d, cfg, i); m.stopped ==> m.dead
  {
    hide BtManage, BtSignal;
  }

  /** A run that ended in a death is reported as the death left it. */
  lemma DeadEndsAsItDied(d: Data, cfg: Config)
    requires d.Valid() && (BtRun(d, cfg, d.last).dead || BtRun(d, cfg, d.last).pos.None?)
    ensures BtFinish(BtRun(d, cfg, d.last), d, cfg) == BtRun(d, cfg, d.last)
  {
    hide BtRun, BtClose;
  }
}
