/** The backtester in the form it runs: one bar loop over local state, with the close nested in it. */
module BacktestEngine {
  import opened Market
  import opened PnlEngine
  import opened PositionManager
  import opened Accounting
  import opened PaperLoop
  import opened Backtest

  class Engine {
    const d: Data
    const cfg: Config
    var balance: real
    var pos: Option<BtPos>
    var cooldownUntil: int
    var dead: bool
    var stopped: bool
    var totalFunding: real
    var totalBadDebt: real
    var trades: seq<BtTrade>
    var curve: seq<real>
    var peakEquity: real
    var dayStartEquity: real
    var day: Option<int>
    var dailyTrades: nat

    function State(): Bt
      reads this
    {
      Bt(balance, pos, cooldownUntil, dead, stopped, totalFunding, totalBadDebt, trades, curve,
         peakEquity, dayStartEquity, day, dailyTrades)
    }

    constructor (data: Data, config: Config)
      ensures State() == Init(data) && d == data && cfg == config
    {
      d, cfg := data, config;
      balance, peakEquity, dayStartEquity := data.start, data.start, data.start;
      pos, cooldownUntil, dead, stopped, totalFunding, totalBadDebt := None, -1, false, false, 0.0, 0.0;
      trades, curve, day, dailyTrades := [], [], None, 0;
    }

    method Close(p: BtPos, reference: real, kind: OrderKind, reason: Reason, at: int)
      modifies this
      ensures State() == BtClose(old(State()), d, cfg, p, reference, kind, reason, at)
      ensures stopped == old(stopped) && pos.None?
    {
      hide ExitQuote, LiquidationPenalty, BtBook;
      var quote := ExitQuote(p.side, p.quantity, reference, kind, cfg.costs);
      Book(p, quote.price, quote.fee + LiquidationPenalty(kind, quote.price, p.quantity, cfg.costs), reason, at);
    }

    /** Settles the exit against the balance and records the trade. */
    method Book(p: BtPos, price: real, fee: real, reason: Reason, at: int)
      modifies this
      ensures State() == BtBook(old(State()), d, cfg, p, price, fee, reason, at)
      ensures stopped == old(stopped) && pos.None?
    {
      hide ComputeTradePnL, SettleClose, CooldownBars, BtBankruptcyLevel;
      var pnl := ComputeTradePnL(p.side, p.quantity, p.entryPrice, price, p.entryFee, fee, p.funding);
      var settlement := SettleClose(balance, pnl.gross, fee);
      balance := settlement.newBalance;
      totalBadDebt := totalBadDebt + settlement.badDebt;
      trades := trades + [BtTrade(p.side, p.entryIndex, at, p.entryPrice, price, p.quantity, pnl.net, reason,
                                  p.entryFee + fee, p.funding, settlement.badDebt)];
      var bars := CooldownBars(Some(d.strategy.dna), pnl.net);
      if bars > 0 {
        cooldownUntil := at + bars;
      }
      pos := None;
      Judge(reason);
    }

    /** A fatal liquidation, or nothing left above the bankruptcy level. */
    method Judge(reason: Reason)
      modifies this
      ensures State() == old(State()).(dead := old(dead) || (reason.Liquidation? && cfg.liquidationIsFatal)
                                               || old(balance) <= BtBankruptcyLevel(d, cfg))
    {
      hide BtBankruptcyLevel;
      if reason.Liquidation? && cfg.liquidationIsFatal {
        dead := true;
      }
      if balance <= BtBankruptcyLevel(d, cfg) {
        dead := true;
      }
    }

    method ApplyFunding(i: nat)
      requires i < |d.bars| && pos.Some?
      modifies this
      ensures State() == BtFunded(old(State()), d, old(pos.value), i)
      ensures pos.Some? && stopped == old(stopped)
    {
      hide FundingPayment;
      var p := pos.value;
      ghost var h := BtHolding(balance, totalFunding, p);
      for k := 0 to |d.funding|
        invariant BtHolding(balance, totalFunding, p) == BtCharge(h, d.funding[..k], d.CloseMs(i), d.bars[i].close)
        invariant State() == old(State()).(balance := balance, totalFunding := totalFunding)
      {
        assert d.funding[..k + 1][..k] == d.funding[..k];
        var r := d.funding[k];
        if p.lastFunding < r.time <= d.CloseMs(i) {
          var amount := FundingPayment(p.side, p.quantity, d.bars[i].close, r.rate);
          balance := balance - amount;
          totalFunding := totalFunding + amount;
          p := p.(funding := p.funding + amount, lastFunding := r.time);
        }
      }
      assert d.funding[..|d.funding|] == d.funding;
      pos := Some(p);
    }

    method Protect(i: nat)
      requires i < |d.bars| && pos.Some?
      modifies this
      ensures State() == BtProtect(old(State()), d, cfg, i)
      ensures stopped == old(stopped)
    {
      hide EvaluateBar, LiquidationPrice, BtClose;
      var p, bar := pos.value, d.bars[i];
      var levels := BtLevels(p, balance, cfg, d.strategy.dna);
      var trigger := EvaluateByList(levels, bar, cfg.sameBarExtreme);
      if trigger.Some? {
        Close(p, trigger.value.reference, trigger.value.kind, trigger.value.reason, i);
        return;
      }
      p := BtSurvived(p, levels, bar);
      pos := Some(p);
      if Liquidatable(p.side, p.entryPrice, p.quantity, balance, cfg.mmr, bar.close) {
        Close(p, bar.close, LiquidationOrder, Liquidation, i);
      }
    }

    method Manage(i: nat)
      requires i < |d.bars|
      modifies this
      ensures State() == BtManage(old(State()), d, cfg, i)
      ensures stopped == old(stopped)
    {
      hide BtProtect, BtFunded;
      if pos.Some? && pos.value.entryIndex <= i {
        ApplyFunding(i);
        Protect(i);
      }
    }

    method RollDay(i: nat)
      requires i < |d.bars|
      modifies this
      ensures State() == BtRollDay(old(State()), d, i)
      ensures stopped == old(stopped)
    {
      var today := Day(d.bars[i].openTime);
      if day != Some(today) {
        dayStartEquity := if pos.None? then balance else balance + BtUpnl(pos.value, d.bars[i].open);
        day := Some(today);
        dailyTrades := 0;
      }
    }

    method Enter(i: nat, side: Side, intent: Intent)
      requires i < |d.bars|
      modifies this
      ensures State() == BtEnter(old(State()), d, cfg, i, side, intent)
      ensures stopped == old(stopped)
    {
      hide EntryQuantity, BtEnterAt;
      var reference := NextOpen(d, i);
      EnterAt(i, side, intent, reference, EntryQuantity(State(), d, cfg, i, side, reference));
    }

    method EnterAt(i: nat, side: Side, intent: Intent, reference: real, quantity: real)
      requires i < |d.bars|
      modifies this
      ensures State() == BtEnterAt(old(State()), d, cfg, i, side, intent, reference, quantity)
      ensures stopped == old(stopped)
    {
      hide EntryQuote;
      if Tradeable(cfg, quantity, reference) {
        var fill := EntryQuote(side, quantity, reference, cfg.costs);
        var lv := d.strategy.dna.levels(side, fill.price, intent);
        balance := balance - fill.fee;
        pos := Some(BtPos(side, FillIndex(d, i), fill.price, quantity, fill.fee, lv.stopLoss, lv.takeProfit,
                          lv.trailingDistance, lv.trailingActive, fill.price, fill.price, d.CloseMs(i), 0.0));
        dailyTrades := dailyTrades + 1;
      }
    }

    method Signal(i: nat, exited: bool, intent: Intent)
      requires i < |d.bars|
      modifies this
      ensures State() == BtSignal(old(State()), d, cfg, i, exited, intent)
      ensures stopped == old(stopped)
    {
      hide BtClose, BtEnter;
      var signal := d.strategy.signal(d.Prefix(i), if pos.Some? then Some(pos.value.side) else None);
      if pos.Some? && !exited && signal.matchedExit && pos.value.entryIndex <= i {
        Close(pos.value, NextOpen(d, i), MarketOrder, SignalExit, FillIndex(d, i));
      } else if pos.None? && !exited && signal.matchedEntry && i + 1 < d.last && !dead {
        if i < cooldownUntil || dailyTrades >= d.strategy.dna.maxTradesPerDay {
          return;
        }
        Enter(i, signal.side, intent);
      }
    }

    method MarkToMarket(i: nat)
      requires i < |d.bars| && !stopped
      modifies this
      ensures State() == BtMark(old(State()), d, i)
    {
      hide BtUpnl;
      var upnl := if pos.Some? && pos.value.entryIndex <= i then BtUpnl(pos.value, d.bars[i].close) else 0.0;
      var equity := balance + upnl;
      curve := curve + [equity];
      peakEquity := Max(peakEquity, equity);
      if equity <= 0.0 {
        dead, stopped := true, true;
      }
    }

    /** One pass of the loop body. */
    method Iterate(i: nat)
      requires i < |d.bars| && !stopped
      modifies this
      ensures State() == BtIterate(old(State()), d, cfg, i)
    {
      hide BtRollDay, BtManage, BtSignal, BtMark;
      var context := d.strategy.context(d.Prefix(i));
      if context.None? {
        return;
      }
      RollDay(i);
      var held := pos.Some? && pos.value.entryIndex <= i;
      Manage(i);
      if dead {
        curve := curve + [Max(0.0, balance)];
        stopped := true;
        return;
      }
      Signal(i, held && pos.None?, context.value);
      MarkToMarket(i);
    }

    /** The backtest: the bar loop with its `break`, and the close of what is still open after it. */
    method RunBacktest()
      requires d.Valid() && State() == Init(d)
      modifies this
      ensures State() == BtFinish(BtRun(d, cfg, d.last), d, cfg)
    {
      hide BtIterate, BtClose;
      var i := d.first;
      while i < d.last
        invariant d.first <= i
        invariant i <= d.last || d.first >= d.last
        invariant State() == BtRun(d, cfg, if i <= d.last then i else d.last)
        invariant !stopped
      {
        Iterate(i);
        i := i + 1;
        if stopped {
          StoppedStays(d, cfg, i, d.last);
          break;
        }
      }
      if pos.Some? && !dead && d.last > 0 {
        Close(pos.value, d.bars[d.last - 1].close, MarketOrder, EndOfData, d.last - 1);
        if curve != [] {
          curve := curve[|curve| - 1 := balance];
        }
      }
    }
  }
}
