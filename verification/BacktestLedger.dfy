/** Conservation of cash in the backtest: before every iteration and at the end, the books balance. */
module BacktestLedger {
  import opened Market
  import opened PnlEngine
  import opened PositionManager
  import opened Accounting
  import opened PaperLoop
  import opened Backtest

  datatype Totals = Totals(net: real, funding: real, badDebt: real)

  function TotalsOf(trades: seq<BtTrade>): Totals {
    if trades == [] then Totals(0.0, 0.0, 0.0)
    else
      var t, last := TotalsOf(trades[..|trades| - 1]), trades[|trades| - 1];
      Totals(t.net + last.net, t.funding + last.funding, t.badDebt + last.badDebt)
  }

  lemma TotalsAppend(trades: seq<BtTrade>, t: BtTrade)
    ensures var was := TotalsOf(trades);
      TotalsOf(trades + [t]) == Totals(was.net + t.net, was.funding + t.funding, was.badDebt + t.badDebt)
  {}

  /** Cash is the start plus what the trades made and what was written off, less what the open position has paid. */
  ghost predicate Balanced(st: Bt, d: Data) {
    var t := TotalsOf(st.trades);
    var fee := if st.pos.Some? then st.pos.value.entryFee else 0.0;
    var funding := if st.pos.Some? then st.pos.value.funding else 0.0;
    && st.balance == d.start + t.net + t.badDebt - fee - funding
    && st.totalFunding == t.funding + funding && st.totalBadDebt == t.badDebt
  }

  lemma CloseBalances(st: Bt, d: Data, cfg: Config, p: BtPos, reference: real, kind: OrderKind, reason: Reason, at: int)
    requires Balanced(st, d) && st.pos.Some?
    requires p.entryFee == st.pos.value.entryFee && p.funding == st.pos.value.funding
    ensures var b := BtClose(st, d, cfg, p, reference, kind, reason, at); Balanced(b, d) && b.pos.None?
  {
    hide ExitQuote, LiquidationPenalty;
    var b := BtClose(st, d, cfg, p, reference, kind, reason, at);
    TotalsAppend(st.trades, b.trades[|st.trades|]);
  }

  /** What leaves the cash is what the position and the run have paid. */
  lemma {:induction false} ChargeBalances(h: BtHolding, events: seq<Rate>, closeMs: int, mark: real)
    ensures var c := BtCharge(h, events, closeMs, mark);
      c.balance == h.balance - (c.pos.funding - h.pos.funding) && c.total == h.total + (c.pos.funding - h.pos.funding)
  {
    hide FundingPayment;
    if events != [] {
      ChargeBalances(h, events[..|events| - 1], closeMs, mark);
    }
  }

  lemma ManageBalances(st: Bt, d: Data, cfg: Config, i: nat)
    requires Balanced(st, d) && i < |d.bars|
    ensures Balanced(BtManage(st, d, cfg, i), d)
  {
    hide EvaluateBar, BtClose, Liquidatable, BtLevels, AdvanceExtremes, TotalsOf;
    if Held(st, i) {
      var h := BtHolding(st.balance, st.totalFunding, st.pos.value);
      ChargeBalances(h, d.funding, d.CloseMs(i), d.bars[i].close);
      BtChargeKeepsRest(h, d.funding, d.CloseMs(i), d.bars[i].close);
      ProtectBalances(BtFunded(st, d, st.pos.value, i), d, cfg, i);
    }
  }

  lemma ProtectBalances(st: Bt, d: Data, cfg: Config, i: nat)
    requires Balanced(st, d) && st.pos.Some? && i < |d.bars|
    ensures Balanced(BtProtect(st, d, cfg, i), d)
  {
    hide EvaluateBar, BtClose, Liquidatable, BtLevels, AdvanceExtremes, TotalsOf;
    var p, bar := st.pos.value, d.bars[i];
    var levels := BtLevels(p, st.balance, cfg, d.strategy.dna);
    var t := EvaluateBar(levels, bar, cfg.sameBarExtreme);
    if t.Some? {
      CloseBalances(st, d, cfg, p, t.value.reference, t.value.kind, t.value.reason, i);
    } else {
      var q := BtSurvived(p, levels, bar);
      CloseBalances(st.(pos := Some(q)), d, cfg, q, bar.close, LiquidationOrder, Liquidation, i);
    }
  }

  lemma SignalBalances(st: Bt, d: Data, cfg: Config, i: nat, exited: bool, intent: Intent)
    requires Balanced(st, d) && i < |d.bars|
    ensures Balanced(BtSignal(st, d, cfg, i, exited, intent), d)
  {
    hide BtClose, EntryQuantity, EntryQuote, TotalsOf;
    if st.pos.Some? {
      CloseBalances(st, d, cfg, st.pos.value, NextOpen(d, i), MarketOrder, SignalExit, FillIndex(d, i));
    }
  }

  lemma IterationBalances(st: Bt, d: Data, cfg: Config, i: nat)
    requires Balanced(st, d) && i < |d.bars|
    ensures Balanced(BtIterate(st, d, cfg, i), d)
  {
    hide BtManage, BtSignal, TotalsOf;
    var context := d.strategy.context(d.Prefix(i));
    if context.Some? {
      var rolled := BtRollDay(st, d, i);
      ManageBalances(rolled, d, cfg, i);
      var managed := BtManage(rolled, d, cfg, i);
      SignalBalances(managed, d, cfg, i, Held(rolled, i) && managed.pos.None?, context.value);
    }
  }

  lemma {:induction false} IterationsBalance(d: Data, cfg: Config, i: nat)
    requires i <= |d.bars|
    ensures Balanced(BtRun(d, cfg, i), d)
  {
    hide BtIterate;
    if d.first < i {
      IterationsBalance(d, cfg, i - 1);
      IterationBalances(BtRun(d, cfg, i - 1), d, cfg, i - 1);
    }
  }

  /** The finished backtest, for any bars, funding and strategy: balance = start + net + bad debt of the trades, less
      what a position left open by a death has paid; the two totals are the sums over the trades and that position. */
  lemma BacktestBalances(d: Data, cfg: Config)
    requires d.Valid()
    ensures Balanced(BtFinish(BtRun(d, cfg, d.last), d, cfg), d)
  {
    hide BtRun, BtClose, TotalsOf;
    IterationsBalance(d, cfg, d.last);
    var end := BtRun(d, cfg, d.last);
    if end.pos.Some? && d.last > 0 {
      CloseBalances(end, d, cfg, end.pos.value, d.bars[d.last - 1].close, MarketOrder, EndOfData, d.last - 1);
    }
  }
}
