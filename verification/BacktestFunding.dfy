/** Funding over the life of a backtest's positions: every settlement is charged once, at the close of its bar. */
module BacktestFunding {
  import opened Market
  import opened PnlEngine
  import opened PositionManager
  import opened Accounting
  import opened PaperLoop
  import opened Discipline
  import opened Funding
  import opened Backtest
  import opened BacktestOrder
  import BacktestLedger

  /** The loop skips a bar without a market context. */
  predicate Visited(d: Data, j: nat)
    requires j < |d.bars|
  {
    d.strategy.context(d.Prefix(j)).Some?
  }

  /** The close of the last bar before bar `j` on which a position entered on bar `entry` was charged, or of its signal
      bar. */
  function SettledTo(d: Data, entry: int, j: int): int
    requires 0 < entry <= j <= |d.bars|
  {
    if j == entry then d.CloseMs(entry - 1)
    else if Visited(d, j - 1) then d.CloseMs(j - 1)
    else SettledTo(d, entry, j - 1)
  }

  /** The settlements of bar `j`: those since the last charged bar, none if the loop skips it. */
  function OfBar(d: Data, entry: int, j: int): seq<Rate>
    requires 0 < entry <= j < |d.bars|
  {
    if Visited(d, j) then Due(d.funding, SettledTo(d, entry, j), d.CloseMs(j)) else []
  }

  /** What bars `entry` to `to - 1` take, each at its own close. */
  function PaidOver(side: Side, quantity: real, d: Data, entry: int, to: int): real
    requires 0 < entry <= to <= |d.bars|
  {
    if to == entry then 0.0
    else
      PaidOver(side, quantity, d, entry, to - 1)
      + Paid(side, quantity, d.bars[to - 1].close, OfBar(d, entry, to - 1))
  }

  function OfBars(d: Data, entry: int, to: int): seq<Rate>
    requires 0 < entry <= to <= |d.bars|
  {
    if to == entry then [] else OfBars(d, entry, to - 1) + OfBar(d, entry, to - 1)
  }

  /** The bars share the settlements between the signal's close and the last charged close, each to exactly one bar. */
  lemma {:induction false} EachSettlementHasItsBar(d: Data, entry: int, to: int)
    requires 0 < entry <= to <= |d.bars| && AscendingRates(d.funding) && ClockAscends(d)
    ensures d.CloseMs(entry - 1) <= SettledTo(d, entry, to) <= d.CloseMs(to - 1)
    ensures OfBars(d, entry, to) == Due(d.funding, d.CloseMs(entry - 1), SettledTo(d, entry, to))
  {
    if to == entry {
      NothingDue(d.funding, d.CloseMs(entry - 1), d.CloseMs(entry - 1));
    } else {
      EachSettlementHasItsBar(d, entry, to - 1);
      if Visited(d, to - 1) {
        DueSplit(d.funding, d.CloseMs(entry - 1), SettledTo(d, entry, to - 1), d.CloseMs(to - 1));
      }
    }
  }

  // ---------------------------------------------------------------- what is charged

  /** The mark of the next event: the moving one admits an event exactly when the one at the start does. */
  lemma MovingMark(last: int, moved: int, events: seq<Rate>, closeMs: int)
    requires AscendingRates(events) && events != []
    requires var due := Due(events[..|events| - 1], last, closeMs);
      moved == (if due == [] then last else due[|due| - 1].time)
    ensures moved < events[|events| - 1].time <==> last < events[|events| - 1].time
  {
    var init := events[..|events| - 1];
    var due := Due(init, last, closeMs);
    if due != [] {
      DueMembers(init, last, closeMs, due[|due| - 1]);
      EarlierThanLast(events, due[|due| - 1]);
    }
  }

  lemma {:induction false} ChargesWhatIsDue(h: BtHolding, events: seq<Rate>, closeMs: int, mark: real)
    requires AscendingRates(events)
    ensures var c, due := BtCharge(h, events, closeMs, mark), Due(events, h.pos.lastFunding, closeMs);
      && c.pos.funding == h.pos.funding + Paid(h.pos.side, h.pos.quantity, mark, due)
      && c.pos.lastFunding == (if due == [] then h.pos.lastFunding else due[|due| - 1].time)
  {
    hide FundingPayment, Paid;
    if events == [] {
      PaidNothing(h.pos.side, h.pos.quantity, mark);
    } else {
      var init, r := events[..|events| - 1], events[|events| - 1];
      ChargesWhatIsDue(h, init, closeMs, mark);
      BtChargeKeepsRest(h, init, closeMs, mark);
      var c, due := BtCharge(h, init, closeMs, mark), Due(init, h.pos.lastFunding, closeMs);
      MovingMark(h.pos.lastFunding, c.pos.lastFunding, events, closeMs);
      assert c.pos.side == h.pos.side && c.pos.quantity == h.pos.quantity;
      assert Due(events, h.pos.lastFunding, closeMs)
          == if h.pos.lastFunding < r.time <= closeMs then due + [r] else due;
      PaidAppend(h.pos.side, h.pos.quantity, mark, due, r);
    }
  }

  // ---------------------------------------------------------------- over the run

  /** Before iteration `i` the position has paid for every bar from its entry on, and nothing of them is left. */
  ghost predicate FundedPos(p: BtPos, d: Data, i: int) {
    && 0 < p.entryIndex <= i <= |d.bars|
    && p.funding == PaidOver(p.side, p.quantity, d, p.entryIndex, i)
    && d.CloseMs(p.entryIndex - 1) <= p.lastFunding <= SettledTo(d, p.entryIndex, i)
    && (forall r :: r in d.funding && r.time <= SettledTo(d, p.entryIndex, i) ==> r.time <= p.lastFunding)
  }

  /** A trade has paid for every bar from its entry on: up to the bar before its exit if it left at that bar's open, and
      through its exit bar otherwise. A signal on the last bar of the data exits at that bar's close. */
  ghost predicate FundedTrade(t: BtTrade, d: Data) {
    && 0 < t.entryIndex <= t.exitIndex < |d.bars|
    && (t.funding == PaidOver(t.side, t.quantity, d, t.entryIndex, t.exitIndex + 1)
        || (t.reason.SignalExit? && t.funding == PaidOver(t.side, t.quantity, d, t.entryIndex, t.exitIndex)))
    && (t.reason.SignalExit? && t.exitIndex + 1 < |d.bars| ==>
          t.funding == PaidOver(t.side, t.quantity, d, t.entryIndex, t.exitIndex))
  }

  ghost predicate Funded(st: Bt, d: Data, i: int) {
    && (forall k :: 0 <= k < |st.trades| ==> FundedTrade(st.trades[k], d))
    && (st.pos.Some? && !st.stopped ==> FundedPos(st.pos.value, d, i))
    && (st.stopped ==> st.dead)
  }

  /** One visited bar: what is due is charged at its close. */
  lemma BarIsCharged(st: Bt, d: Data, i: nat)
    requires st.pos.Some? && i < |d.bars| && Visited(d, i) && AscendingRates(d.funding) && ClockAscends(d)
    requires FundedPos(st.pos.value, d, i)
    ensures var q := BtFunded(st, d, st.pos.value, i).pos.value;
      FundedPos(q, d, i + 1) && q == st.pos.value.(funding := q.funding, lastFunding := q.lastFunding)
  {
    hide Paid, BtCharge;
    var p, closeMs := st.pos.value, d.CloseMs(i);
    var from := SettledTo(d, p.entryIndex, i);
    var due := Due(d.funding, p.lastFunding, closeMs);
    EachSettlementHasItsBar(d, p.entryIndex, i);
    ChargesWhatIsDue(BtHolding(st.balance, st.totalFunding, p), d.funding, closeMs, d.bars[i].close);
    BtChargeKeepsRest(BtHolding(st.balance, st.totalFunding, p), d.funding, closeMs, d.bars[i].close);
    DueSameWindow(d.funding, p.lastFunding, from, closeMs);
    LatestIsCharged(d.funding, p.lastFunding, closeMs);
  }

  lemma LatestIsCharged(events: seq<Rate>, last: int, closeMs: int)
    requires AscendingRates(events)
    ensures var due := Due(events, last, closeMs); var moved := if due == [] then last else due[|due| - 1].time;
      && last <= moved && (moved <= closeMs || moved == last)
      && (forall r :: r in events && r.time <= closeMs ==> r.time <= moved)
  {
    var due := Due(events, last, closeMs);
    DueIsAscending(events, last, closeMs);
    forall r | r in events && last < r.time <= closeMs ensures due != [] && r.time <= due[|due| - 1].time {
      DueMembers(events, last, closeMs, r);
    }
  }

  /** A bar the loop skips charges nothing. */
  lemma SkippedBar(p: BtPos, d: Data, i: nat)
    requires i < |d.bars| && !Visited(d, i) && FundedPos(p, d, i)
    ensures FundedPos(p, d, i + 1)
  {}

  lemma CloseIsFunded(st: Bt, d: Data, cfg: Config, p: BtPos, reference: real, kind: OrderKind, reason: Reason, at: int,
                      i: int)
    requires forall k :: 0 <= k < |st.trades| ==> FundedTrade(st.trades[k], d)
    requires FundedPos(p, d, i) && p.entryIndex <= at < |d.bars|
    requires i == at + 1 || (reason.SignalExit? && i == at)
    requires reason.SignalExit? && at + 1 < |d.bars| ==> i == at
    requires st.stopped ==> st.dead
    ensures var b := BtClose(st, d, cfg, p, reference, kind, reason, at);
      Funded(b, d, i) && b.pos.None? && b.stopped == st.stopped
  {
    hide ExitQuote, LiquidationPenalty, ComputeTradePnL, SettleClose, PaidOver, BtBankruptcyLevel, CooldownBars;
    var b := BtClose(st, d, cfg, p, reference, kind, reason, at);
    forall k | 0 <= k < |b.trades| ensures FundedTrade(b.trades[k], d) {
      assert k < |st.trades| ==> b.trades[k] == st.trades[k];
    }
  }

  lemma ManageIsFunded(st: Bt, d: Data, cfg: Config, i: nat)
    requires i < |d.bars| && Visited(d, i) && AscendingRates(d.funding) && ClockAscends(d)
    requires Funded(st, d, i) && !st.stopped
    ensures var b := BtManage(st, d, cfg, i);
      Funded(b, d, i + 1) && !b.stopped && (st.pos.None? ==> b == st)
  {
    hide EvaluateBar, BtClose, Liquidatable, BtLevels, AdvanceExtremes, PaidOver, BtCharge, SettledTo;
    if st.pos.Some? {
      BarIsCharged(st, d, i);
      ProtectIsFunded(BtFunded(st, d, st.pos.value, i), d, cfg, i);
    }
  }

  lemma ProtectIsFunded(st: Bt, d: Data, cfg: Config, i: nat)
    requires i < |d.bars| && st.pos.Some? && st.pos.value.entryIndex <= i && Funded(st, d, i + 1) && !st.stopped
    ensures var b := BtProtect(st, d, cfg, i); Funded(b, d, i + 1) && !b.stopped
  {
    hide EvaluateBar, BtClose, Liquidatable, BtLevels, AdvanceExtremes, PaidOver, SettledTo;
    var p, bar := st.pos.value, d.bars[i];
    var levels := BtLevels(p, st.balance, cfg, d.strategy.dna);
    var t := EvaluateBar(levels, bar, cfg.sameBarExtreme);
    if t.Some? {
      NotASignal(levels, bar, cfg.sameBarExtreme, t.value);
      CloseIsFunded(st, d, cfg, p, t.value.reference, t.value.kind, t.value.reason, i, i + 1);
    } else {
      var q := BtSurvived(p, levels, bar);
      CloseIsFunded(st.(pos := Some(q)), d, cfg, q, bar.close, LiquidationOrder, Liquidation, i, i + 1);
    }
  }

  lemma NotASignal(l: Levels, bar: Bar, sameBarExtreme: bool, t: Trigger)
    requires EvaluateBar(l, bar, sameBarExtreme) == Some(t)
    ensures !t.reason.SignalExit?
  {}

  lemma SignalIsFunded(st: Bt, d: Data, cfg: Config, i: nat, exited: bool, intent: Intent)
    requires i < d.last && d.Valid() && Funded(st, d, i + 1) && !st.stopped
    ensures var b := BtSignal(st, d, cfg, i, exited, intent); Funded(b, d, i + 1) && !b.stopped
  {
    hide BtClose, EntryQuantity, EntryQuote, SettledTo, PaidOver;
    if st.pos.Some? {
      if Held(st, i) {
        CloseIsFunded(st, d, cfg, st.pos.value, NextOpen(d, i), MarketOrder, SignalExit, FillIndex(d, i), i + 1);
      }
    } else {
      var b := BtSignal(st, d, cfg, i, exited, intent);
      if b.pos.Some? {
        FreshOwesNothing(b.pos.value, d, i);
      }
    }
  }

  lemma FreshOwesNothing(p: BtPos, d: Data, i: nat)
    requires i + 1 < |d.bars| && p.entryIndex == i + 1 && p.lastFunding == d.CloseMs(i) && p.funding == 0.0
    ensures FundedPos(p, d, i + 1)
  {}

  lemma IterationIsFunded(st: Bt, d: Data, cfg: Config, i: nat)
    requires i < d.last && d.Valid() && AscendingRates(d.funding) && ClockAscends(d) && Funded(st, d, i)
    ensures Funded(BtIterate(st, d, cfg, i), d, i + 1)
  {
    hide BtManage, BtSignal, SettledTo, PaidOver;
    if !st.stopped && Visited(d, i) {
      var rolled := BtRollDay(st, d, i);
      ManageIsFunded(rolled, d, cfg, i);
      var managed := BtManage(rolled, d, cfg, i);
      SignalIsFunded(managed, d, cfg, i, Held(rolled, i) && managed.pos.None?,
                     d.strategy.context(d.Prefix(i)).value);
    } else if !st.stopped && st.pos.Some? {
      SkippedBar(st.pos.value, d, i);
    }
  }

  /** Before iteration `i` of any backtest whose loop has not been left, an open position has paid exactly the
      settlements published since its signal's close, each once, at the close of the bar it belongs to; so has every
      trade. */
  lemma {:induction false} BacktestChargesExactlyOnce(d: Data, cfg: Config, i: nat)
    requires i <= d.last && d.Valid() && AscendingRates(d.funding) && ClockAscends(d)
    ensures Funded(BtRun(d, cfg, i), d, i)
  {
    hide BtIterate, SettledTo, PaidOver;
    if d.first < i {
      BacktestChargesExactlyOnce(d, cfg, i - 1);
      IterationIsFunded(BtRun(d, cfg, i - 1), d, cfg, i - 1);
    }
  }

  /** And so has every trade of the finished backtest, the one closed at the end of the data included. */
  lemma FinishedTradesAreFunded(d: Data, cfg: Config)
    requires d.Valid() && AscendingRates(d.funding) && ClockAscends(d)
    ensures forall t :: t in BtFinish(BtRun(d, cfg, d.last), d, cfg).trades ==> FundedTrade(t, d)
  {
    hide BtRun, BtClose, SettledTo, PaidOver, FundedTrade;
    BacktestChargesExactlyOnce(d, cfg, d.last);
    var end := BtRun(d, cfg, d.last);
    if end.pos.Some? && !end.dead && d.last > 0 {
      RunIsOrdered(d, cfg, d.last);
      CloseIsFunded(end, d, cfg, end.pos.value, d.bars[d.last - 1].close, MarketOrder, EndOfData, d.last - 1, d.last);
    }
  }

  /** One bar of the funding loop: quantity times close times the sum of the due rates leaves the cash of a long and
      reaches that of a short, the run's total and the position's own account. */
  lemma LoopTakes(st: Bt, d: Data, i: nat)
    requires st.pos.Some? && i < |d.bars| && AscendingRates(d.funding)
    ensures var b, p := BtFunded(st, d, st.pos.value, i), st.pos.value;
      var amount := p.quantity * d.bars[i].close * RateSum(Due(d.funding, p.lastFunding, d.CloseMs(i)));
      && (p.side.Long? ==> b.balance == st.balance - amount)
      && (p.side.Short? ==> b.balance == st.balance + amount)
      && b.totalFunding - st.totalFunding == st.balance - b.balance
      && b.pos.Some? && b.pos.value.funding - p.funding == st.balance - b.balance
  {
    hide BtCharge, RateSum;
    var p := st.pos.value;
    var h := BtHolding(st.balance, st.totalFunding, p);
    ChargesWhatIsDue(h, d.funding, d.CloseMs(i), d.bars[i].close);
    BacktestLedger.ChargeBalances(h, d.funding, d.CloseMs(i), d.bars[i].close);
  }
}
