/** When paper and backtest are in step, read off the data and the backtest alone. */
module DataParity {
  import opened Market
  import opened PnlEngine
  import opened Accounting
  import opened PaperLoop
  import Protection
  import opened Discipline
  import opened Funding
  import opened Backtest
  import opened BacktestOrder
  import opened LotRules
  import opened Parity

  /** Sizes depend on the account through its cash. */
  ghost predicate SizesByCash(d: Data) {
    forall bars, side, v: SizingView, w: SizingView :: v.balance == w.balance ==>
      d.strategy.size(bars, side, v) == d.strategy.size(bars, side, w)
  }

  predicate EntrySignal(d: Data, i: nat)
    requires i < |d.bars|
  {
    d.strategy.signal(d.Prefix(i), None).matchedEntry
  }

  /** The bar after an entry signal is of the same day, opens where the exchange minimum refuses no less, and has no
      settlement inside. */
  ghost predicate GoodFillBar(d: Data, step: real, minimum: real, i: nat)
    requires Contiguous(d) && i + 1 < |d.bars|
  {
    && Day(d.bars[i + 1].openTime) == Day(d.bars[i].openTime)
    && (minimum == 0.0 || Threshold(step, minimum, d.bars[i].close) <= Threshold(step, minimum, d.bars[i + 1].open))
    && (forall r :: r in d.funding ==> !(d.CloseMs(i) < r.time <= d.CloseMs(i + 1)))
  }

  ghost predicate GoodFillBars(d: Data, step: real, minimum: real)
    requires d.Valid() && Contiguous(d)
  {
    forall i :: d.first <= i && i + 1 < d.last && EntrySignal(d, i) ==> GoodFillBar(d, step, minimum, i)
  }

  /** Before and after the management of each of its bars the backtest can trade: no entry fee takes the last of the
      cash, and alive and flat it has what an entry takes. */
  ghost predicate KeepsCash(d: Data, cfg: Config)
    requires d.Valid()
  {
    forall i :: d.first <= i < d.last ==>
      var st := BtRun(d, cfg, i);
      NotEmptied(st) && (st.dead || Viable(BtManage(BtRollDay(st, d, i), d, cfg, i), cfg))
  }

  /** Paper loads what the code loads for an account alone: settlements since the open position was last charged. */
  ghost predicate LoadsAsTheCode(d: Data, cfg: Config, loads: nat -> seq<Rate>, day: int)
    requires d.Valid()
  {
    forall i :: d.first <= i < d.last ==>
      var held := PaperRun(d, cfg, loads, day, i).position;
      loads(i) == LoadFunding(d.funding, if held.Some? then [held.value.lastFunding] else [], d.CloseMs(i))
  }

  /** All of it: conditions on the bars, the funding, the strategy, the configuration and the backtest's own run. */
  ghost predicate FromData(d: Data, cfg: Config, step: real, minimum: real) {
    && Comparable(d, cfg) && Follows(cfg, step, minimum) && SizesByCash(d) && GoodFillBars(d, step, minimum)
    && KeepsCash(d, cfg)
  }

  // ---------------------------------------------------------------- what the conditions give on one bar

  lemma SameSize(d: Data, i: nat, side: Side, a: Agent, r: Bt)
    requires i < |d.bars| && SizesByCash(d) && a.balance == r.balance
    ensures SizeOf(d, i, side, a) == BtSize(r, d, i, side)
  {}

  lemma RefusalsStand(d: Data, cfg: Config, step: real, minimum: real, i: nat, notional: real)
    requires Contiguous(d) && Follows(cfg, step, minimum) && i + 1 < |d.bars| && GoodFillBar(d, step, minimum, i)
    ensures RefusalStands(d, cfg, i, notional)
  {
    hide Threshold, BelowMinOrderNotional, Tradeable;
    var close, open := d.bars[i].close, d.bars[i + 1].open;
    RefusedExactlyBelow(step, minimum, notional, close);
    assert cfg.belowMinimum(notional, close) == BelowMinOrderNotional(step, minimum, notional, close);
    TradedExactlyFrom(cfg, step, minimum, notional, open);
  }

  lemma EntriesAgree(a: Agent, r: Bt, d: Data, cfg: Config, step: real, minimum: real, i: nat)
    requires FromData(d, cfg, step, minimum) && d.first <= i && i + 1 < d.last && a.balance == r.balance
    ensures EntryAgrees(a, r, d, cfg, i)
  {
    hide RefusalStands, SizeOf, BtSize, Notional, BtEnter, Follows, SizesByCash, KeepsCash, Comparable;
    Unfold(d, cfg, step, minimum);
    var side := d.strategy.signal(d.Prefix(i), None).side;
    if EntryDue(r, d, i) {
      assert EntrySignal(d, i);
      SameSize(d, i, side, a, r);
      RefusalsStand(d, cfg, step, minimum, i, Notional(d, i, side, a));
    }
  }

  lemma Unfold(d: Data, cfg: Config, step: real, minimum: real)
    requires FromData(d, cfg, step, minimum)
    ensures Contiguous(d) && d.Valid() && AscendingRates(d.funding)
  {}

  /** A position that survives the open keeps the time it was last charged; one that appears there is fresh. */
  lemma OpenKeepsTheMark(p: Account, cfg: Config, env: Env, dna: Dna)
    ensures var e := AtTheOpen(p, cfg, env, dna);
      && (p.position.Some? && e.position.Some? ==> e.position.value.lastFunding == p.position.value.lastFunding)
      && (p.position.None? && e.position.Some? ==>
            e.position.value.entryBar == env.K() && e.position.value.lastFunding == env.K() - 1)
  {
    hide ClosePosition, AfterEntry, ApproveAgainstMargin;
    var rolled := p.(agent := RollDay(p.agent, env));
    if p.position.Some? {
      var taken := rolled.(position := Some(p.position.value.(pendingExit := None)));
      Protection.CloseShape(taken, cfg, env, Some(dna), env.bar.open, MarketOrder, SignalExit);
    } else {
      PendingIndexBound(p.orders);
    }
  }

  /** An iteration that leaves a position for the next bar had an entry signal. */
  lemma EnteringIsSignalled(st: Bt, d: Data, cfg: Config, i: nat)
    requires i < |d.bars| && (st.pos.Some? ==> st.pos.value.entryIndex <= i)
    requires BtIterate(st, d, cfg, i).pos.Some? && BtIterate(st, d, cfg, i).pos.value.entryIndex == i + 1
    ensures EntrySignal(d, i)
  {
    hide BtProtect, BtFunded, BtEnter, ExitQuote, LiquidationPenalty, ComputeTradePnL, SettleClose;
    var r := BtRollDay(st, d, i);
    if Held(r, i) {
      FundedCounts(r, d, i);
      ProtectCounts(BtFunded(r, d, r.pos.value, i), d, cfg, i);
    }
  }

  /** A backtest position entered on bar `i` was signalled on the bar before. */
  lemma FreshWasSignalled(d: Data, cfg: Config, i: nat)
    requires d.Valid() && i <= d.last && BtRun(d, cfg, i).pos.Some? && BtRun(d, cfg, i).pos.value.entryIndex == i
    ensures d.first < i && EntrySignal(d, i - 1)
  {
    hide BtIterate;
    if d.first < i {
      RunIsOrdered(d, cfg, i - 1);
      EnteringIsSignalled(BtRun(d, cfg, i - 1), d, cfg, i - 1);
    }
  }

  lemma OneIndexPerTime(d: Data, i: int, j: int)
    requires d.Valid() && Contiguous(d) && 0 <= i < |d.bars| && 0 <= j < |d.bars|
    requires d.bars[i].openTime == d.bars[j].openTime
    ensures i == j
  {
    assert (i - j) * d.intervalMs == 0;
  }

  lemma LoadsCover(d: Data, cfg: Config, loads: nat -> seq<Rate>, day: int, step: real, minimum: real, i: nat)
    requires FromData(d, cfg, step, minimum) && LoadsAsTheCode(d, cfg, loads, day) && d.first <= i < d.last
    requires InStep(d, cfg, loads, day, i)
    ensures Loaded(BtRun(d, cfg, i), d, i, loads(i))
  {
    hide BtRun, PaperRun, AtTheOpen, Due, Threshold, Follows, SizesByCash, KeepsCash, SameCount, SameBooks;
    Unfold(d, cfg, step, minimum);
    var p, st := PaperRun(d, cfg, loads, day, i), BtRun(d, cfg, i);
    if st.pos.Some? {
      var env := PaperEnv(d, cfg, i, loads(i));
      OpenKeepsTheMark(p, cfg, env, d.strategy.dna);
      var last := st.pos.value.lastFunding;
      if p.position.Some? {
        OpenPositionsAreCovered(d.funding, [last], last, d.CloseMs(i));
      } else {
        OneIndexPerTime(d, st.pos.value.entryIndex, i);
        FreshWasSignalled(d, cfg, i);
        NextBar(d, i - 1);
        assert GoodFillBar(d, step, minimum, i - 1);
        NothingDue(d.funding, last, d.CloseMs(i));
        NothingDue([], last, d.CloseMs(i));
      }
    }
  }

  lemma NothingDisturbs(d: Data, cfg: Config, loads: nat -> seq<Rate>, day: int, step: real, minimum: real, i: nat)
    requires FromData(d, cfg, step, minimum) && LoadsAsTheCode(d, cfg, loads, day) && d.first <= i < d.last
    requires InStep(d, cfg, loads, day, i)
    ensures Undisturbed(d, cfg, loads, day, i)
  {
    hide BtRun, PaperAtOpen, Follows, SizesByCash, EntryAgrees, Loaded, SameCount, Viable, BtManage, Ready;
    LoadsCover(d, cfg, loads, day, step, minimum, i);
    var e, st := PaperAtOpen(d, cfg, loads, day, i), BtRun(d, cfg, i);
    if i + 1 < d.last {
      EntriesAgree(e.agent, BtRollDay(st, d, i), d, cfg, step, minimum, i);
    }
  }

  /** From the data alone: if sizes depend on cash, every entry signal is followed by a bar of the same day without a
      settlement inside and with a minimum that does not come down, and the backtest keeps the cash to trade, then paper
      is in step with the backtest on every bar. */
  lemma {:induction false} PaperMatchesOnData(d: Data, cfg: Config, loads: nat -> seq<Rate>, day: int, step: real,
                                              minimum: real, i: nat)
    requires FromData(d, cfg, step, minimum) && LoadsAsTheCode(d, cfg, loads, day) && d.first <= i < d.last
    ensures InStep(d, cfg, loads, day, i) && Undisturbed(d, cfg, loads, day, i)
  {
    hide InStep, Undisturbed, LoadsAsTheCode, BtRun, GoodFillBars, Follows, SizesByCash, Viable, BtManage;
    if i == d.first {
      ParallelStart(d, cfg, loads, day);
    } else {
      PaperMatchesOnData(d, cfg, loads, day, step, minimum, i - 1);
      OneMoreBar(d, cfg, loads, day, i - 1);
    }
    NothingDisturbs(d, cfg, loads, day, step, minimum, i);
  }
}
