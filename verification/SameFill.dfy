/** From the same fill to the same exit: one position's life through the whole cycles of paper and the iterations of the
    backtest, and the one thing paper does on its own. */
module SameFill {
  import opened Market
  import opened PnlEngine
  import opened PositionManager
  import opened Accounting
  import opened PaperLoop
  import opened Discipline
  import opened Backtest
  import opened Parity
  import Retry

  /** The paper account before the cycle of bar `j`, after the cycles of bars `i` to `j - 1`. */
  function PaperLife(p: Account, d: Data, cfg: Config, loads: nat -> seq<Rate>, i: nat, j: nat): Account
    requires i <= j <= |d.bars|
  {
    if j == i then p
    else
      Cycle(PaperLife(p, d, cfg, loads, i, j - 1), cfg, PaperEnv(d, cfg, j - 1, loads(j - 1)), Some(d.strategy.dna),
            true, Retry.NO_FAULTS)
  }

  /** The backtest before iteration `j`, after iterations `i` to `j - 1`. */
  function BtLife(st: Bt, d: Data, cfg: Config, i: nat, j: nat): Bt
    requires i <= j <= |d.bars|
  {
    if j == i then st else BtIterate(BtLife(st, d, cfg, i, j - 1), d, cfg, j - 1)
  }

  /** The backtest after the management of bar `j`. */
  function BtManaged(s: Bt, d: Data, cfg: Config, j: nat): Bt
    requires j < |d.bars|
  {
    BtManage(BtRollDay(s, d, j), d, cfg, j)
  }

  predicate ExitSignalled(c: Bt, d: Data, j: nat)
    requires c.pos.Some? && j < |d.bars|
  {
    d.strategy.signal(d.Prefix(j), Some(c.pos.value.side)).matchedExit
  }

  /** Flat in both, on the same books; paper has also retired the account if its cash is too small to trade. */
  ghost predicate ClosedAlike(y: Account, c: Bt, d: Data, cfg: Config)
    requires d.bars != []
  {
    && y.position.None? && c.pos.None? && SameCash(y, c, d)
    && (y.agent.status.Dead? <==> c.dead || c.balance < cfg.minViableEquity)
  }

  /** Held in both; paper carries a signal exit to the next open. */
  ghost predicate HeldAlike(y: Account, c: Bt, d: Data, j: nat)
    requires j < |d.bars|
  {
    && y.position.Some? && c.pos.Some? && SameBooks(y, c, d) && SamePosition(y.position.value, c.pos.value, d)
    && y.position.value.pendingExit == (if ExitSignalled(c, d, j) then Some(d.bars[j].openTime) else None)
  }

  /** What the account has to be for its cycle to run. */
  ghost predicate Alive(p: Account, d: Data, j: nat)
    requires j < |d.bars|
  {
    p.agent.status.Active? && Ready(p, d, j)
  }

  ghost predicate Setting(d: Data, cfg: Config) {
    d.Valid() && Contiguous(d) && NoFraction(cfg) && AscendingRates(d.funding)
  }

  // ---------------------------------------------------------------- the end of a bar

  lemma SettlingKeepsOrders(acct: Account, cfg: Config, env: Env, dna: Option<Dna>, p: Position, price: real, fee: real,
                            kind: OrderKind, reason: Reason, forced: bool)
    ensures Settle(acct, cfg, env, dna, p, price, fee, kind, reason, forced).orders == acct.orders
  {
    hide LiquidationPenalty, ComputeTradePnL, SettleClose, AfterClose, AfterCosts, WithCooldown;
  }

  lemma ClosingKeepsOrders(acct: Account, cfg: Config, env: Env, dna: Option<Dna>, reference: real, kind: OrderKind,
                           reason: Reason)
    requires acct.position.Some?
    ensures ClosePosition(acct, cfg, env, dna, reference, kind, reason).orders == acct.orders
  {
    hide ExitQuote, Settle;
    var p := acct.position.value;
    match env.fillExit(ExitOrder(p, env, reference, kind))
    case ExitFilled(price, fee) =>
      SettlingKeepsOrders(Decided(acct, env), cfg, env, dna, p, price, fee, kind, reason, false);
    case ExitRefused =>
      var quote := ExitQuote(p.side, p.quantity, reference, kind, cfg.costs);
      SettlingKeepsOrders(Decided(acct, env).(position := Some(Tried(p))), cfg, env, dna, Tried(p), quote.price,
                          quote.fee, kind, reason, true);
  }

  /** An order that was pending before the open is not pending after it. */
  lemma NothingStillHeld(p: Account, x: Account, cfg: Config, env: Env, dna: Dna)
    requires NonePending(AtTheOpen(p, cfg, env, dna).orders)
    ensures !StillHeld(p, x)
  {
    hide ClosePosition;
    if p.position.Some? {
      var rolled := p.(agent := RollDay(p.agent, env));
      var taken := rolled.(position := Some(p.position.value.(pendingExit := None)));
      ClosingKeepsOrders(taken, cfg, env, Some(dna), env.bar.open, MarketOrder, SignalExit);
      Retry.NoPendingIndex(p.orders);
    }
  }

  /** Both machines held the position at the open of bar `j`: at the end of the bar's whole cycle they have both closed
      it or both hold it on. */
  lemma EndOfBar(p: Account, s: Bt, d: Data, cfg: Config, j: nat, now: seq<Rate>)
    requires Setting(d, cfg) && j < |d.bars| && Alive(p, d, j) && s.pos.Some? && Loaded(s, d, j, now)
    requires Parallel(AtTheOpen(p, cfg, PaperEnv(d, cfg, j, now), d.strategy.dna), s, d, j)
    ensures var c := BtManaged(s, d, cfg, j);
      var y := Cycle(p, cfg, PaperEnv(d, cfg, j, now), Some(d.strategy.dna), true, Retry.NO_FAULTS);
      if c.pos.None? then ClosedAlike(y, c, d, cfg) else HeldAlike(y, c, d, j)
  {
    hide AtTheOpen, Manage, BtManage, Cycle, StillHeld;
    var env, dna := PaperEnv(d, cfg, j, now), d.strategy.dna;
    var e := AtTheOpen(p, cfg, env, dna);
    ManageAgrees(e, s, d, cfg, j, now);
    var b := Manage(e, cfg, env, Some(dna));
    var x := ManageAndSignal(e, cfg, env, dna);
    assert x == if b.position.None? then b else HoldOrExit(b, cfg, env, dna);
    NothingStillHeld(p, x, cfg, env, dna);
    CycleIsProcessing(p, cfg, env, dna);
  }

  /** A long of one unit entered at 10 with a stop at 7.5, 3 in cash, and no costs: the bar trades down to 7. */
  ghost predicate StopsOut(s: Bt, d: Data, cfg: Config, j: nat)
    requires j < |d.bars|
  {
    && s.balance == 3.0 && !s.dead && !s.stopped && d.funding == []
    && s.pos.Some? && s.pos.value.entryIndex <= j
    && (var p := s.pos.value;
        && p.side == Long && p.entryPrice == 10.0 && p.quantity == 1.0 && p.stop == Some(7.5) && p.tp == None
        && p.trailDistance == None && p.peak == 10.0 && p.trough == 10.0)
    && d.bars[j] == Bar(d.bars[j].openTime, 10.0, 10.0, 7.0, 8.0) && d.start == 3.0
    && cfg.costs == Costs(0.0, 0.0, 0.0, 0.0, 0.0, 0.0) && cfg.mmr == 0.0 && cfg.bankruptcyFraction == 0.0
  }

  /** The stop leaves half a unit of cash: the backtest lives on, and paper, which asks for a whole one, retires. */
  lemma HalfAUnitIsRetired(p: Account, s: Bt, d: Data, cfg: Config, j: nat, now: seq<Rate>)
    requires Setting(d, cfg) && j < |d.bars| && Alive(p, d, j) && s.pos.Some? && Loaded(s, d, j, now)
    requires Parallel(AtTheOpen(p, cfg, PaperEnv(d, cfg, j, now), d.strategy.dna), s, d, j)
    requires StopsOut(s, d, cfg, j) && cfg.minViableEquity == 1.0
    ensures var c := BtManaged(s, d, cfg, j);
      var y := Cycle(p, cfg, PaperEnv(d, cfg, j, now), Some(d.strategy.dna), true, Retry.NO_FAULTS);
      c.pos.None? && c.balance == 0.5 && !c.dead && y.agent.balance == 0.5 && y.agent.status.Dead?
  {
    hide Cycle, AtTheOpen, Parallel;
    EndOfBar(p, s, d, cfg, j, now);
    HalfIsLeft(s, d, cfg, j);
  }

  lemma HalfIsLeft(s: Bt, d: Data, cfg: Config, j: nat)
    requires j < |d.bars| && StopsOut(s, d, cfg, j)
    ensures var c := BtManaged(s, d, cfg, j); c.pos.None? && c.balance == 0.5 && !c.dead
  {
    var r := BtRollDay(s, d, j);
    assert BtFunded(r, d, r.pos.value, j) == r;
    var levels := BtLevels(r.pos.value, r.balance, cfg, d.strategy.dna);
    assert levels.liquidation == Some(7.0);
    assert EvaluateBar(levels, d.bars[j], cfg.sameBarExtreme) == Some(Trigger(StopLoss, StopOrder, 7.5, 7.5));
  }

  // ---------------------------------------------------------------- after a signal exit

  /** Placing an entry for the next open leaves everything but the orders and the decision row alone. */
  lemma PlacingOnlyOrders(x: Account, cfg: Config, env: Env, dna: Dna)
    requires env.nextOpen && NonePending(x.orders)
    ensures var z := PlaceEntry(x, cfg, env, dna);
      && z == x.(orders := z.orders, decided := z.decided) && Settled(z.(position := None), env.K())
  {
    hide ApprovedNotional, FillEntry;
  }

  /** The cycle of an account that is flat once the open is executed. */
  lemma FlatCycle(y: Account, m: Bt, d: Data, cfg: Config, k: nat, now: seq<Rate>)
    requires Setting(d, cfg) && k < |d.bars| && Alive(y, d, k) && m.pos.None?
    requires Parallel(AtTheOpen(y, cfg, PaperEnv(d, cfg, k, now), d.strategy.dna), m, d, k)
    ensures ClosedAlike(Cycle(y, cfg, PaperEnv(d, cfg, k, now), Some(d.strategy.dna), true, Retry.NO_FAULTS), m, d, cfg)
  {
    hide AtTheOpen, PlaceEntry, Cycle, StillHeld;
    var env, dna := PaperEnv(d, cfg, k, now), d.strategy.dna;
    var x := AtTheOpen(y, cfg, env, dna);
    PlacingOnlyOrders(x, cfg, env, dna);
    var z := ManageAndSignal(x, cfg, env, dna);
    assert z == PlaceEntry(x, cfg, env, dna);
    NothingStillHeld(y, z, cfg, env, dna);
    CycleIsProcessing(y, cfg, env, dna);
  }

  lemma SignalledExits(s: Bt, d: Data, cfg: Config, j: nat)
    requires StepSetting(d, cfg, j) && s.pos.Some? && s.pos.value.entryIndex <= j && !s.stopped
    requires var c := BtManaged(s, d, cfg, j);
      c.pos.Some? && ExitSignalled(c, d, j) && !c.dead && c.pos.value.entryIndex <= j
    ensures BtIterate(s, d, cfg, j).pos.None?
  {
    hide BtManage, ExitQuote, LiquidationPenalty, ComputeTradePnL, SettleClose;
  }

  /** The exit signalled on bar `j` closes the position at the next open, on the same books; the cycle of that bar then
      retires the account if its cash is too small. */
  lemma AfterSignalExit(p: Account, s: Bt, d: Data, cfg: Config, j: nat, now: seq<Rate>, next: seq<Rate>)
    requires StepSetting(d, cfg, j) && Alive(p, d, j) && s.pos.Some? && Loaded(s, d, j, now)
    requires Parallel(AtTheOpen(p, cfg, PaperEnv(d, cfg, j, now), d.strategy.dna), s, d, j)
    requires BtManaged(s, d, cfg, j).pos.Some? && ExitSignalled(BtManaged(s, d, cfg, j), d, j)
    ensures var y := Cycle(p, cfg, PaperEnv(d, cfg, j, now), Some(d.strategy.dna), true, Retry.NO_FAULTS);
      var env, m := PaperEnv(d, cfg, j + 1, next), BtIterate(s, d, cfg, j);
      var x := AtTheOpen(y, cfg, env, d.strategy.dna);
      && x.position.None? && m.pos.None? && SameBooks(x, m, d)
      && ClosedAlike(Cycle(y, cfg, env, Some(d.strategy.dna), true, Retry.NO_FAULTS), m, d, cfg)
  {
    hide AtTheOpen, Manage, BtManage, Cycle, StillHeld, ManageAndSignal, BtIterate, Parallel;
    var env, dna := PaperEnv(d, cfg, j, now), d.strategy.dna;
    var e := AtTheOpen(p, cfg, env, dna);
    var x := ManageAndSignal(e, cfg, env, dna);
    StillAlive(p, s, d, cfg, j, now, next);
    HeldManages(e, s, d, cfg, j, now);
    SignalledExits(s, d, cfg, j);
    FlatInBoth(AtTheOpen(x, cfg, PaperEnv(d, cfg, j + 1, next), dna), BtIterate(s, d, cfg, j), d, j + 1);
    FlatCycle(x, BtIterate(s, d, cfg, j), d, cfg, j + 1, next);
  }

  lemma HeldManages(e: Account, s: Bt, d: Data, cfg: Config, j: nat, now: seq<Rate>)
    requires Setting(d, cfg) && j < |d.bars| && Parallel(e, s, d, j) && s.pos.Some? && Loaded(s, d, j, now)
    ensures var c := BtManaged(s, d, cfg, j);
      s.pos.value.entryIndex <= j && !s.stopped && (c.pos.Some? ==> !c.dead && c.pos.value.entryIndex <= j)
  {
    hide Manage, BtManage;
    ManageAgrees(e, s, d, cfg, j, now);
  }

  lemma FlatInBoth(x: Account, m: Bt, d: Data, k: nat)
    requires k < |d.bars| && Parallel(x, m, d, k) && m.pos.None?
    ensures x.position.None? && SameBooks(x, m, d)
  {}

  /** A bar that leaves the position open leaves the account ready for the next one. */
  lemma StillAlive(p: Account, s: Bt, d: Data, cfg: Config, j: nat, now: seq<Rate>, next: seq<Rate>)
    requires StepSetting(d, cfg, j) && Alive(p, d, j) && s.pos.Some? && Loaded(s, d, j, now)
    requires Parallel(AtTheOpen(p, cfg, PaperEnv(d, cfg, j, now), d.strategy.dna), s, d, j)
    requires BtManaged(s, d, cfg, j).pos.Some?
    ensures var y := Cycle(p, cfg, PaperEnv(d, cfg, j, now), Some(d.strategy.dna), true, Retry.NO_FAULTS);
      && y == ManageAndSignal(AtTheOpen(p, cfg, PaperEnv(d, cfg, j, now), d.strategy.dna), cfg,
                              PaperEnv(d, cfg, j, now), d.strategy.dna)
      && Alive(y, d, j + 1)
      && Parallel(AtTheOpen(y, cfg, PaperEnv(d, cfg, j + 1, next), d.strategy.dna), BtIterate(s, d, cfg, j), d, j + 1)
  {
    hide AtTheOpen, BtManage, Cycle, StillHeld, ManageAndSignal, BtIterate, Parallel;
    var env, dna := PaperEnv(d, cfg, j, now), d.strategy.dna;
    HeldStep(AtTheOpen(p, cfg, env, dna), s, d, cfg, j, now, next);
    CycleIsProcessing(p, cfg, env, dna);
    OpenDecides(p, cfg, env, dna);
    NextBar(d, j);
  }

  // ---------------------------------------------------------------- the whole life

  /** Everything asked of the setting over bars `i` to `j`: the backtest holds the position at each open, every bar has
      a context, and paper's loads cover. */
  ghost predicate HeldOver(st: Bt, d: Data, cfg: Config, loads: nat -> seq<Rate>, i: nat, j: nat)
    requires i <= j < |d.bars|
  {
    forall k :: i <= k <= j ==>
      && BtLife(st, d, cfg, i, k).pos.Some? && Loaded(BtLife(st, d, cfg, i, k), d, k, loads(k))
      && d.strategy.context(d.Prefix(k)).Some?
  }

  lemma {:induction false} LivesInStep(p: Account, st: Bt, d: Data, cfg: Config, loads: nat -> seq<Rate>, i: nat,
                                       j: nat)
    requires Setting(d, cfg) && i <= j < |d.bars| && Alive(p, d, i) && HeldOver(st, d, cfg, loads, i, j)
    requires Parallel(AtTheOpen(p, cfg, PaperEnv(d, cfg, i, loads(i)), d.strategy.dna), st, d, i)
    ensures var y := PaperLife(p, d, cfg, loads, i, j);
      Alive(y, d, j)
      && Parallel(AtTheOpen(y, cfg, PaperEnv(d, cfg, j, loads(j)), d.strategy.dna), BtLife(st, d, cfg, i, j), d, j)
  {
    hide AtTheOpen, Cycle, BtIterate, Parallel, Alive, Loaded, PaperEnv;
    if i < j {
      LivesInStep(p, st, d, cfg, loads, i, j - 1);
      var y, s := PaperLife(p, d, cfg, loads, i, j - 1), BtLife(st, d, cfg, i, j - 1);
      HeldOn(y, s, d, cfg, j - 1, loads(j - 1), loads(j));
    }
  }

  /** One more bar over which the backtest holds the position. */
  lemma HeldOn(p: Account, s: Bt, d: Data, cfg: Config, j: nat, now: seq<Rate>, next: seq<Rate>)
    requires StepSetting(d, cfg, j) && Alive(p, d, j) && s.pos.Some? && Loaded(s, d, j, now)
    requires Parallel(AtTheOpen(p, cfg, PaperEnv(d, cfg, j, now), d.strategy.dna), s, d, j)
    requires BtIterate(s, d, cfg, j).pos.Some?
    ensures var y := Cycle(p, cfg, PaperEnv(d, cfg, j, now), Some(d.strategy.dna), true, Retry.NO_FAULTS);
      && Alive(y, d, j + 1)
      && Parallel(AtTheOpen(y, cfg, PaperEnv(d, cfg, j + 1, next), d.strategy.dna), BtIterate(s, d, cfg, j), d, j + 1)
  {
    hide AtTheOpen, Cycle, BtIterate, Parallel, Alive, Loaded;
    HeldManages(AtTheOpen(p, cfg, PaperEnv(d, cfg, j, now), d.strategy.dna), s, d, cfg, j, now);
    HeldBefore(s, d, cfg, j);
    StillAlive(p, s, d, cfg, j, now, next);
  }

  /** Whoever holds a position after the iteration held it through the management of that bar. */
  lemma HeldBefore(s: Bt, d: Data, cfg: Config, j: nat)
    requires j < |d.bars| && s.pos.Some? && s.pos.value.entryIndex <= j && !s.stopped
    requires d.strategy.context(d.Prefix(j)).Some? && BtIterate(s, d, cfg, j).pos.Some?
    ensures BtManaged(s, d, cfg, j).pos.Some?
  {
    hide BtManage, ExitQuote, LiquidationPenalty, ComputeTradePnL, SettleClose;
  }

  /** From the same fill, over any bars, with loads that cover and the same exit signals, through paper's whole cycles.
      On every bar `j` at whose open the position is held, the last of the data included: both hold the same position at
      the open; at the end of the bar both have closed it, with the same order kind, price, trade and books, or both
      hold it on; and an exit signalled on that bar closes it in both at the next open. Dead and alive are the same too,
      but for what paper does on its own: it retires a flat account with less cash than an entry takes. */
  lemma SameFillSameExit(p: Account, st: Bt, d: Data, cfg: Config, loads: nat -> seq<Rate>, i: nat, j: nat)
    requires Setting(d, cfg) && i <= j < |d.bars| && Alive(p, d, i) && HeldOver(st, d, cfg, loads, i, j)
    requires Parallel(AtTheOpen(p, cfg, PaperEnv(d, cfg, i, loads(i)), d.strategy.dna), st, d, i)
    ensures var y, s := PaperLife(p, d, cfg, loads, i, j), BtLife(st, d, cfg, i, j);
      var z, c := PaperLife(p, d, cfg, loads, i, j + 1), BtManaged(s, d, cfg, j);
      && Parallel(AtTheOpen(y, cfg, PaperEnv(d, cfg, j, loads(j)), d.strategy.dna), s, d, j)
      && (if c.pos.None? then ClosedAlike(z, c, d, cfg) else HeldAlike(z, c, d, j))
      && (c.pos.Some? && ExitSignalled(c, d, j) && j + 1 < |d.bars| ==>
            var m := BtLife(st, d, cfg, i, j + 1);
            var x := AtTheOpen(z, cfg, PaperEnv(d, cfg, j + 1, loads(j + 1)), d.strategy.dna);
            && x.position.None? && m.pos.None? && SameBooks(x, m, d)
            && ClosedAlike(PaperLife(p, d, cfg, loads, i, j + 2), m, d, cfg))
  {
    hide AtTheOpen, Cycle, BtIterate, Parallel, Alive, BtManaged, ClosedAlike, HeldAlike, ExitSignalled, SameBooks;
    LivesInStep(p, st, d, cfg, loads, i, j);
    var y, s := PaperLife(p, d, cfg, loads, i, j), BtLife(st, d, cfg, i, j);
    EndOfBar(y, s, d, cfg, j, loads(j));
    var c := BtManaged(s, d, cfg, j);
    if c.pos.Some? && ExitSignalled(c, d, j) && j + 1 < |d.bars| {
      AfterSignalExit(y, s, d, cfg, j, loads(j), loads(j + 1));
    }
  }

  // ---------------------------------------------------------------- bankruptcy on the mark

  /** With a bankruptcy fraction the two deaths on the mark part: on a bar that the position survives they agree exactly
      when its equity is above that fraction of the start. */
  lemma MarkDeathsAgreeExactlyWhen(acct: Account, st: Bt, d: Data, cfg: Config, env: Env, i: nat)
    requires i < |d.bars| && acct.position.Some? && Sane(env.bar) && env.bar == d.bars[i] && !acct.agent.status.Dead?
    requires st.pos.Some? && st.pos.value.entryIndex <= i && !st.dead && st.balance == acct.agent.balance
    requires SamePosition(acct.position.value, st.pos.value, d)
    requires EvaluateBar(LevelsOf(acct.position.value, acct.agent.balance, cfg, Some(d.strategy.dna)), env.bar,
                         cfg.sameBarExtreme).None?
    ensures (Protect(acct, cfg, env, Some(d.strategy.dna)).agent.status.Dead? <==> BtMark(st, d, i).dead)
            <==> BtMark(st, d, i).curve[|st.curve|] > acct.agent.startingBalance * cfg.bankruptcyFraction
  {
    hide Protect, EvaluateBar, LevelsOf;
    Survival.SurvivedBarOnlyMarks(acct, cfg, env, Some(d.strategy.dna));
  }
}
