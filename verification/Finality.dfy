/** Accounts that have ended: their final figures are their last cash, and nothing changes them any more. */
module Finality {
  import opened Market
  import opened PnlEngine
  import opened PositionManager
  import opened Accounting
  import opened PaperLoop
  import Protection
  import Ledger

  predicate Ended(a: Agent) { a.status.Dead? || a.status.Retired? }

  /** Only an ended account has final figures, and once it is flat they are its cash. */
  ghost predicate Frozen(acct: Account) {
    var a := acct.agent;
    && (!Ended(a) ==> a.finalEquity.None? && a.finalPnl.None?)
    && (Ended(a) && acct.position.None? ==>
          a.finalEquity == Some(a.balance) && a.finalPnl == Some(a.balance - a.startingBalance)
            && a.equity == a.balance)
    && (a.status.Retired? ==> acct.position.None?)
  }

  lemma BookFreezes(acct: Account, cfg: Config, env: Env, dna: Option<Dna>, p: Position, price: real, exitFee: real,
                    kind: OrderKind, reason: Reason, forced: bool)
    requires Frozen(acct) && acct.position.Some?
    ensures var b := Book(acct, cfg, env, dna, p, price, exitFee, kind, reason, forced);
      Frozen(b) && !b.agent.status.Retired?
  {}

  lemma CloseFreezes(acct: Account, cfg: Config, env: Env, dna: Option<Dna>, reference: real, kind: OrderKind,
                     reason: Reason)
    requires Frozen(acct) && acct.position.Some?
    ensures var b := ClosePosition(acct, cfg, env, dna, reference, kind, reason); Frozen(b) && !b.agent.status.Retired?
  {
    hide Book, ExitQuote, LiquidationPenalty;
    var p := acct.position.value;
    match env.fillExit(ExitOrder(p, env, reference, kind))
    case ExitFilled(price, fee) =>
      BookFreezes(Decided(acct, env), cfg, env, dna, p, price,
                  fee + LiquidationPenalty(kind, price, p.quantity, cfg.costs), kind, reason, false);
    case ExitRefused =>
      var quote := ExitQuote(p.side, p.quantity, reference, kind, cfg.costs);
      BookFreezes(Decided(acct, env).(position := Some(Tried(p))), cfg, env, dna, Tried(p), quote.price,
                  quote.fee + LiquidationPenalty(kind, quote.price, p.quantity, cfg.costs), kind, reason, true);
  }

  lemma ManageFreezes(acct: Account, cfg: Config, env: Env, dna: Option<Dna>)
    requires Frozen(acct) && acct.position.Some?
    ensures Frozen(Manage(acct, cfg, env, dna))
  {
    hide ClosePosition, EvaluateBar, LiquidationPrice, Liquidatable, Equity, DrawdownAfter, MilestoneAfter,
      BankruptcyLevel, AdvanceExtremes, Charge;
    if !Processed(acct.position.value, env.K()) {
      var p := acct.position.value;
      Protection.ChargeKeepsRest(Holding(acct.agent, p), Due(env.rates, p.lastFunding, env.CloseMs()), env.bar.close);
      var funded := Accrue(acct, env);
      var q := funded.position.value;
      var levels := LevelsOf(q, funded.agent.balance, cfg, dna);
      var held := funded.(position := Some(Evaluated(q, env.K())));
      var trigger := EvaluateBar(levels, env.bar, cfg.sameBarExtreme);
      if trigger.Some? {
        CloseFreezes(held, cfg, env, dna, trigger.value.reference, trigger.value.kind, trigger.value.reason);
      } else {
        CloseFreezes(held.(position := Some(Survived(Evaluated(q, env.K()), levels, env.bar))), cfg, env, dna,
                     env.bar.close, LiquidationOrder, Liquidation);
      }
    }
  }

  lemma FillFreezes(acct: Account, cfg: Config, env: Env, dna: Dna, i: nat, reference: real, immediate: bool)
    requires Frozen(acct) && acct.position.None? && !acct.agent.status.Retired? && i < |acct.orders|
    ensures var b := FillEntry(acct, cfg, env, dna, i, reference, immediate);
      Frozen(b) && !b.agent.status.Retired?
  {}

  lemma ProcessFreezes(acct: Account, cfg: Config, env: Env, dna: Dna)
    requires Frozen(acct) && Ledger.Balanced(acct) && acct.agent.status.Active?
    ensures Frozen(ProcessAgent(acct, cfg, env, dna))
  {
    hide AtTheOpen, ManageAndSignal, StillHeld, Ledger.TotalsOf, Ledger.Reconciled;
    var entered := AtTheOpen(acct, cfg, env, dna);
    OpenFreezes(acct, cfg, env, dna);
    ManageAndSignalFreezes(entered, cfg, env, dna);
    Ledger.NextOpenBalances(acct.(agent := RollDay(acct.agent, env)), cfg, env, dna) by {
      RollingBalances(acct, env);
    }
    assert Ledger.Balanced(entered) by { OpenIsNextOpen(acct, cfg, env, dna); }
    Ledger.ManageAndSignalBalances(entered, cfg, env, dna);
  }

  lemma RollingBalances(acct: Account, env: Env)
    requires Ledger.Balanced(acct)
    ensures Ledger.Balanced(acct.(agent := RollDay(acct.agent, env)))
  {}

  lemma OpenIsNextOpen(acct: Account, cfg: Config, env: Env, dna: Dna)
    ensures AtTheOpen(acct, cfg, env, dna) == ExecuteNextOpen(acct.(agent := RollDay(acct.agent, env)), cfg, env, dna)
  {}

  lemma OpenFreezes(acct: Account, cfg: Config, env: Env, dna: Dna)
    requires Frozen(acct) && acct.agent.status.Active?
    ensures var b := AtTheOpen(acct, cfg, env, dna); Frozen(b) && !b.agent.status.Retired?
  {
    hide ClosePosition, FillEntry;
    var rolled := acct.(agent := RollDay(acct.agent, env));
    if acct.position.Some? {
      CloseFreezes(rolled.(position := Some(acct.position.value.(pendingExit := None))), cfg, env, Some(dna),
                   env.bar.open, MarketOrder, SignalExit);
    } else {
      PendingIndexBound(acct.orders);
      var i := PendingIndex(acct.orders);
      if i.Some? {
        FillFreezes(rolled, cfg, env, dna, i.value, env.bar.open, false);
      }
    }
  }

  lemma ManageAndSignalFreezes(acct: Account, cfg: Config, env: Env, dna: Dna)
    requires Frozen(acct) && !acct.agent.status.Retired?
    ensures Frozen(ManageAndSignal(acct, cfg, env, dna))
  {
    hide ClosePosition, Manage, FillEntry, ApproveAgainstMargin;
    if acct.position.Some? {
      ManageFreezes(acct, cfg, env, Some(dna));
      var managed := Manage(acct, cfg, env, Some(dna));
      if managed.position.Some? {
        CloseFreezes(managed, cfg, env, Some(dna), env.bar.close, LiquidationOrder, AgentDeath);
        CloseFreezes(managed.(position := Some(Signalled(managed.position.value, env.K()))), cfg, env, Some(dna),
                     env.bar.close, MarketOrder, SignalExit);
      }
    } else {
      PlaceFreezes(acct, cfg, env, dna);
    }
  }

  lemma PlaceFreezes(acct: Account, cfg: Config, env: Env, dna: Dna)
    requires Frozen(acct) && acct.position.None? && !acct.agent.status.Retired?
    ensures Frozen(PlaceEntry(acct, cfg, env, dna))
  {}

  lemma SweepFreezes(acct: Account, cfg: Config, env: Env, dna: Option<Dna>, faults: Faults)
    requires Frozen(acct)
    ensures Frozen(Sweep(acct, cfg, env, dna, faults))
  {
    hide Manage, ClosePosition;
    if acct.position.Some? {
      ManageFreezes(acct, cfg, env, dna);
      var managed := Manage(acct, cfg, env, dna);
      if managed.position.Some? {
        CloseFreezes(managed, cfg, env, dna, env.bar.close, LiquidationOrder, AgentDeath);
        CloseFreezes(managed, cfg, env, dna, env.bar.close, MarketOrder, OrphanResolution);
      }
    }
  }

  lemma RolloverFreezes(acct: Account, mark: real, feeRate: real, at: int)
    requires Frozen(acct) && Ledger.Balanced(acct)
    ensures Frozen(Rollover(acct, mark, feeRate, at))
  {}

  lemma StepFreezes(acct: Account, cfg: Config, e: Event)
    requires Frozen(acct) && Ledger.Balanced(acct)
    ensures Frozen(Step(acct, cfg, e))
  {
    hide ProcessAgent, Sweep, Rollover, Ledger.TotalsOf, Ledger.Reconciled;
    match e
    case Candle(env, dna, cycled, faults) =>
      if dna.Some? && acct.agent.status.Active? {
        ProcessFreezes(acct, cfg, env, dna.value);
      }
      SweepFreezes(Decide(acct, cfg, env, dna, cycled, faults), cfg, env, dna, faults);
    case ProtectBar(env, dna, faults) =>
      SweepFreezes(acct, cfg, env, dna, faults);
    case EndOfGeneration(mark, feeRate, at) =>
      RolloverFreezes(acct, mark, feeRate, at);
  }

  /** Over every run: an account that ended and is flat reports its cash as its final equity, and as its final result
      what its trades made together with what was written off; a running account reports nothing yet. */
  lemma {:induction false} RunsFreeze(start: real, day: int, cfg: Config, events: seq<Event>)
    ensures var b := Run(NewAccount(start, day), cfg, events);
      && Frozen(b)
      && (Ended(b.agent) && b.position.None? ==> b.agent.finalPnl == Some(b.agent.realizedPnl + b.agent.badDebt))
  {
    hide Step, Ledger.TotalsOf;
    Ledger.RunsBalance(start, day, cfg, events);
    if events != [] {
      var init := events[..|events| - 1];
      RunsFreeze(start, day, cfg, init);
      Ledger.RunsBalance(start, day, cfg, init);
      StepFreezes(Run(NewAccount(start, day), cfg, init), cfg, events[|events| - 1]);
    }
  }

  // ---------------------------------------------------------------- the end of a generation

  /** Cash and the open position at this mark, on its own side. */
  function MarkedAt(a: Agent, p: Position, mark: real): real {
    if p.side.Long? then a.balance + (mark - p.entryPrice) * p.quantity
    else a.balance + (p.entryPrice - mark) * p.quantity
  }

  /** A rollover settles an open position at the mark: the owner is left with the equity there less the fee on the
      marked notional, floored at nothing with the shortfall recorded; the trade says so; and that is the final equity
      of an owner whose run ends here, and of one that had died. */
  lemma RolloverSettlesAtTheMark(acct: Account, mark: real, feeRate: real, at: int)
    requires acct.position.Some?
    ensures var a, p, b := acct.agent, acct.position.value, Rollover(acct, mark, feeRate, at);
      var fee := mark * p.quantity * feeRate;
      var left := MarkedAt(a, p, mark) - fee;
      && b.position.None? && b.agent.balance == b.agent.equity == Max(0.0, left)
      && b.agent.badDebt == a.badDebt + Max(0.0, -left)
      && |b.trades| == |acct.trades| + 1
      && (var t := b.trades[|acct.trades|];
          && t.exitPrice == mark && t.gross == MarkedAt(a, p, mark) - a.balance && t.fees == p.entryFee + fee
          && t.badDebt == Max(0.0, -left) && t.closedAt == if at >= p.openedAt then at else p.openedAt)
      && (a.status.Active? || a.status.Dead? ==>
            && b.agent.status == (if a.status.Active? then Retired else Dead)
            && b.agent.finalEquity == Some(Max(0.0, left))
            && b.agent.finalPnl == Some(Max(0.0, left) - a.startingBalance))
  {
    hide MarkedAt, RolloverFee, ComputeTradePnL, SettleClose;
    var p := acct.position.value;
    var fee := RolloverFee(p, mark, feeRate);
    var pnl := ComputeTradePnL(p.side, p.quantity, p.entryPrice, mark, p.entryFee, fee, p.fundingAccrued);
    FeeOnTheMark(p, mark, feeRate);
    GrossAtTheMark(acct.agent, p, mark, fee);
    SettlesTo(acct.agent.balance, pnl.gross, fee);
  }

  lemma FeeOnTheMark(p: Position, mark: real, feeRate: real)
    ensures RolloverFee(p, mark, feeRate) == mark * p.quantity * feeRate
  {}

  lemma GrossAtTheMark(a: Agent, p: Position, mark: real, fee: real)
    ensures var pnl := ComputeTradePnL(p.side, p.quantity, p.entryPrice, mark, p.entryFee, fee, p.fundingAccrued);
      pnl.gross == MarkedAt(a, p, mark) - a.balance && pnl.fees == p.entryFee + fee
  {}

  lemma SettlesTo(balance: real, gross: real, fee: real)
    ensures var st := SettleClose(balance, gross, fee);
      st.newBalance == Max(0.0, balance + gross - fee) && st.badDebt == Max(0.0, -(balance + gross - fee))
  {}

  /** A flat owner ends with the equity it had. */
  lemma FlatRolloverFreezes(acct: Account, mark: real, feeRate: real, at: int)
    requires acct.position.None?
    ensures var a, b := acct.agent, Rollover(acct, mark, feeRate, at);
      && b.trades == acct.trades && b.agent.balance == a.balance && b.agent.equity == a.equity
      && (a.status.Active? ==> b.agent.status == Retired && b.agent.finalEquity == Some(a.equity))
      && (!a.status.Active? ==> b.agent == a)
  {}
}
