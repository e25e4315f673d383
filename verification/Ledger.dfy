/** Conservation of cash: every run of the loop, rollovers and failures included, keeps the books balanced. */
module Ledger {
  import opened Market
  import opened PnlEngine
  import opened PositionManager
  import opened Accounting
  import opened PaperLoop

  datatype Totals = Totals(net: real, fees: real, funding: real, badDebt: real)

  /** What the closed trades add up to. */
  function TotalsOf(trades: seq<Trade>): Totals {
    if trades == [] then Totals(0.0, 0.0, 0.0, 0.0)
    else
      var t, last := TotalsOf(trades[..|trades| - 1]), trades[|trades| - 1];
      Totals(t.net + last.net, t.fees + last.fees, t.funding + last.funding, t.badDebt + last.badDebt)
  }

  function PaymentsTotal(payments: seq<Payment>): real {
    if payments == [] then 0.0 else PaymentsTotal(payments[..|payments| - 1]) + payments[|payments| - 1].amount
  }

  /** The cash identities, with `fee` and `funding` already paid on an open position. */
  ghost predicate Reconciled(a: Agent, t: Totals, fee: real, funding: real) {
    && a.balance == a.startingBalance + a.realizedPnl + a.badDebt - fee - funding
    && a.realizedPnl == t.net
    && a.badDebt == t.badDebt
    && a.feesPaid == t.fees + fee
    && a.fundingPaid == t.funding + funding
  }

  /** A trade's own books: net of everything, funding equal to its recorded settlements, no negative write-off. */
  ghost predicate TradeBalanced(t: Trade) {
    t.net == t.gross - t.fees - t.funding && t.funding == PaymentsTotal(t.position.payments) && t.badDebt >= 0.0
  }

  /** The books balance, and every entry is a trade by now or still open. */
  ghost predicate Balanced(acct: Account) {
    var t := TotalsOf(acct.trades);
    && (match acct.position
        case None => Reconciled(acct.agent, t, 0.0, 0.0) && acct.agent.equity == acct.agent.balance
        case Some(p) => Reconciled(acct.agent, t, p.entryFee, p.fundingAccrued)
                        && p.fundingAccrued == PaymentsTotal(p.payments))
    && (forall i :: 0 <= i < |acct.trades| ==> TradeBalanced(acct.trades[i]))
    && acct.agent.tradeCount == |acct.trades| + (if acct.position.Some? then 1 else 0)
  }

  ghost predicate SameCash(a: Agent, b: Agent) {
    && a.startingBalance == b.startingBalance && a.balance == b.balance && a.realizedPnl == b.realizedPnl
    && a.feesPaid == b.feesPaid && a.fundingPaid == b.fundingPaid && a.badDebt == b.badDebt
    && a.tradeCount == b.tradeCount
  }

  lemma SetEquityKeepsCash(a: Agent, equity: real, cfg: Config)
    ensures SameCash(SetEquity(a, equity, cfg), a)
    ensures !a.status.Dead? ==> SetEquity(a, equity, cfg).equity == equity
  {}

  lemma AfterCloseKeepsCash(a: Agent, cfg: Config, reason: Reason)
    ensures SameCash(AfterClose(a, cfg, reason), a)
    ensures AfterClose(a, cfg, reason).equity == a.balance
  {}

  /** The settlement of one close moves the balance by exactly the trade's result plus the write-off. */
  lemma CostsReconcile(a: Agent, t: Totals, fee: real, funding: real, gross: real, exitFee: real)
    requires Reconciled(a, t, fee, funding)
    ensures var st := SettleClose(a.balance, gross, exitFee);
      var net := gross - (fee + exitFee) - funding;
      Reconciled(AfterCosts(a, st, net, exitFee),
                 Totals(t.net + net, t.fees + (fee + exitFee), t.funding + funding, t.badDebt + st.badDebt), 0.0, 0.0)
  {}

  lemma TotalsAppend(trades: seq<Trade>, t: Trade)
    ensures var was := TotalsOf(trades);
      TotalsOf(trades + [t]) == Totals(was.net + t.net, was.fees + t.fees, was.funding + t.funding,
                                       was.badDebt + t.badDebt)
  {}

  ghost predicate OpenBalanced(acct: Account, p: Position) {
    && Reconciled(acct.agent, TotalsOf(acct.trades), p.entryFee, p.fundingAccrued)
    && p.fundingAccrued == PaymentsTotal(p.payments)
    && (forall i :: 0 <= i < |acct.trades| ==> TradeBalanced(acct.trades[i]))
    && acct.agent.tradeCount == |acct.trades| + 1
  }

  lemma BookBalances(acct: Account, cfg: Config, env: Env, dna: Option<Dna>, p: Position, price: real, exitFee: real,
                     kind: OrderKind, reason: Reason, forced: bool)
    requires OpenBalanced(acct, p)
    ensures Balanced(Book(acct, cfg, env, dna, p, price, exitFee, kind, reason, forced))
  {
    var pnl := ComputeTradePnL(p.side, p.quantity, p.entryPrice, price, p.entryFee, exitFee, p.fundingAccrued);
    var st := SettleClose(acct.agent.balance, pnl.gross, exitFee);
    var paid := AfterCosts(acct.agent, st, pnl.net, exitFee);
    CostsReconcile(acct.agent, TotalsOf(acct.trades), p.entryFee, p.fundingAccrued, pnl.gross, exitFee);
    AfterCloseKeepsCash(paid, cfg, reason);
    var booked := Book(acct, cfg, env, dna, p, price, exitFee, kind, reason, forced);
    TotalsAppend(acct.trades, booked.trades[|acct.trades|]);
  }

  lemma CloseBalances(acct: Account, cfg: Config, env: Env, dna: Option<Dna>, reference: real, kind: OrderKind,
                      reason: Reason)
    requires acct.position.Some? && Balanced(acct)
    ensures Balanced(ClosePosition(acct, cfg, env, dna, reference, kind, reason))
  {
    var p, kept := acct.position.value, Decided(acct, env);
    match env.fillExit(ExitOrder(p, env, reference, kind))
    case ExitFilled(price, fee) =>
      SettleBalances(kept, cfg, env, dna, p, price, fee, kind, reason, false);
    case ExitRefused =>
      ForceSettleBalances(kept.(position := Some(Tried(p))), cfg, env, dna, Tried(p), reference, kind, reason);
  }

  lemma SettleBalances(acct: Account, cfg: Config, env: Env, dna: Option<Dna>, p: Position, price: real, fee: real,
                       kind: OrderKind, reason: Reason, forced: bool)
    requires OpenBalanced(acct, p)
    ensures Balanced(Settle(acct, cfg, env, dna, p, price, fee, kind, reason, forced))
  {
    hide Book, LiquidationPenalty;
    BookBalances(acct, cfg, env, dna, p, price, fee + LiquidationPenalty(kind, price, p.quantity, cfg.costs), kind,
                 reason, forced);
  }

  lemma ForceSettleBalances(acct: Account, cfg: Config, env: Env, dna: Option<Dna>, p: Position, reference: real,
                            kind: OrderKind, reason: Reason)
    requires OpenBalanced(acct, p)
    ensures Balanced(ForceSettle(acct, cfg, env, dna, p, reference, kind, reason))
  {
    hide Settle, ExitQuote;
    var quote := ExitQuote(p.side, p.quantity, reference, kind, cfg.costs);
    SettleBalances(acct, cfg, env, dna, p, quote.price, quote.fee, kind, reason, true);
  }

  lemma {:induction false} ChargeBalances(h: Holding, due: seq<Rate>, mark: real, t: Totals)
    requires Reconciled(h.agent, t, h.position.entryFee, h.position.fundingAccrued)
    requires h.position.fundingAccrued == PaymentsTotal(h.position.payments)
    ensures var c := Charge(h, due, mark);
      && Reconciled(c.agent, t, c.position.entryFee, c.position.fundingAccrued)
      && c.position.fundingAccrued == PaymentsTotal(c.position.payments) && c.agent.tradeCount == h.agent.tradeCount
  {
    if due != [] {
      var init, r := due[..|due| - 1], due[|due| - 1];
      ChargeBalances(h, init, mark, t);
      var c := Charge(h, init, mark);
      var row := Payment(r.time, FundingPayment(c.position.side, c.position.quantity, mark, r.rate));
      assert (c.position.payments + [row])[..|c.position.payments|] == c.position.payments;
    }
  }

  lemma ManageBalances(acct: Account, cfg: Config, env: Env, dna: Option<Dna>)
    requires acct.position.Some? && Balanced(acct)
    ensures Balanced(Manage(acct, cfg, env, dna))
  {
    if !Processed(acct.position.value, env.K()) {
      var p := acct.position.value;
      ChargeBalances(Holding(acct.agent, p), Due(env.rates, p.lastFunding, env.CloseMs()), env.bar.close,
                     TotalsOf(acct.trades));
      ProtectBalances(Accrue(acct, env), cfg, env, dna);
    }
  }

  lemma ProtectBalances(acct: Account, cfg: Config, env: Env, dna: Option<Dna>)
    requires acct.position.Some? && Balanced(acct)
    ensures Balanced(Protect(acct, cfg, env, dna))
  {
    var p := acct.position.value;
    var levels := LevelsOf(p, acct.agent.balance, cfg, dna);
    var held := acct.(position := Some(Evaluated(p, env.K())));
    var trigger := EvaluateBar(levels, env.bar, cfg.sameBarExtreme);
    if trigger.Some? {
      CloseBalances(held, cfg, env, dna, trigger.value.reference, trigger.value.kind, trigger.value.reason);
    } else {
      MarkBalances(held.(position := Some(Survived(Evaluated(p, env.K()), levels, env.bar))), cfg, env, dna);
    }
  }

  lemma MarkBalances(acct: Account, cfg: Config, env: Env, dna: Option<Dna>)
    requires acct.position.Some? && Balanced(acct)
    ensures Balanced(Mark(acct, cfg, env, dna))
  {
    var p, balance := acct.position.value, acct.agent.balance;
    if Liquidatable(p.side, p.entryPrice, p.quantity, balance, cfg.mmr, env.bar.close) {
      CloseBalances(acct, cfg, env, dna, env.bar.close, LiquidationOrder, Liquidation);
    } else {
      SetEquityKeepsCash(acct.agent, Equity(p.side, p.entryPrice, p.quantity, balance, env.bar.close), cfg);
    }
  }

  lemma FillBalances(acct: Account, cfg: Config, env: Env, dna: Dna, i: nat, reference: real, immediate: bool)
    requires i < |acct.orders| && acct.position.None? && Balanced(acct)
    ensures Balanced(FillEntry(acct, cfg, env, dna, i, reference, immediate))
  {}

  lemma NextOpenBalances(acct: Account, cfg: Config, env: Env, dna: Dna)
    requires Balanced(acct)
    ensures Balanced(ExecuteNextOpen(acct, cfg, env, dna))
  {
    if acct.position.Some? {
      if acct.position.value.pendingExit.Some? {
        var taken := acct.(position := Some(acct.position.value.(pendingExit := None)));
        CloseBalances(taken, cfg, env, Some(dna), env.bar.open, MarketOrder, SignalExit);
      }
    } else {
      PendingIndexBound(acct.orders);
      var i := PendingIndex(acct.orders);
      if i.Some? {
        FillBalances(acct, cfg, env, dna, i.value, env.bar.open, false);
      }
    }
  }

  lemma SignalBalances(acct: Account, cfg: Config, env: Env, dna: Dna)
    requires Balanced(acct)
    ensures acct.position.Some? ==> Balanced(HoldOrExit(acct, cfg, env, dna))
    ensures acct.position.None? ==> Balanced(PlaceEntry(acct, cfg, env, dna))
  {
    hide ClosePosition, FillEntry, ApproveAgainstMargin;
    if acct.position.Some? {
      var taken := acct.(position := Some(Signalled(acct.position.value, env.K())));
      CloseBalances(taken, cfg, env, Some(dna), env.bar.close, MarketOrder, SignalExit);
    } else {
      var signal := env.signal(None);
      var verdict := env.risk(signal.side, acct.agent);
      var notional := ApprovedNotional(acct.agent, cfg, env, verdict);
      if notional > 0.0 {
        var order := Order(env.K(), signal.side, notional, verdict.leverage, env.intent, Pending);
        var placed := Decided(acct, env).(orders := acct.orders + [order]);
        FillBalances(placed, cfg, env, dna, |acct.orders|, env.bar.close, true);
      }
    }
  }

  lemma ManageAndSignalBalances(acct: Account, cfg: Config, env: Env, dna: Dna)
    requires Balanced(acct)
    ensures Balanced(ManageAndSignal(acct, cfg, env, dna))
  {
    if acct.position.None? {
      SignalBalances(acct, cfg, env, dna);
    } else {
      ManageBalances(acct, cfg, env, Some(dna));
      var managed := Manage(acct, cfg, env, Some(dna));
      if managed.position.Some? {
        CloseBalances(managed, cfg, env, Some(dna), env.bar.close, LiquidationOrder, AgentDeath);
        SignalBalances(managed, cfg, env, dna);
      }
    }
  }

  lemma ProcessBalances(acct: Account, cfg: Config, env: Env, dna: Dna)
    requires Balanced(acct)
    ensures Balanced(ProcessAgent(acct, cfg, env, dna))
  {
    var rolled := acct.(agent := RollDay(acct.agent, env));
    NextOpenBalances(rolled, cfg, env, dna);
    ManageAndSignalBalances(AtTheOpen(acct, cfg, env, dna), cfg, env, dna);
  }

  lemma SweepBalances(acct: Account, cfg: Config, env: Env, dna: Option<Dna>, faults: Faults)
    requires Balanced(acct)
    ensures Balanced(Sweep(acct, cfg, env, dna, faults))
  {
    if acct.position.Some? {
      ManageBalances(acct, cfg, env, dna);
      var managed := Manage(acct, cfg, env, dna);
      if managed.position.Some? {
        CloseBalances(managed, cfg, env, dna, env.bar.close, LiquidationOrder, AgentDeath);
        CloseBalances(managed, cfg, env, dna, env.bar.close, MarketOrder, OrphanResolution);
      }
    }
  }

  lemma RolledOverBalances(acct: Account, mark: real, feeRate: real, at: int)
    requires acct.position.Some? && Balanced(acct)
    ensures Balanced(RolledOver(acct, mark, feeRate, at))
  {}

  lemma StepBalances(acct: Account, cfg: Config, e: Event)
    requires Balanced(acct)
    ensures Balanced(Step(acct, cfg, e))
  {
    match e
    case Candle(env, dna, cycled, faults) =>
      if dna.Some? {
        ProcessBalances(acct, cfg, env, dna.value);
      }
      SweepBalances(Decide(acct, cfg, env, dna, cycled, faults), cfg, env, dna, faults);
    case ProtectBar(env, dna, faults) =>
      SweepBalances(acct, cfg, env, dna, faults);
    case EndOfGeneration(mark, feeRate, at) =>
      if acct.position.Some? {
        RolledOverBalances(acct, mark, feeRate, at);
      }
  }

  /** Conservation over every run: from a fresh account the books balance after any sequence of events. */
  lemma {:induction false} RunsBalance(start: real, day: int, cfg: Config, events: seq<Event>)
    ensures Balanced(Run(NewAccount(start, day), cfg, events))
  {
    if events != [] {
      RunsBalance(start, day, cfg, events[..|events| - 1]);
      StepBalances(Run(NewAccount(start, day), cfg, events[..|events| - 1]), cfg, events[|events| - 1]);
    }
  }
}
