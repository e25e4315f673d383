/** What every step of the loop keeps, and what it never undoes: settlements are charged once, entry orders have one
    fate, exits follow their signals, and an account only moves forward. */
module Discipline {
  import opened Market
  import opened PnlEngine
  import opened PositionManager
  import opened Accounting
  import opened PaperLoop
  import opened Protection

  // ---------------------------------------------------------------- the invariant

  ghost predicate AscendingRates(rates: seq<Rate>) {
    forall i, j :: 0 <= i < j < |rates| ==> rates[i].time < rates[j].time
  }

  /** The bar interval, and whether entries and signal exits may also fill at the close of their own signal bar. */
  datatype Timing = Timing(interval: int, immediate: bool)

  /** Each settlement is charged at most once, in order, and only if it is later than the position's opening. */
  ghost predicate ChargedOnce(p: Position) {
    && (forall i, j :: 0 <= i < j < |p.payments| ==> p.payments[i].time < p.payments[j].time)
    && (forall i :: 0 <= i < |p.payments| ==> p.fundingFrom < p.payments[i].time <= p.lastFunding)
    && p.fundingFrom <= p.lastFunding
  }

  ghost predicate PositionOk(p: Position) {
    ChargedOnce(p) && (p.pendingExit.Some? ==> p.pendingExit.value in p.exitSignals)
  }

  ghost predicate NonePending(orders: seq<Order>) {
    forall i :: 0 <= i < |orders| ==> !orders[i].status.Pending?
  }

  /** An entry fills or fails on the bar after its signal, or immediately. */
  ghost predicate ResolvedInTime(o: Order, timing: Timing) {
    o.status.Filled? || o.status.Failed? ==>
      o.status.at == o.signalTime + timing.interval || (timing.immediate && o.status.at == o.signalTime)
  }

  /** At most one entry is pending, and every entry that the engine filled or refused was submitted in time. */
  ghost predicate OrdersOk(orders: seq<Order>, timing: Timing) {
    && (forall i, j :: 0 <= i < j < |orders| ==> !(orders[i].status.Pending? && orders[j].status.Pending?))
    && (forall i :: 0 <= i < |orders| ==> ResolvedInTime(orders[i], timing))
  }

  /** A signal exit on bar `k` was signalled on the bar before, or immediately. */
  ghost predicate ExitDue(p: Position, k: int, timing: Timing) {
    k - timing.interval in p.exitSignals || (timing.immediate && k in p.exitSignals)
  }

  ghost predicate TradeOk(t: Trade, timing: Timing) {
    PositionOk(t.position) && (t.reason.SignalExit? ==> ExitDue(t.position, t.exitBar, timing))
  }

  ghost predicate Disciplined(acct: Account, timing: Timing) {
    && OrdersOk(acct.orders, timing)
    && (acct.position.Some? ==> PositionOk(acct.position.value) && NonePending(acct.orders))
    && (forall i :: 0 <= i < |acct.trades| ==> TradeOk(acct.trades[i], timing))
  }

  /** What an event brings: one bar interval, a fill timing that is allowed, ascending settlement times. */
  ghost predicate Admissible(env: Env, timing: Timing) {
    && env.intervalMs == timing.interval && timing.interval > 0 && (env.nextOpen || timing.immediate)
    && AscendingRates(env.rates)
  }

  // ---------------------------------------------------------------- what is never undone

  /** `q` is `p` later in its life. */
  ghost predicate Advanced(p: Position, q: Position) {
    && p.side == q.side && p.quantity == q.quantity && p.entryPrice == q.entryPrice && p.entryFee == q.entryFee
    && p.stopLoss == q.stopLoss && p.takeProfit == q.takeProfit && p.trailingDistance == q.trailingDistance
    && p.entryBar == q.entryBar && p.openedAt == q.openedAt && p.fundingFrom == q.fundingFrom
    && p.payments <= q.payments && p.evaluations <= q.evaluations && p.exitSignals <= q.exitSignals
    && p.lastFunding <= q.lastFunding && AtMost(p.lastProcessed, q.lastProcessed) && p.exitAttempts <= q.exitAttempts
    && p.peak <= q.peak && q.trough <= p.trough
  }

  /** A resolved order keeps its fate; a pending one keeps its terms. */
  ghost predicate SameOrder(a: Order, b: Order) {
    a.(status := b.status) == b && (a.status.Pending? || a == b)
  }

  ghost predicate AgentAdvanced(a: Agent, b: Agent) {
    && a.startingBalance == b.startingBalance
    && (a.status.Dead? ==> b.status.Dead?)
    && (b.status.Active? ==> a.status.Active?)
    && a.peakEquity <= b.peakEquity && a.maxDrawdown <= b.maxDrawdown && a.bestMilestone <= b.bestMilestone
    && a.badDebt <= b.badDebt && a.tradeCount <= b.tradeCount
  }

  /** The position of `a` is still open in `b`, or it is the first trade `b` booked since. */
  ghost predicate PositionAdvanced(a: Account, b: Account) {
    a.position.Some? && a.trades <= b.trades ==>
      if |a.trades| == |b.trades| then b.position.Some? && Advanced(a.position.value, b.position.value)
      else Advanced(a.position.value, b.trades[|a.trades|].position)
  }

  ghost predicate Progress(a: Account, b: Account) {
    && AgentAdvanced(a.agent, b.agent)
    && a.trades <= b.trades && a.decided <= b.decided
    && |a.orders| <= |b.orders| && (forall i :: 0 <= i < |a.orders| ==> SameOrder(a.orders[i], b.orders[i]))
    && PositionAdvanced(a, b)
  }

  lemma AdvancedTransitive(p: Position, q: Position, r: Position)
    requires Advanced(p, q) && Advanced(q, r)
    ensures Advanced(p, r)
  {}

  lemma ProgressTransitive(a: Account, b: Account, c: Account)
    requires Progress(a, b) && Progress(b, c)
    ensures Progress(a, c)
  {}

  // ---------------------------------------------------------------- agents

  lemma {:induction false} MilestoneRatchets(best: real, multiple: real, n: nat)
    requires n <= |MILESTONES|
    ensures best <= MilestoneAfter(best, multiple, n)
  {
    if n > 0 {
      MilestoneRatchets(best, multiple, n - 1);
    }
  }

  lemma SetEquityAdvances(a: Agent, equity: real, cfg: Config)
    ensures AgentAdvanced(a, SetEquity(a, equity, cfg))
  {
    if a.startingBalance > 0.0 {
      MilestoneRatchets(a.bestMilestone, equity / a.startingBalance, |MILESTONES|);
    }
  }

  lemma AfterCloseAdvances(a: Agent, cfg: Config, reason: Reason)
    ensures AgentAdvanced(a, AfterClose(a, cfg, reason))
  {
    SetEquityAdvances(a, a.balance, cfg);
  }

  // ---------------------------------------------------------------- closing

  lemma BookKeeps(acct: Account, cfg: Config, env: Env, dna: Option<Dna>, p: Position, price: real, exitFee: real,
                  kind: OrderKind, reason: Reason, forced: bool, timing: Timing)
    requires Disciplined(acct, timing) && acct.position.Some? && PositionOk(p) && Advanced(acct.position.value, p)
    requires reason.SignalExit? ==> ExitDue(p, env.K(), timing)
    ensures var b := Book(acct, cfg, env, dna, p, price, exitFee, kind, reason, forced);
      Disciplined(b, timing) && Progress(acct, b) && b.position.None?
      && b.orders == acct.orders && b.decided == acct.decided
  {
    var pnl := ComputeTradePnL(p.side, p.quantity, p.entryPrice, price, p.entryFee, exitFee, p.fundingAccrued);
    var st := SettleClose(acct.agent.balance, pnl.gross, exitFee);
    AfterCloseAdvances(AfterCosts(acct.agent, st, pnl.net, exitFee), cfg, reason);
    var b := Book(acct, cfg, env, dna, p, price, exitFee, kind, reason, forced);
    forall i | 0 <= i < |b.trades| ensures TradeOk(b.trades[i], timing) {
      assert i < |acct.trades| ==> b.trades[i] == acct.trades[i];
    }
  }

  lemma SettleKeeps(acct: Account, cfg: Config, env: Env, dna: Option<Dna>, p: Position, price: real, fee: real,
                    kind: OrderKind, reason: Reason, forced: bool, timing: Timing)
    requires Disciplined(acct, timing) && acct.position.Some? && PositionOk(p) && Advanced(acct.position.value, p)
    requires reason.SignalExit? ==> ExitDue(p, env.K(), timing)
    ensures var b := Settle(acct, cfg, env, dna, p, price, fee, kind, reason, forced);
      Disciplined(b, timing) && Progress(acct, b) && b.position.None?
      && b.orders == acct.orders && b.decided == acct.decided
  {
    hide Book, LiquidationPenalty;
    BookKeeps(acct, cfg, env, dna, p, price, fee + LiquidationPenalty(kind, price, p.quantity, cfg.costs), kind, reason,
              forced, timing);
  }

  lemma ForceSettleKeeps(acct: Account, cfg: Config, env: Env, dna: Option<Dna>, p: Position, reference: real,
                         kind: OrderKind, reason: Reason, timing: Timing)
    requires Disciplined(acct, timing) && acct.position.Some? && PositionOk(p) && Advanced(acct.position.value, p)
    requires reason.SignalExit? ==> ExitDue(p, env.K(), timing)
    ensures var b := ForceSettle(acct, cfg, env, dna, p, reference, kind, reason);
      Disciplined(b, timing) && Progress(acct, b) && b.position.None?
      && b.orders == acct.orders && b.decided == acct.decided
  {
    var quote := ExitQuote(p.side, p.quantity, reference, kind, cfg.costs);
    SettleKeeps(acct, cfg, env, dna, p, quote.price, quote.fee, kind, reason, true, timing);
  }

  /** One exit attempt closes, or leaves the position open with one more attempt, below the limit off the live venue. */
  ghost predicate Attempted(a: Account, b: Account, cfg: Config, env: Env) {
    && a.position.Some? && env.K() in b.decided && b.orders == a.orders
    && (b.position.Some? ==>
          && b == Decided(a, env).(position := Some(Tried(a.position.value)))
          && (!env.live ==> b.position.value.exitAttempts < cfg.forceSettleAfter))
  }

  lemma CloseKeeps(acct: Account, cfg: Config, env: Env, dna: Option<Dna>, reference: real, kind: OrderKind,
                   reason: Reason, timing: Timing)
    requires Disciplined(acct, timing) && acct.position.Some?
    requires reason.SignalExit? ==> ExitDue(acct.position.value, env.K(), timing)
    ensures var b := ClosePosition(acct, cfg, env, dna, reference, kind, reason);
      Disciplined(b, timing) && Progress(acct, b) && Attempted(acct, b, cfg, env)
  {
    hide Settle, ForceSettle;
    var p, kept := acct.position.value, Decided(acct, env);
    match env.fillExit(ExitOrder(p, env, reference, kind))
    case ExitFilled(price, fee) =>
      SettleKeeps(kept, cfg, env, dna, p, price, fee, kind, reason, false, timing);
      ProgressTransitive(acct, kept, Settle(kept, cfg, env, dna, p, price, fee, kind, reason, false));
    case ExitRefused =>
      var refused := kept.(position := Some(Tried(p)));
      ForceSettleKeeps(refused, cfg, env, dna, Tried(p), reference, kind, reason, timing);
      ProgressTransitive(acct, refused, ForceSettle(refused, cfg, env, dna, Tried(p), reference, kind, reason));
  }

  // ---------------------------------------------------------------- funding

  lemma {:induction false} DueMembers(rates: seq<Rate>, last: int, closeMs: int, r: Rate)
    ensures r in Due(rates, last, closeMs) <==> r in rates && last < r.time <= closeMs
  {
    if rates != [] {
      DueMembers(rates[..|rates| - 1], last, closeMs, r);
      assert rates == rates[..|rates| - 1] + [rates[|rates| - 1]];
    }
  }

  lemma {:induction false} DueStaysAscending(rates: seq<Rate>, last: int, closeMs: int)
    requires AscendingRates(rates)
    ensures AscendingRates(Due(rates, last, closeMs))
  {
    if rates != [] {
      var init, r := rates[..|rates| - 1], rates[|rates| - 1];
      DueStaysAscending(init, last, closeMs);
      var due := Due(init, last, closeMs);
      forall i | 0 <= i < |due| ensures due[i].time < r.time {
        DueMembers(init, last, closeMs, due[i]);
        EarlierThanLast(rates, due[i]);
      }
    }
  }

  lemma EarlierThanLast(rates: seq<Rate>, q: Rate)
    requires AscendingRates(rates) && rates != [] && q in rates[..|rates| - 1]
    ensures q.time < rates[|rates| - 1].time
  {
    var j :| 0 <= j < |rates| - 1 && rates[j] == q;
  }

  /** Filtering keeps the order, and keeps only rates of the window. */
  lemma DueIsAscending(rates: seq<Rate>, last: int, closeMs: int)
    requires AscendingRates(rates)
    ensures AscendingRates(Due(rates, last, closeMs))
    ensures forall q :: q in Due(rates, last, closeMs) ==> q in rates && last < q.time <= closeMs
  {
    DueStaysAscending(rates, last, closeMs);
    forall q | q in Due(rates, last, closeMs) ensures q in rates && last < q.time <= closeMs {
      DueMembers(rates, last, closeMs, q);
    }
  }

  lemma ChargeOneKeeps(h: Holding, r: Rate, mark: real)
    requires PositionOk(h.position) && h.position.lastFunding < r.time
    ensures var c := ChargeOne(h, r, mark);
      && PositionOk(c.position) && Advanced(h.position, c.position) && SameStanding(h.agent, c.agent)
      && c.position == h.position.(fundingAccrued := c.position.fundingAccrued, payments := c.position.payments,
                                   lastFunding := r.time)
      && |c.position.payments| == |h.position.payments| + 1 && c.position.payments[|h.position.payments|].time == r.time
  {
    hide FundingPayment;
  }

  /** Charging ascending settlements, all later than the last one, appends exactly one row per settlement. */
  lemma {:induction false} ChargeKeeps(h: Holding, due: seq<Rate>, mark: real)
    requires PositionOk(h.position) && AscendingRates(due)
    requires forall i :: 0 <= i < |due| ==> h.position.lastFunding < due[i].time
    ensures var c := Charge(h, due, mark);
      && PositionOk(c.position) && Advanced(h.position, c.position) && SameStanding(h.agent, c.agent)
      && c.position == h.position.(fundingAccrued := c.position.fundingAccrued, payments := c.position.payments,
                                   lastFunding := c.position.lastFunding)
      && |c.position.payments| == |h.position.payments| + |due|
      && (forall i :: 0 <= i < |due| ==> c.position.payments[|h.position.payments| + i].time == due[i].time)
      && (due == [] ==> c == h) && (due != [] ==> c.position.lastFunding == due[|due| - 1].time)
  {
    hide ChargeOne, PositionOk;
    if due != [] {
      var init, r := due[..|due| - 1], due[|due| - 1];
      ChargeKeeps(h, init, mark);
      var c := Charge(h, init, mark);
      assert c.position.lastFunding < r.time by {
        assert init != [] ==> init[|init| - 1].time < r.time;
      }
      ChargeOneKeeps(c, r, mark);
    }
  }

  lemma AccrueKeeps(acct: Account, env: Env, timing: Timing)
    requires Disciplined(acct, timing) && Admissible(env, timing) && acct.position.Some?
    ensures var b := Accrue(acct, env);
      && Disciplined(b, timing) && Progress(acct, b) && b.position.Some?
      && b == acct.(agent := b.agent, position := b.position) && SameStanding(acct.agent, b.agent)
      && b.position.value.lastProcessed == acct.position.value.lastProcessed
  {
    var p := acct.position.value;
    var due := Due(env.rates, p.lastFunding, env.CloseMs());
    DueIsAscending(env.rates, p.lastFunding, env.CloseMs());
    ChargeKeeps(Holding(acct.agent, p), due, env.bar.close);
  }

  // ---------------------------------------------------------------- managing

  lemma EvaluatedKeeps(p: Position, k: int)
    requires PositionOk(p) && !Processed(p, k)
    ensures PositionOk(Evaluated(p, k)) && Advanced(p, Evaluated(p, k)) && Processed(Evaluated(p, k), k)
  {}

  lemma MarkKeeps(acct: Account, cfg: Config, env: Env, dna: Option<Dna>, timing: Timing)
    requires Disciplined(acct, timing) && acct.position.Some? && Processed(acct.position.value, env.K())
    ensures var b := Mark(acct, cfg, env, dna);
      && Disciplined(b, timing) && Progress(acct, b)
      && (b.position.Some? ==> Processed(b.position.value, env.K()) && b.trades == acct.trades)
  {
    hide ClosePosition;
    var p, balance := acct.position.value, acct.agent.balance;
    CloseKeeps(acct, cfg, env, dna, env.bar.close, LiquidationOrder, Liquidation, timing);
    SetEquityAdvances(acct.agent, Equity(p.side, p.entryPrice, p.quantity, balance, env.bar.close), cfg);
  }

  lemma SurvivedKeeps(p: Position, levels: Levels, bar: Bar)
    requires PositionOk(p) && levels.peak == Some(p.peak) && levels.trough == Some(p.trough)
    ensures PositionOk(Survived(p, levels, bar)) && Advanced(p, Survived(p, levels, bar))
    ensures Survived(p, levels, bar).lastProcessed == p.lastProcessed
  {}

  lemma ProtectKeeps(acct: Account, cfg: Config, env: Env, dna: Option<Dna>, timing: Timing)
    requires Disciplined(acct, timing) && acct.position.Some? && !Processed(acct.position.value, env.K())
    ensures var b := Protect(acct, cfg, env, dna);
      && Disciplined(b, timing) && Progress(acct, b)
      && (b.position.Some? ==> Processed(b.position.value, env.K()) && b.trades == acct.trades)
  {
    hide ClosePosition, Mark, EvaluateBar;
    var p := acct.position.value;
    var levels := LevelsOf(p, acct.agent.balance, cfg, dna);
    var held := acct.(position := Some(Evaluated(p, env.K())));
    EvaluatedKeeps(p, env.K());
    var trigger := EvaluateBar(levels, env.bar, cfg.sameBarExtreme);
    if trigger.Some? {
      TriggersAreProtective(levels, env.bar, cfg.sameBarExtreme);
      CloseKeeps(held, cfg, env, dna, trigger.value.reference, trigger.value.kind, trigger.value.reason, timing);
      ProgressTransitive(acct, held, Protect(acct, cfg, env, dna));
    } else {
      SurvivedKeeps(Evaluated(p, env.K()), levels, env.bar);
      var survived := held.(position := Some(Survived(Evaluated(p, env.K()), levels, env.bar)));
      AdvancedTransitive(p, Evaluated(p, env.K()), survived.position.value);
      MarkKeeps(survived, cfg, env, dna, timing);
      ProgressTransitive(acct, survived, Protect(acct, cfg, env, dna));
    }
  }

  lemma ManageKeeps(acct: Account, cfg: Config, env: Env, dna: Option<Dna>, timing: Timing)
    requires Disciplined(acct, timing) && Admissible(env, timing) && acct.position.Some?
    ensures var b := Manage(acct, cfg, env, dna);
      && Disciplined(b, timing) && Progress(acct, b)
      && (b.position.Some? ==> Processed(b.position.value, env.K()) && b.trades == acct.trades)
  {
    hide Accrue, Protect;
    if !Processed(acct.position.value, env.K()) {
      AccrueKeeps(acct, env, timing);
      ProtectKeeps(Accrue(acct, env), cfg, env, dna, timing);
      ProgressTransitive(acct, Accrue(acct, env), Manage(acct, cfg, env, dna));
    }
  }

  // ---------------------------------------------------------------- orders

  lemma ResolveKeeps(orders: seq<Order>, i: nat, status: OrderStatus, timing: Timing)
    requires OrdersOk(orders, timing) && i < |orders| && orders[i].status.Pending? && !status.Pending?
    requires ResolvedInTime(orders[i].(status := status), timing)
    ensures OrdersOk(WithStatus(orders, i, status), timing) && NonePending(WithStatus(orders, i, status))
    ensures |WithStatus(orders, i, status)| == |orders|
    ensures forall j :: 0 <= j < |orders| ==> SameOrder(orders[j], WithStatus(orders, i, status)[j])
  {}

  lemma OpenedIsOk(o: Order, env: Env, dna: Dna, price: real, quantity: Positive, fee: real, immediate: bool)
    ensures PositionOk(Opened(o, env, dna, price, quantity, fee, immediate))
  {}

  lemma FillKeeps(acct: Account, cfg: Config, env: Env, dna: Dna, i: nat, reference: real, immediate: bool,
                  timing: Timing)
    requires immediate ==> timing.immediate
    requires Disciplined(acct, timing) && acct.position.None? && i < |acct.orders| && acct.orders[i].status.Pending?
    requires acct.orders[i].signalTime == if immediate then env.K() else env.K() - timing.interval
    ensures var b := FillEntry(acct, cfg, env, dna, i, reference, immediate);
      && Disciplined(b, timing) && Progress(acct, b) && NonePending(b.orders)
      && (immediate && b.position.Some? ==> Processed(b.position.value, env.K()))
  {
    hide AfterEntry;
    var o := acct.orders[i];
    var notional := ApproveAgainstMargin(o.notional, o.leverage, Max(0.0, acct.agent.balance));
    var quantity := if reference > 0.0 then notional / reference else 0.0;
    match env.fillEntry(EntryRequest(o.side, quantity, reference))
    case EntryRefused =>
      ResolveKeeps(acct.orders, i, Failed(env.K()), timing);
    case EntryFilled(price, filled, fee) =>
      ResolveKeeps(acct.orders, i, Filled(env.K()), timing);
      OpenedIsOk(o, env, dna, price, filled, fee, immediate);
      EntryAdvances(acct.agent, cfg, fee);
  }

  lemma EntryAdvances(a: Agent, cfg: Config, fee: real)
    ensures AgentAdvanced(a, AfterEntry(a, cfg, fee))
  {
    var paid := a.(balance := a.balance - fee, feesPaid := a.feesPaid + fee, tradeCount := a.tradeCount + 1,
                   dailyTradeCount := a.dailyTradeCount + 1);
    SetEquityAdvances(paid, paid.balance, cfg);
  }

  lemma PendingEntryKeeps(acct: Account, cfg: Config, env: Env, dna: Dna, i: nat, timing: Timing)
    requires Disciplined(acct, timing) && Admissible(env, timing) && acct.position.None?
    requires i < |acct.orders| && acct.orders[i].status.Pending?
    ensures var b := ExecutePendingEntry(acct, cfg, env, dna, i);
      Disciplined(b, timing) && Progress(acct, b) && NonePending(b.orders)
  {
    hide FillEntry;
    if acct.orders[i].signalTime == env.K() - timing.interval {
      FillKeeps(acct, cfg, env, dna, i, env.bar.open, false, timing);
    }
    ResolveKeeps(acct.orders, i, Cancelled, timing);
  }

  lemma PendingExitKeeps(acct: Account, cfg: Config, env: Env, dna: Option<Dna>, timing: Timing)
    requires Disciplined(acct, timing) && Admissible(env, timing) && acct.position.Some?
    ensures var b := ExecutePendingExit(acct, cfg, env, dna);
      Disciplined(b, timing) && Progress(acct, b) && b.orders == acct.orders
  {
    hide ClosePosition;
    var p := acct.position.value;
    var taken := acct.(position := Some(p.(pendingExit := None)));
    if p.pendingExit == Some(env.K() - timing.interval) {
      CloseKeeps(taken, cfg, env, dna, env.bar.open, MarketOrder, SignalExit, timing);
      ProgressTransitive(acct, taken, ExecutePendingExit(acct, cfg, env, dna));
    }
  }

  lemma NextOpenKeeps(acct: Account, cfg: Config, env: Env, dna: Dna, timing: Timing)
    requires Disciplined(acct, timing) && Admissible(env, timing)
    ensures var b := ExecuteNextOpen(acct, cfg, env, dna);
      Disciplined(b, timing) && Progress(acct, b) && (b.position.None? ==> NonePending(b.orders))
  {
    hide ExecutePendingEntry, ExecutePendingExit;
    if acct.position.Some? {
      PendingExitKeeps(acct, cfg, env, Some(dna), timing);
    } else {
      PendingIndexBound(acct.orders);
      var i := PendingIndex(acct.orders);
      if i.Some? {
        PendingEntryKeeps(acct, cfg, env, dna, i.value, timing);
      }
    }
  }

  // ---------------------------------------------------------------- the signal

  lemma HoldOrExitKeeps(acct: Account, cfg: Config, env: Env, dna: Dna, timing: Timing)
    requires Disciplined(acct, timing) && Admissible(env, timing) && acct.position.Some?
    ensures var b := HoldOrExit(acct, cfg, env, dna);
      && Disciplined(b, timing) && Progress(acct, b)
      && (b.position.Some? ==> b.position.value.lastProcessed == acct.position.value.lastProcessed)
  {
    hide ClosePosition;
    var taken := acct.(position := Some(Signalled(acct.position.value, env.K())));
    if env.signal(Some(acct.position.value.side)).matchedExit && !env.nextOpen {
      CloseKeeps(taken, cfg, env, Some(dna), env.bar.close, MarketOrder, SignalExit, timing);
      ProgressTransitive(acct, taken, HoldOrExit(acct, cfg, env, dna));
    }
  }

  /** On a flat account with nothing pending a signal places an entry: pending until the next open, or resolved now. */
  lemma PlaceEntryKeeps(acct: Account, cfg: Config, env: Env, dna: Dna, timing: Timing)
    requires Disciplined(acct, timing) && Admissible(env, timing) && acct.position.None? && NonePending(acct.orders)
    ensures var b := PlaceEntry(acct, cfg, env, dna);
      && Disciplined(b, timing) && Progress(acct, b)
      && (b.position.Some? ==> Processed(b.position.value, env.K()))
      && (forall i :: 0 <= i < |b.orders| && b.orders[i].status.Pending? ==> b.orders[i].signalTime == env.K())
  {
    hide FillEntry, ApproveAgainstMargin;
    var verdict := env.risk(env.signal(None).side, acct.agent);
    var notional := ApprovedNotional(acct.agent, cfg, env, verdict);
    if verdict.Approved? {
      var order := Order(env.K(), env.signal(None).side, notional, verdict.leverage, env.intent, Pending);
      var placed := Decided(acct, env).(orders := acct.orders + [order]);
      assert Disciplined(placed, timing) && Progress(acct, placed);
      if !env.nextOpen {
        FillKeeps(placed, cfg, env, dna, |acct.orders|, env.bar.close, true, timing);
        ProgressTransitive(acct, placed, FillEntry(placed, cfg, env, dna, |acct.orders|, env.bar.close, true));
      }
    }
  }

  lemma ManageAndSignalKeeps(acct: Account, cfg: Config, env: Env, dna: Dna, timing: Timing)
    requires Disciplined(acct, timing) && Admissible(env, timing) && (acct.position.None? ==> NonePending(acct.orders))
    ensures var b := ManageAndSignal(acct, cfg, env, dna);
      Disciplined(b, timing) && Progress(acct, b) && (b.position.Some? ==> Processed(b.position.value, env.K()))
  {
    hide PlaceEntry, Manage, HoldOrExit, ClosePosition;
    if acct.position.None? {
      PlaceEntryKeeps(acct, cfg, env, dna, timing);
    } else {
      ManageKeeps(acct, cfg, env, Some(dna), timing);
      var managed := Manage(acct, cfg, env, Some(dna));
      if managed.position.Some? {
        if managed.agent.status.Dead? {
          CloseKeeps(managed, cfg, env, Some(dna), env.bar.close, LiquidationOrder, AgentDeath, timing);
        } else {
          HoldOrExitKeeps(managed, cfg, env, dna, timing);
        }
        ProgressTransitive(acct, managed, ManageAndSignal(acct, cfg, env, dna));
      }
    }
  }

  lemma ProcessKeeps(acct: Account, cfg: Config, env: Env, dna: Dna, timing: Timing)
    requires Disciplined(acct, timing) && Admissible(env, timing)
    ensures var b := ProcessAgent(acct, cfg, env, dna);
      Disciplined(b, timing) && Progress(acct, b) && (b.position.Some? ==> Processed(b.position.value, env.K()))
  {
    hide ExecuteNextOpen, ManageAndSignal, StillHeld;
    var rolled := acct.(agent := RollDay(acct.agent, env));
    NextOpenKeeps(rolled, cfg, env, dna, timing);
    var entered := AtTheOpen(acct, cfg, env, dna);
    ManageAndSignalKeeps(entered, cfg, env, dna, timing);
    var after := ManageAndSignal(entered, cfg, env, dna);
    ProgressTransitive(rolled, entered, after);
    RollingAdvances(acct, env, after);
    RetiringAdvances(acct, after, timing);
  }

  lemma RollingAdvances(acct: Account, env: Env, after: Account)
    requires Progress(acct.(agent := RollDay(acct.agent, env)), after)
    ensures Progress(acct, after)
  {}

  lemma RetiringAdvances(acct: Account, after: Account, timing: Timing)
    requires Disciplined(after, timing) && Progress(acct, after)
    ensures var b := after.(agent := MarkDead(after.agent)); Disciplined(b, timing) && Progress(acct, b)
  {}

  // ---------------------------------------------------------------- passes

  lemma ProtectOneKeeps(acct: Account, cfg: Config, env: Env, dna: Option<Dna>, timing: Timing)
    requires Disciplined(acct, timing) && Admissible(env, timing) && acct.position.Some?
    ensures var b := ProtectOne(acct, cfg, env, dna);
      Disciplined(b, timing) && Progress(acct, b) && (b.position.Some? ==> Processed(b.position.value, env.K()))
      && (b.position.Some? && !acct.agent.status.Active? && !env.live ==>
            acct.position.value.exitAttempts < b.position.value.exitAttempts < cfg.forceSettleAfter)
  {
    hide Manage, ClosePosition;
    ManageKeeps(acct, cfg, env, dna, timing);
    var managed := Manage(acct, cfg, env, dna);
    if managed.position.Some? && !managed.agent.status.Active? {
      if managed.agent.status.Dead? {
        CloseKeeps(managed, cfg, env, dna, env.bar.close, LiquidationOrder, AgentDeath, timing);
      } else {
        CloseKeeps(managed, cfg, env, dna, env.bar.close, MarketOrder, OrphanResolution, timing);
      }
      ProgressTransitive(acct, managed, ProtectOne(acct, cfg, env, dna));
    }
  }

  lemma SweepKeeps(acct: Account, cfg: Config, env: Env, dna: Option<Dna>, faults: Faults, timing: Timing)
    requires Disciplined(acct, timing) && Admissible(env, timing)
    ensures var b := Sweep(acct, cfg, env, dna, faults);
      Disciplined(b, timing) && Progress(acct, b)
      && (b.position.Some? && !faults.protect ==> Processed(b.position.value, env.K()))
  {
    hide ProtectOne;
    if acct.position.Some? {
      ProtectOneKeeps(acct, cfg, env, dna, timing);
    }
  }

  lemma DecideKeeps(acct: Account, cfg: Config, env: Env, dna: Option<Dna>, cycled: bool, faults: Faults,
                    timing: Timing)
    requires Disciplined(acct, timing) && Admissible(env, timing)
    ensures var b := Decide(acct, cfg, env, dna, cycled, faults);
      Disciplined(b, timing) && Progress(acct, b)
  {
    hide ProcessAgent;
    if dna.Some? {
      ProcessKeeps(acct, cfg, env, dna.value, timing);
    }
  }

  lemma CancelStaleKeeps(acct: Account, cutoff: int, timing: Timing)
    requires Disciplined(acct, timing)
    ensures var b := acct.(orders := CancelStale(acct.orders, cutoff));
      Disciplined(b, timing) && Progress(acct, b)
  {}

  /** No entry signalled before the bar `cutoff` is still pending. */
  ghost predicate NoneStale(orders: seq<Order>, cutoff: int) {
    forall i :: 0 <= i < |orders| && orders[i].status.Pending? ==> orders[i].signalTime >= cutoff
  }

  /** A committed cycle keeps the discipline and leaves no entry pending that missed its bar; without protective faults
      every open position has then been processed. */
  lemma CycleKeeps(acct: Account, cfg: Config, env: Env, dna: Option<Dna>, cycled: bool, faults: Faults, timing: Timing)
    requires Disciplined(acct, timing) && Admissible(env, timing)
    ensures var b := Cycle(acct, cfg, env, dna, cycled, faults);
      Disciplined(b, timing) && Progress(acct, b)
      && (!faults.commit ==> NoneStale(b.orders, env.K() - timing.interval))
      && (b.position.Some? && !faults.protect && !faults.commit ==> Processed(b.position.value, env.K()))
  {
    hide Decide, Sweep;
    var decided := Decide(acct, cfg, env, dna, cycled, faults);
    var swept := Sweep(decided, cfg, env, dna, faults);
    DecideKeeps(acct, cfg, env, dna, cycled, faults, timing);
    SweepKeeps(decided, cfg, env, dna, faults, timing);
    CancelStaleKeeps(swept, env.K() - env.intervalMs, timing);
    if !faults.commit {
      ProgressTransitive(acct, decided, swept);
      ProgressTransitive(acct, swept, Cycle(acct, cfg, env, dna, cycled, faults));
    }
  }

  lemma RolloverKeeps(acct: Account, mark: real, feeRate: real, at: int, timing: Timing)
    requires Disciplined(acct, timing)
    ensures var b := Rollover(acct, mark, feeRate, at);
      Disciplined(b, timing) && Progress(acct, b) && NonePending(b.orders) && b.position.None?
  {}

  ghost predicate AdmissibleEvent(e: Event, timing: Timing) {
    !e.EndOfGeneration? ==> Admissible(e.env, timing)
  }

  lemma StepKeeps(acct: Account, cfg: Config, e: Event, timing: Timing)
    requires Disciplined(acct, timing) && AdmissibleEvent(e, timing)
    ensures Disciplined(Step(acct, cfg, e), timing) && Progress(acct, Step(acct, cfg, e))
  {
    hide Cycle, Sweep, Rollover;
    match e
    case Candle(env, dna, cycled, faults) => CycleKeeps(acct, cfg, env, dna, cycled, faults, timing);
    case ProtectBar(env, dna, faults) => SweepKeeps(acct, cfg, env, dna, faults, timing);
    case EndOfGeneration(mark, feeRate, at) => RolloverKeeps(acct, mark, feeRate, at, timing);
  }

  ghost predicate AdmissibleRun(events: seq<Event>, timing: Timing) {
    forall i :: 0 <= i < |events| ==> AdmissibleEvent(events[i], timing)
  }

  /** Over any run from a disciplined account, whatever the fill timing, nothing is undone: no settlement is charged
      twice, no order is filled late or twice, no exit comes without its signal, and no dead agent comes back. */
  lemma {:induction false} RunsKeep(acct: Account, cfg: Config, events: seq<Event>, timing: Timing)
    requires Disciplined(acct, timing) && AdmissibleRun(events, timing)
    ensures Disciplined(Run(acct, cfg, events), timing) && Progress(acct, Run(acct, cfg, events))
  {
    if events != [] {
      var init, last := events[..|events| - 1], events[|events| - 1];
      RunsKeep(acct, cfg, init, timing);
      var mid := Run(acct, cfg, init);
      StepKeeps(mid, cfg, last, timing);
      ProgressTransitive(acct, mid, Step(mid, cfg, last));
    }
  }

  /** So every run from a fresh account is disciplined, and no bar is evaluated twice on the way. */
  lemma FreshRunsKeep(start: real, day: int, cfg: Config, events: seq<Event>, timing: Timing)
    requires AdmissibleRun(events, timing)
    ensures var b := Run(NewAccount(start, day), cfg, events); Disciplined(b, timing) && Protected(b)
  {
    hide Run;
    RunsKeep(NewAccount(start, day), cfg, events, timing);
    RunsEvaluateEachBarOnce(NewAccount(start, day), cfg, events);
  }
}
