/** The loop in the form it runs: rows updated in place. Every method leaves exactly the state that the functions of
    `PaperLoop` specify, so what is proved about those functions holds of these objects. */
module PaperAccounts {
  import opened Market
  import opened PnlEngine
  import opened PositionManager
  import opened Accounting
  import opened PaperLoop

  class AgentRow {
    const startingBalance: real
    var balance: real
    var equity: real
    var peakEquity: real
    var maxDrawdown: real
    var bestMilestone: real
    var realizedPnl: real
    var feesPaid: real
    var fundingPaid: real
    var badDebt: real
    var status: Status
    var tradeCount: nat
    var dayStart: int
    var dayStartEquity: real
    var dailyTradeCount: nat
    var cooldownUntil: Option<int>
    var finalEquity: Option<real>
    var finalPnl: Option<real>
    var marks: seq<real>

    function Snapshot(): Agent
      reads this
    {
      Agent(startingBalance, balance, equity, peakEquity, maxDrawdown, bestMilestone, realizedPnl,
            feesPaid, fundingPaid, badDebt, status, tradeCount, dayStart, dayStartEquity, dailyTradeCount,
            cooldownUntil, finalEquity, finalPnl, marks)
    }

    constructor (start: real, day: int)
      ensures Snapshot() == NewAgent(start, day)
    {
      startingBalance, balance, equity, peakEquity := start, start, start, start;
      maxDrawdown, bestMilestone, realizedPnl, feesPaid, fundingPaid, badDebt := 0.0, 1.0, 0.0, 0.0, 0.0, 0.0;
      status, tradeCount, dayStart, dayStartEquity, dailyTradeCount := Active, 0, day, start, 0;
      cooldownUntil, finalEquity, finalPnl, marks := None, None, None, [start];
    }

    method MarkDead()
      modifies this
      ensures Snapshot() == PaperLoop.MarkDead(old(Snapshot()))
    {
      if status.Dead? {
        return;
      }
      status := Dead;
      finalEquity := Some(equity);
      finalPnl := Some(equity - startingBalance);
    }

    /** The equity ratchets: peak, drawdown, milestones - and death at the bankruptcy level. */
    method UpdateEquity(newEquity: real, cfg: Config)
      requires !status.Dead?
      modifies this
      ensures Snapshot() == PaperLoop.UpdateEquity(old(Snapshot()), newEquity, cfg)
    {
      hide DrawdownAfter, MilestoneAfter, BankruptcyLevel, PaperLoop.MarkDead;
      var bankruptcyLevel := BankruptcyLevel(Snapshot(), cfg);
      equity, marks := newEquity, marks + [newEquity];
      if newEquity > peakEquity {
        peakEquity := newEquity;
      }
      maxDrawdown := DrawdownAfter(maxDrawdown, peakEquity, newEquity);
      if startingBalance > 0.0 {
        RatchetMilestones(newEquity / startingBalance);
      }
      if newEquity <= bankruptcyLevel {
        MarkDead();
      }
    }

    method RatchetMilestones(multiple: real)
      modifies this`bestMilestone
      ensures bestMilestone == MilestoneAfter(old(bestMilestone), multiple, |MILESTONES|)
    {
      for n := 0 to |MILESTONES|
        invariant bestMilestone == MilestoneAfter(old(bestMilestone), multiple, n)
      {
        if multiple >= MILESTONES[n] && bestMilestone < MILESTONES[n] {
          bestMilestone := MILESTONES[n];
        }
      }
    }

    method PayCosts(settlement: Settlement, net: real, exitFee: real)
      modifies this
      ensures Snapshot() == AfterCosts(old(Snapshot()), settlement, net, exitFee)
    {
      balance := settlement.newBalance;
      badDebt := badDebt + settlement.badDebt;
      realizedPnl := realizedPnl + net;
      feesPaid := feesPaid + exitFee;
    }

    /** A flat account's equity is its cash, and so are the figures of a dead one. */
    method ReportCash()
      modifies this
      ensures Snapshot() == if old(status).Dead? then Refrozen(old(Snapshot())) else old(Snapshot()).(equity := balance)
      ensures balance == old(balance)
    {
      equity := balance;
      if status.Dead? {
        finalEquity := Some(balance);
        finalPnl := Some(balance - startingBalance);
      }
    }

    /** Equity, death and the frozen figures of a dead account, after the close's costs. */
    method CloseAccounts(cfg: Config, reason: Reason)
      modifies this
      ensures Snapshot() == AfterClose(old(Snapshot()), cfg, reason)
    {
      hide PaperLoop.UpdateEquity;
      SetEquity(balance, cfg);
      if reason.Liquidation? && cfg.liquidationIsFatal {
        MarkDead();
      }
      if status.Dead? {
        equity := balance;
        finalEquity := Some(balance);
        finalPnl := Some(balance - startingBalance);
      }
    }

    method CoolDown(env: Env, bars: nat)
      modifies this
      ensures Snapshot() == WithCooldown(old(Snapshot()), env, bars)
    {
      if bars > 0 {
        cooldownUntil := Some(env.K() + bars * env.intervalMs);
      }
    }

    method SetEquity(newEquity: real, cfg: Config)
      modifies this
      ensures Snapshot() == PaperLoop.SetEquity(old(Snapshot()), newEquity, cfg)
    {
      if !status.Dead? {
        UpdateEquity(newEquity, cfg);
      }
    }
  }

  class PositionRow {
    const side: Side
    const quantity: Positive
    const entryPrice: real
    const entryFee: real
    const stopLoss: Option<real>
    const takeProfit: Option<real>
    const trailingDistance: Option<real>
    const entryBar: int
    const openedAt: int
    const fundingFrom: int
    var trailingActive: bool
    var peak: real
    var trough: real
    var lastFunding: int
    var fundingAccrued: real
    var payments: seq<Payment>
    var lastProcessed: Option<int>
    var pendingExit: Option<int>
    var exitAttempts: nat
    var evaluations: seq<int>
    var exitSignals: seq<int>

    function Snapshot(): Position
      reads this
    {
      Position(side, quantity, entryPrice, entryFee, stopLoss, takeProfit, trailingDistance, trailingActive, peak,
               trough,
               lastFunding, fundingAccrued, payments, lastProcessed, pendingExit, exitAttempts, entryBar, openedAt,
               evaluations, exitSignals, fundingFrom)
    }

    constructor (p: Position)
      ensures Snapshot() == p
    {
      side, quantity, entryPrice, entryFee := p.side, p.quantity, p.entryPrice, p.entryFee;
      stopLoss, takeProfit, trailingDistance := p.stopLoss, p.takeProfit, p.trailingDistance;
      entryBar, openedAt, trailingActive, peak, trough := p.entryBar, p.openedAt, p.trailingActive, p.peak, p.trough;
      lastFunding, fundingAccrued, payments := p.lastFunding, p.fundingAccrued, p.payments;
      lastProcessed, pendingExit, exitAttempts := p.lastProcessed, p.pendingExit, p.exitAttempts;
      evaluations, exitSignals, fundingFrom := p.evaluations, p.exitSignals, p.fundingFrom;
    }
  }

  class PaperAccount {
    const agent: AgentRow
    var position: PositionRow?
    var orders: seq<Order>
    var trades: seq<Trade>
    var decided: set<int>

    ghost function Repr(): set<object>
      reads this
    {
      if position == null then {this, agent} else {this, agent, position}
    }

    function Snapshot(): Account
      reads this, agent, position
    {
      Account(agent.Snapshot(), if position == null then None else Some(position.Snapshot()), orders, trades, decided)
    }

    constructor (start: real, day: int)
      ensures Snapshot() == NewAccount(start, day) && fresh(Repr())
    {
      agent := new AgentRow(start, day);
      position, orders, trades, decided := null, [], [], {};
    }

    method RollDay(env: Env)
      modifies agent
      ensures agent.Snapshot() == PaperLoop.RollDay(old(agent.Snapshot()), env)
    {
      if agent.dayStart != Day(env.K()) {
        agent.dayStartEquity := agent.equity;
        agent.dayStart := Day(env.K());
        agent.dailyTradeCount := 0;
      }
    }

    method ChargeFunding(r: Rate, mark: real)
      requires position != null
      modifies agent, position
      ensures position != null && Holding(agent.Snapshot(), position.Snapshot())
           == ChargeOne(old(Holding(agent.Snapshot(), position.Snapshot())), r, mark)
    {
      hide FundingPayment;
      var amount := FundingPayment(position.side, position.quantity, mark, r.rate);
      position.payments := position.payments + [Payment(r.time, amount)];
      agent.balance := agent.balance - amount;
      agent.fundingPaid := agent.fundingPaid + amount;
      position.fundingAccrued := position.fundingAccrued + amount;
      position.lastFunding := r.time;
    }

    /** Every published settlement since the last one charged, in order. */
    method AccrueFunding(env: Env)
      requires position != null
      modifies agent, position
      ensures Snapshot() == Accrue(old(Snapshot()), env)
    {
      hide ChargeOne;
      var due := PaperLoop.Due(env.rates, position.lastFunding, env.CloseMs());
      ghost var h := Holding(agent.Snapshot(), position.Snapshot());
      for i := 0 to |due|
        invariant Holding(agent.Snapshot(), position.Snapshot()) == Charge(h, due[..i], env.bar.close)
      {
        assert due[..i + 1][..i] == due[..i];
        ChargeFunding(due[i], env.bar.close);
      }
      assert due[..|due|] == due;
    }

    /** Books a filled exit: the trade, the cash, the ratchets, death and cooldown. */
    method BookClose(cfg: Config, env: Env, dna: Option<Dna>, price: real, fee: real, kind: OrderKind, reason: Reason,
                     forced: bool)
      requires position != null
      modifies this, agent
      ensures Snapshot()
              == Settle(old(Snapshot()), cfg, env, dna, old(position.Snapshot()), price, fee, kind, reason, forced)
      ensures position == null
    {
      hide ComputeTradePnL, SettleClose, AfterCosts, AfterClose, WithCooldown, LiquidationPenalty, CooldownBars;
      var p := position.Snapshot();
      var exitFee := fee + LiquidationPenalty(kind, price, p.quantity, cfg.costs);
      var pnl := ComputeTradePnL(p.side, p.quantity, p.entryPrice, price, p.entryFee, exitFee, p.fundingAccrued);
      var settlement := SettleClose(agent.balance, pnl.gross, exitFee);
      position := null;
      trades := trades + [Trade(p, kind, reason, forced, price, env.K(), env.CloseMs(), pnl.gross, pnl.fees,
                                pnl.funding, pnl.net, settlement.badDebt)];
      agent.PayCosts(settlement, pnl.net, exitFee);
      agent.CloseAccounts(cfg, reason);
      agent.CoolDown(env, CooldownBars(dna, pnl.net));
    }

    method KeepDecision(env: Env)
      modifies this`decided
      ensures Snapshot() == Decided(old(Snapshot()), env)
    {
      decided := decided + {env.K()};
    }

    method CountRefusal()
      requires position != null
      modifies position
      ensures Snapshot() == old(Snapshot()).(position := Some(Tried(old(position.Snapshot()))))
    {
      position.exitAttempts := position.exitAttempts + 1;
    }

    /** Closes through the engine; a refusal is counted, and the last allowed one settled at the modelled price. */
    method ClosePosition(cfg: Config, env: Env, dna: Option<Dna>, reference: real, kind: OrderKind, reason: Reason)
      requires position != null
      modifies this, agent, position
      ensures Snapshot() == PaperLoop.ClosePosition(old(Snapshot()), cfg, env, dna, reference, kind, reason)
      ensures position == null || position == old(position)
    {
      hide Settle, ExitQuote, Decided, Tried;
      ghost var p := position.Snapshot();
      KeepDecision(env);
      var fill := env.fillExit(ExitOrder(position.Snapshot(), env, reference, kind));
      if fill.ExitFilled? {
        BookClose(cfg, env, dna, fill.price, fill.fee, kind, reason, false);
        return;
      }
      CountRefusal();
      if env.live || position.exitAttempts < cfg.forceSettleAfter {
        return;
      }
      var quote := ExitQuote(position.side, position.quantity, reference, kind, cfg.costs);
      BookClose(cfg, env, dna, quote.price, quote.fee, kind, reason, true);
    }

    method MarkToMarket(cfg: Config, env: Env, dna: Option<Dna>)
      requires position != null
      modifies this, agent, position
      ensures Snapshot() == Mark(old(Snapshot()), cfg, env, dna)
      ensures position == null || position == old(position)
    {
      hide PaperLoop.ClosePosition, PaperLoop.UpdateEquity, Equity;
      if Liquidatable(position.side, position.entryPrice, position.quantity, agent.balance, cfg.mmr, env.bar.close) {
        ClosePosition(cfg, env, dna, env.bar.close, LiquidationOrder, Liquidation);
        return;
      }
      agent.SetEquity(Equity(position.side, position.entryPrice, position.quantity, agent.balance, env.bar.close), cfg);
    }

    method Evaluate(cfg: Config, env: Env, dna: Option<Dna>)
      requires position != null
      modifies this, agent, position
      ensures Snapshot() == Protect(old(Snapshot()), cfg, env, dna)
      ensures position == null || position == old(position)
    {
      hide EvaluateBar, LiquidationPrice, PaperLoop.ClosePosition, Mark;
      var levels := LevelsOf(position.Snapshot(), agent.balance, cfg, dna);
      position.lastProcessed := Some(env.K());
      position.evaluations := position.evaluations + [env.K()];
      var trigger := EvaluateByList(levels, env.bar, cfg.sameBarExtreme);
      if trigger.Some? {
        ClosePosition(cfg, env, dna, trigger.value.reference, trigger.value.kind, trigger.value.reason);
        return;
      }
      var extremes := AdvanceExtremes(levels, env.bar);
      position.peak, position.trough, position.trailingActive := extremes.0, extremes.1, extremes.2;
      MarkToMarket(cfg, env, dna);
    }

    /** One confirmed bar of an open position; a bar that was already evaluated is left alone. */
    method ManageOpenPosition(cfg: Config, env: Env, dna: Option<Dna>)
      requires position != null
      modifies this, agent, position
      ensures Snapshot() == Manage(old(Snapshot()), cfg, env, dna)
      ensures position == null || position == old(position)
    {
      hide Protect, Accrue;
      if position.lastProcessed.Some? && position.lastProcessed.value >= env.K() {
        return;
      }
      AccrueFunding(env);
      Evaluate(cfg, env, dna);
    }

    // -------------------------------------------------------------- entries

    method SetOrder(i: nat, status: OrderStatus)
      requires i < |orders|
      modifies this`orders
      ensures Snapshot() == old(Snapshot()).(orders := WithStatus(old(orders), i, status))
    {
      orders := orders[i := orders[i].(status := status)];
    }

    method DebitEntry(cfg: Config, fee: real)
      modifies agent
      ensures agent.Snapshot() == AfterEntry(old(agent.Snapshot()), cfg, fee)
    {
      hide PaperLoop.UpdateEquity;
      agent.balance := agent.balance - fee;
      agent.feesPaid := agent.feesPaid + fee;
      agent.tradeCount := agent.tradeCount + 1;
      agent.dailyTradeCount := agent.dailyTradeCount + 1;
      agent.SetEquity(agent.balance, cfg);
    }

    /** Submits a pending entry and opens the position from its fill. */
    method FillEntry(cfg: Config, env: Env, dna: Dna, i: nat, reference: real, immediate: bool)
      requires i < |orders| && position == null
      modifies this, agent
      ensures Snapshot() == PaperLoop.FillEntry(old(Snapshot()), cfg, env, dna, i, reference, immediate)
      ensures position == null || fresh(position)
    {
      hide Opened, AfterEntry, ApproveAgainstMargin;
      var o := orders[i];
      var notional := ApproveAgainstMargin(o.notional, o.leverage, Max(0.0, agent.balance));
      var quantity := if reference > 0.0 then notional / reference else 0.0;
      var fill := env.fillEntry(EntryRequest(o.side, quantity, reference));
      if fill.EntryRefused? {
        SetOrder(i, Failed(env.K()));
        KeepDecision(env);
        return;
      }
      SetOrder(i, Filled(env.K()));
      position := new PositionRow(Opened(o, env, dna, fill.price, fill.quantity, fill.fee, immediate));
      DebitEntry(cfg, fill.fee);
    }

    method ExecutePendingEntry(cfg: Config, env: Env, dna: Dna, i: nat)
      requires i < |orders| && position == null
      modifies this, agent
      ensures Snapshot() == PaperLoop.ExecutePendingEntry(old(Snapshot()), cfg, env, dna, i)
      ensures position == null || fresh(position)
    {
      hide PaperLoop.FillEntry;
      if orders[i].signalTime != env.K() - env.intervalMs || env.halted || !agent.status.Active? {
        SetOrder(i, Cancelled);
        return;
      }
      FillEntry(cfg, env, dna, i, env.bar.open, false);
    }

    method ExecutePendingExit(cfg: Config, env: Env, dna: Option<Dna>)
      requires position != null
      modifies this, agent, position
      ensures Snapshot() == PaperLoop.ExecutePendingExit(old(Snapshot()), cfg, env, dna)
      ensures position == null || position == old(position)
    {
      hide PaperLoop.ClosePosition;
      var signalTime := position.pendingExit;
      position.pendingExit := None;
      if signalTime != Some(env.K() - env.intervalMs) {
        return;
      }
      ClosePosition(cfg, env, dna, env.bar.open, MarketOrder, SignalExit);
    }

    method ExecuteNextOpenDecisions(cfg: Config, env: Env, dna: Dna)
      modifies Repr()
      ensures Snapshot() == ExecuteNextOpen(old(Snapshot()), cfg, env, dna)
      ensures position == null || position == old(position) || fresh(position)
    {
      hide PaperLoop.ExecutePendingEntry, PaperLoop.ExecutePendingExit;
      if position != null {
        if position.pendingExit.Some? {
          ExecutePendingExit(cfg, env, Some(dna));
        }
        return;
      }
      PendingIndexBound(orders);
      var i := PendingIndex(orders);
      if i.Some? {
        ExecutePendingEntry(cfg, env, dna, i.value);
      }
    }

    // -------------------------------------------------------------- the signal

    method HoldOrExit(cfg: Config, env: Env, dna: Dna)
      requires position != null
      modifies this, agent, position
      ensures Snapshot() == PaperLoop.HoldOrExit(old(Snapshot()), cfg, env, dna)
      ensures position == null || position == old(position)
    {
      hide PaperLoop.ClosePosition;
      var signal := env.signal(Some(position.side));
      if !signal.matchedExit {
        return;
      }
      position.exitSignals := position.exitSignals + [env.K()];
      if env.nextOpen {
        position.pendingExit := Some(env.K());
        KeepDecision(env);
        return;
      }
      ClosePosition(cfg, env, Some(dna), env.bar.close, MarketOrder, SignalExit);
    }

    method PlaceEntry(cfg: Config, env: Env, dna: Dna)
      requires position == null
      modifies this, agent
      ensures Snapshot() == PaperLoop.PlaceEntry(old(Snapshot()), cfg, env, dna)
      ensures position == null || fresh(position)
    {
      hide PaperLoop.FillEntry, ApproveAgainstMargin;
      var signal := env.signal(None);
      if !signal.matchedEntry {
        return;
      }
      if CoolingDown(agent.Snapshot(), env.K()) {
        KeepDecision(env);
        return;
      }
      if agent.dailyTradeCount >= dna.maxTradesPerDay {
        if !env.capAudited {
          KeepDecision(env);
        }
        return;
      }
      var verdict := env.risk(signal.side, agent.Snapshot());
      var notional := ApprovedNotional(agent.Snapshot(), cfg, env, verdict);
      KeepDecision(env);
      if notional <= 0.0 {
        return;
      }
      orders := orders + [Order(env.K(), signal.side, notional, verdict.leverage, env.intent, Pending)];
      if !env.nextOpen {
        FillEntry(cfg, env, dna, |orders| - 1, env.bar.close, true);
      }
    }

    // -------------------------------------------------------------- one bar

    method ManageAndSignal(cfg: Config, env: Env, dna: Dna)
      modifies Repr()
      ensures Snapshot() == PaperLoop.ManageAndSignal(old(Snapshot()), cfg, env, dna)
      ensures position == null || position == old(position) || fresh(position)
    {
      hide Manage, PaperLoop.PlaceEntry, PaperLoop.HoldOrExit, PaperLoop.ClosePosition;
      if position == null {
        PlaceEntry(cfg, env, dna);
        return;
      }
      ManageOpenPosition(cfg, env, Some(dna));
      if position == null {
        return;
      }
      if agent.status.Dead? {
        ClosePosition(cfg, env, Some(dna), env.bar.close, LiquidationOrder, AgentDeath);
      } else {
        HoldOrExit(cfg, env, dna);
      }
    }

    /** One active agent on one bar: what the last close decided, the open position, the signal. */
    method ProcessAgent(cfg: Config, env: Env, dna: Dna)
      modifies Repr()
      ensures Snapshot() == PaperLoop.ProcessAgent(old(Snapshot()), cfg, env, dna)
      ensures position == null || position == old(position) || fresh(position)
    {
      hide ExecuteNextOpen, PaperLoop.ManageAndSignal, StillHeld;
      var before := Snapshot();
      RollDay(env);
      ExecuteNextOpenDecisions(cfg, env, dna);
      ManageAndSignal(cfg, env, dna);
      if agent.status.Active? && position == null && agent.equity < cfg.minViableEquity
        && !StillHeld(before, Snapshot()) {
        agent.MarkDead();
      }
    }

    method ProtectOne(cfg: Config, env: Env, dna: Option<Dna>)
      requires position != null
      modifies this, agent, position
      ensures Snapshot() == PaperLoop.ProtectOne(old(Snapshot()), cfg, env, dna)
      ensures position == null || position == old(position)
    {
      hide Manage, PaperLoop.ClosePosition;
      ManageOpenPosition(cfg, env, dna);
      if position == null || agent.status.Active? {
        return;
      }
      if agent.status.Dead? {
        ClosePosition(cfg, env, dna, env.bar.close, LiquidationOrder, AgentDeath);
      } else {
        ClosePosition(cfg, env, dna, env.bar.close, MarketOrder, OrphanResolution);
      }
    }

    method CancelStalePending(cutoff: int)
      modifies this`orders
      ensures Snapshot() == old(Snapshot()).(orders := CancelStale(old(orders), cutoff))
    {
      for i := 0 to |orders|
        invariant |orders| == |old(orders)|
        invariant forall j :: 0 <= j < i ==> orders[j] == CancelStale(old(orders), cutoff)[j]
        invariant forall j :: i <= j < |orders| ==> orders[j] == old(orders)[j]
      {
        if orders[i].status.Pending? && orders[i].signalTime < cutoff {
          orders := orders[i := orders[i].(status := Cancelled)];
        }
      }
      assert orders == CancelStale(old(orders), cutoff);
    }

    // -------------------------------------------------------------- this account's share of a pass

    /** The decision phase for this agent. A failure inside the savepoint leaves every row as it was. */
    method Decide(cfg: Config, env: Env, dna: Option<Dna>, cycled: bool, faults: Faults)
      modifies Repr()
      ensures Snapshot() == PaperLoop.Decide(old(Snapshot()), cfg, env, dna, cycled, faults)
      ensures fresh(Repr() - old(Repr()))
    {
      hide PaperLoop.ProcessAgent;
      if !cycled || !agent.status.Active? || env.K() in decided {
        return;
      }
      if dna.None? {
        if position == null {
          agent.status := Paused;
        }
        return;
      }
      if !faults.process {
        ProcessAgent(cfg, env, dna.value);
      }
    }

    method Sweep(cfg: Config, env: Env, dna: Option<Dna>, faults: Faults)
      modifies Repr()
      ensures Snapshot() == PaperLoop.Sweep(old(Snapshot()), cfg, env, dna, faults)
      ensures Repr() <= old(Repr())
    {
      hide PaperLoop.ProtectOne;
      if position == null || Processed(position.Snapshot(), env.K()) || faults.protect {
        return;
      }
      ProtectOne(cfg, env, dna);
    }

    method CloseAtRollover(mark: real, feeRate: real, at: int)
      requires position != null
      modifies this, agent
      ensures Snapshot() == RolledOver(old(Snapshot()), mark, feeRate, at) && position == null
    {
      hide ComputeTradePnL, SettleClose, RolloverFee;
      var p := position.Snapshot();
      var exitFee := RolloverFee(p, mark, feeRate);
      var pnl := ComputeTradePnL(p.side, p.quantity, p.entryPrice, mark, p.entryFee, exitFee, p.fundingAccrued);
      var settlement := SettleClose(agent.balance, pnl.gross, exitFee);
      var closedAt := if at >= p.openedAt then at else p.openedAt;
      position := null;
      trades := trades + [Trade(p, MarketOrder, GenerationRollover, false, mark, closedAt, closedAt, pnl.gross,
                                pnl.fees, pnl.funding, pnl.net, settlement.badDebt)];
      agent.PayCosts(settlement, pnl.net, exitFee);
      agent.ReportCash();
    }

    /** The end of this agent's generation. */
    method Retire(mark: real, feeRate: real, at: int)
      modifies Repr()
      ensures Snapshot() == Rollover(old(Snapshot()), mark, feeRate, at)
      ensures position == null
    {
      hide RolledOver;
      if position != null {
        CloseAtRollover(mark, feeRate, at);
        StatusSurvivesRollover(old(Snapshot()), mark, feeRate, at);
      }
      CancelAllPending();
      if agent.status.Active? {
        agent.status := Retired;
        agent.finalEquity := Some(agent.equity);
        agent.finalPnl := Some(agent.equity - agent.startingBalance);
      }
    }

    method CancelAllPending()
      modifies this`orders
      ensures Snapshot() == old(Snapshot()).(orders := CancelPending(old(orders)))
    {
      for i := 0 to |orders|
        invariant |orders| == |old(orders)|
        invariant forall j :: 0 <= j < i ==> orders[j] == CancelPending(old(orders))[j]
        invariant forall j :: i <= j < |orders| ==> orders[j] == old(orders)[j]
      {
        if orders[i].status.Pending? {
          orders := orders[i := orders[i].(status := Cancelled)];
        }
      }
      assert orders == CancelPending(old(orders));
    }
  }

  lemma StatusSurvivesRollover(acct: Account, mark: real, feeRate: real, at: int)
    requires acct.position.Some?
    ensures var b := RolledOver(acct, mark, feeRate, at);
      b.agent.status == acct.agent.status && b.orders == acct.orders && b.decided == acct.decided
      && b.agent.startingBalance == acct.agent.startingBalance
  {}

  // ---------------------------------------------------------------- the population

  /** What one agent brings to a pass. */
  datatype Input = Input(env: Env, dna: Option<Dna>, cycled: bool, processFails: bool, protectFails: bool)

  function FaultsOf(x: Input): Faults { Faults(x.processFails, x.protectFails, false) }

  /** No two accounts share a row. */
  ghost predicate Separate(accounts: seq<PaperAccount>)
    reads accounts
  {
    forall i, j :: 0 <= i < j < |accounts| ==> accounts[i].Repr() !! accounts[j].Repr()
  }

  ghost function AllRows(accounts: seq<PaperAccount>): set<object>
    reads accounts
  {
    set i, o | 0 <= i < |accounts| && o in accounts[i].Repr() :: o
  }

  method DecideOne(accounts: seq<PaperAccount>, i: nat, cfg: Config, inputs: seq<Input>)
    requires |inputs| == |accounts| && Separate(accounts) && i < |accounts|
    modifies accounts[i].Repr()
    ensures Separate(accounts) && fresh(accounts[i].Repr() - old(accounts[i].Repr()))
    ensures accounts[i].Snapshot() == PaperLoop.Decide(
      old(accounts[i].Snapshot()), cfg, inputs[i].env, inputs[i].dna, inputs[i].cycled, FaultsOf(inputs[i]))
    ensures forall j :: 0 <= j < |accounts| && j != i ==>
      accounts[j].Repr() == old(accounts[j].Repr()) && accounts[j].Snapshot() == old(accounts[j].Snapshot())
  {
    hide PaperLoop.Decide, PaperLoop.Sweep, CancelStale;
    accounts[i].Decide(cfg, inputs[i].env, inputs[i].dna, inputs[i].cycled, FaultsOf(inputs[i]));
    forall j | 0 <= j < |accounts| && j != i
      ensures accounts[j].Repr() == old(accounts[j].Repr()) && accounts[j].Repr() !! old(accounts[i].Repr())
    {
      assert j < i || i < j;
    }
  }

  method SweepOne(accounts: seq<PaperAccount>, i: nat, cfg: Config, inputs: seq<Input>)
    requires |inputs| == |accounts| && Separate(accounts) && i < |accounts|
    modifies accounts[i].Repr()
    ensures Separate(accounts) && accounts[i].Repr() <= old(accounts[i].Repr())
    ensures accounts[i].Snapshot() == PaperLoop.Sweep(
      old(accounts[i].Snapshot()), cfg, inputs[i].env, inputs[i].dna, FaultsOf(inputs[i]))
    ensures forall j :: 0 <= j < |accounts| && j != i ==>
      accounts[j].Repr() == old(accounts[j].Repr()) && accounts[j].Snapshot() == old(accounts[j].Snapshot())
  {
    hide PaperLoop.Decide, PaperLoop.Sweep, CancelStale;
    accounts[i].Sweep(cfg, inputs[i].env, inputs[i].dna, FaultsOf(inputs[i]));
    forall j | 0 <= j < |accounts| && j != i
      ensures accounts[j].Repr() == old(accounts[j].Repr()) && accounts[j].Repr() !! old(accounts[i].Repr())
    {
      assert j < i || i < j;
    }
  }

  method CancelStaleOne(accounts: seq<PaperAccount>, i: nat, inputs: seq<Input>)
    requires |inputs| == |accounts| && Separate(accounts) && i < |accounts|
    modifies accounts[i].Repr()
    ensures Separate(accounts) && accounts[i].Repr() == old(accounts[i].Repr())
    ensures accounts[i].Snapshot() == old(accounts[i].Snapshot()).(
      orders := CancelStale(old(accounts[i].orders), inputs[i].env.K() - inputs[i].env.intervalMs))
    ensures forall j :: 0 <= j < |accounts| && j != i ==>
      accounts[j].Repr() == old(accounts[j].Repr()) && accounts[j].Snapshot() == old(accounts[j].Snapshot())
  {
    hide PaperLoop.Decide, PaperLoop.Sweep, CancelStale;
    accounts[i].CancelStalePending(inputs[i].env.K() - inputs[i].env.intervalMs);
    forall j | 0 <= j < |accounts| && j != i
      ensures accounts[j].Repr() == old(accounts[j].Repr()) && accounts[j].Repr() !! old(accounts[i].Repr())
    {
      assert j < i || i < j;
    }
  }

  method DecideAll(accounts: seq<PaperAccount>, cfg: Config, inputs: seq<Input>)
    requires |inputs| == |accounts| && Separate(accounts)
    modifies AllRows(accounts)
    ensures Separate(accounts) && fresh(AllRows(accounts) - old(AllRows(accounts)))
    ensures forall i :: 0 <= i < |accounts| ==> accounts[i].Snapshot() == PaperLoop.Decide(
      old(accounts[i].Snapshot()), cfg, inputs[i].env, inputs[i].dna, inputs[i].cycled, FaultsOf(inputs[i]))
  {
    hide PaperLoop.Decide;
    for i := 0 to |accounts|
      invariant Separate(accounts)
      invariant forall j :: 0 <= j < i ==> fresh(accounts[j].Repr() - old(accounts[j].Repr()))
      invariant forall j :: 0 <= j < i ==> accounts[j].Snapshot() == PaperLoop.Decide(
        old(accounts[j].Snapshot()), cfg, inputs[j].env, inputs[j].dna, inputs[j].cycled, FaultsOf(inputs[j]))
      invariant forall j :: i <= j < |accounts| ==>
        accounts[j].Repr() == old(accounts[j].Repr()) && accounts[j].Snapshot() == old(accounts[j].Snapshot())
    {
      DecideOne(accounts, i, cfg, inputs);
    }
  }

  method ProtectOpenPositions(accounts: seq<PaperAccount>, cfg: Config, inputs: seq<Input>)
    requires |inputs| == |accounts| && Separate(accounts)
    modifies AllRows(accounts)
    ensures Separate(accounts) && AllRows(accounts) <= old(AllRows(accounts))
    ensures forall i :: 0 <= i < |accounts| ==> accounts[i].Snapshot() == PaperLoop.Sweep(
      old(accounts[i].Snapshot()), cfg, inputs[i].env, inputs[i].dna, FaultsOf(inputs[i]))
  {
    hide PaperLoop.Sweep;
    for i := 0 to |accounts|
      invariant Separate(accounts)
      invariant forall j :: 0 <= j < i ==> accounts[j].Repr() <= old(accounts[j].Repr())
      invariant forall j :: 0 <= j < i ==> accounts[j].Snapshot() == PaperLoop.Sweep(
        old(accounts[j].Snapshot()), cfg, inputs[j].env, inputs[j].dna, FaultsOf(inputs[j]))
      invariant forall j :: i <= j < |accounts| ==>
        accounts[j].Repr() == old(accounts[j].Repr()) && accounts[j].Snapshot() == old(accounts[j].Snapshot())
    {
      SweepOne(accounts, i, cfg, inputs);
    }
  }

  method CancelStaleAll(accounts: seq<PaperAccount>, inputs: seq<Input>)
    requires |inputs| == |accounts| && Separate(accounts)
    modifies AllRows(accounts)
    ensures Separate(accounts)
    ensures forall i :: 0 <= i < |accounts| ==> accounts[i].Snapshot() == old(accounts[i].Snapshot()).(
      orders := CancelStale(old(accounts[i].orders), inputs[i].env.K() - inputs[i].env.intervalMs))
  {
    hide CancelStale;
    for i := 0 to |accounts|
      invariant Separate(accounts)
      invariant forall j :: 0 <= j < |accounts| ==> accounts[j].Repr() == old(accounts[j].Repr())
      invariant forall j :: 0 <= j < i ==> accounts[j].Snapshot() == old(accounts[j].Snapshot()).(
        orders := CancelStale(old(accounts[j].orders), inputs[j].env.K() - inputs[j].env.intervalMs))
      invariant forall j :: i <= j < |accounts| ==> accounts[j].Snapshot() == old(accounts[j].Snapshot())
    {
      CancelStaleOne(accounts, i, inputs);
    }
  }

  /** One committed decision cycle over the population: every agent in its savepoint, then the protective sweep over
      every open position, then the stale orders. No agent's failure or loss touches another agent's rows. */
  method RunDecisionCycle(accounts: seq<PaperAccount>, cfg: Config, inputs: seq<Input>)
    requires |inputs| == |accounts| && Separate(accounts)
    modifies AllRows(accounts)
    ensures Separate(accounts)
    ensures forall i :: 0 <= i < |accounts| ==> accounts[i].Snapshot() == Cycle(
      old(accounts[i].Snapshot()), cfg, inputs[i].env, inputs[i].dna, inputs[i].cycled, FaultsOf(inputs[i]))
  {
    hide PaperLoop.Decide, PaperLoop.Sweep, CancelStale;
    DecideAll(accounts, cfg, inputs);
    ProtectOpenPositions(accounts, cfg, inputs);
    CancelStaleAll(accounts, inputs);
  }
}
