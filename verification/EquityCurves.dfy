/** The drawdown a paper account reports, over whole runs: the worst fall of the equities it was marked at. */
module EquityCurves {
  import opened Market
  import opened PnlEngine
  import opened PositionManager
  import opened Accounting
  import opened PaperLoop
  import opened Drawdowns

  // ---------------------------------------------------------------- the milestones

  /** The multiples of the starting equity that count. */
  predicate IsMilestone(m: real) {
    m == 2.0 || m == 3.0 || m == 5.0 || m == 10.0 || m == 25.0 || m == 50.0 || m == 100.0
  }

  /** The best milestone is the highest that any equity of the curve reached, if that beats the one held before. */
  ghost predicate HoldsHighestMilestone(before: real, s: seq<real>, start: real, best: real)
    requires start > 0.0
  {
    && best >= before
    && (forall k, m :: 0 <= k < |s| && IsMilestone(m) && s[k] / start >= m ==> m <= best)
    && (best == before || (IsMilestone(best) && exists k :: 0 <= k < |s| && s[k] / start >= best))
  }

  lemma {:induction false} MilestonesReached(best: real, multiple: real, n: nat)
    requires n <= |MILESTONES|
    ensures var b := MilestoneAfter(best, multiple, n);
            && b >= best
            && (forall m :: 0 <= m < n && multiple >= MILESTONES[m] ==> MILESTONES[m] <= b)
            && (b == best || exists m :: 0 <= m < n && multiple >= MILESTONES[m] == b)
  {
    if n > 0 {
      MilestonesReached(best, multiple, n - 1);
    }
  }

  /** The list holds exactly these. */
  lemma ListedExactly()
    ensures forall m :: IsMilestone(m) <==> m in MILESTONES
  {
    assert MILESTONES == [2.0, 3.0, 5.0, 10.0, 25.0, 50.0, 100.0];
  }

  lemma MilestoneStep(before: real, s: seq<real>, start: real, was: real, e: real, best: real)
    requires start > 0.0 && HoldsHighestMilestone(before, s, start, was)
    requires best >= was
    requires forall m :: IsMilestone(m) && e / start >= m ==> m <= best
    requires best == was || (IsMilestone(best) && e / start >= best)
    ensures HoldsHighestMilestone(before, s + [e], start, best)
  {
    var t := s + [e];
    assert t[|s|] == e;
    if best != was {
      assert t[|s|] / start >= best;
    } else if best != before {
      var k :| 0 <= k < |s| && s[k] / start >= best;
      assert t[k] / start >= best;
    }
  }

  // ---------------------------------------------------------------- what is recorded

  /** Peak, drawdown and best milestone are those of the marks, of which at most the last, of a dead agent, is not
      positive. */
  ghost predicate Recorded(a: Agent) {
    && a.marks != [] && IsHighest(a.marks, a.peakEquity) && WorstFall(a.marks, a.maxDrawdown)
    && a.startingBalance > 0.0 && HoldsHighestMilestone(1.0, a.marks, a.startingBalance, a.bestMilestone)
    && (forall k :: 0 <= k < |a.marks| - 1 ==> a.marks[k] > 0.0)
    && (!a.status.Dead? ==> a.marks[|a.marks| - 1] > 0.0)
  }

  ghost predicate Keeps(a: Agent, b: Agent) { Recorded(a) ==> Recorded(b) }

  ghost predicate SameMarks(a: Agent, b: Agent) {
    && a.marks == b.marks && a.peakEquity == b.peakEquity && a.maxDrawdown == b.maxDrawdown
    && a.startingBalance == b.startingBalance && a.bestMilestone == b.bestMilestone
    && (a.status.Dead? ==> b.status.Dead?)
  }

  lemma SameMarksKeep(a: Agent, b: Agent)
    requires SameMarks(a, b)
    ensures Keeps(a, b)
  {
    hide IsHighest, WorstFall, HoldsHighestMilestone;
  }

  lemma MilestoneKeeps(a: Agent, equity: real)
    requires a.startingBalance > 0.0 && HoldsHighestMilestone(1.0, a.marks, a.startingBalance, a.bestMilestone)
    ensures HoldsHighestMilestone(1.0, a.marks + [equity], a.startingBalance,
                                  MilestoneAfter(a.bestMilestone, equity / a.startingBalance, |MILESTONES|))
  {
    hide MilestoneAfter;
    var multiple := equity / a.startingBalance;
    MilestonesReached(a.bestMilestone, multiple, |MILESTONES|);
    ListedExactly();
    MilestoneStep(1.0, a.marks, a.startingBalance, a.bestMilestone, equity,
                  MilestoneAfter(a.bestMilestone, multiple, |MILESTONES|));
  }

  /** A mark extends the curve, and kills the agent if it is not positive. */
  lemma MarkKeeps(a: Agent, equity: real, cfg: Config)
    ensures Keeps(a, SetEquity(a, equity, cfg))
  {
    hide RelativeFall, MilestoneAfter, WorstFall, IsHighest, DrawdownAfter, HoldsHighestMilestone;
    if !a.status.Dead? && Recorded(a) {
      WorstFallExtends(a.marks, a.peakEquity, a.maxDrawdown, equity);
      MilestoneKeeps(a, equity);
    }
  }

  // ---------------------------------------------------------------- closing

  lemma AfterCloseKeeps(a: Agent, cfg: Config, reason: Reason)
    ensures Keeps(a, AfterClose(a, cfg, reason))
  {
    hide SetEquity, Recorded;
    MarkKeeps(a, a.balance, cfg);
    SameMarksKeep(SetEquity(a, a.balance, cfg), AfterClose(a, cfg, reason));
  }

  lemma BookKeeps(acct: Account, cfg: Config, env: Env, dna: Option<Dna>, p: Position, price: real, exitFee: real,
                  kind: OrderKind, reason: Reason, forced: bool)
    ensures Keeps(acct.agent, Book(acct, cfg, env, dna, p, price, exitFee, kind, reason, forced).agent)
  {
    hide AfterClose, Recorded, ComputeTradePnL, SettleClose;
    var pnl := ComputeTradePnL(p.side, p.quantity, p.entryPrice, price, p.entryFee, exitFee, p.fundingAccrued);
    var paid := AfterCosts(acct.agent, SettleClose(acct.agent.balance, pnl.gross, exitFee), pnl.net, exitFee);
    SameMarksKeep(acct.agent, paid);
    AfterCloseKeeps(paid, cfg, reason);
    SameMarksKeep(AfterClose(paid, cfg, reason),
                  WithCooldown(AfterClose(paid, cfg, reason), env, CooldownBars(dna, pnl.net)));
  }

  lemma CloseKeeps(acct: Account, cfg: Config, env: Env, dna: Option<Dna>, reference: real, kind: OrderKind,
                   reason: Reason)
    requires acct.position.Some?
    ensures Keeps(acct.agent, ClosePosition(acct, cfg, env, dna, reference, kind, reason).agent)
  {
    hide Book, ExitQuote, LiquidationPenalty, Recorded;
    var p := acct.position.value;
    match env.fillExit(ExitOrder(p, env, reference, kind))
    case ExitFilled(price, fee) =>
      BookKeeps(Decided(acct, env), cfg, env, dna, p, price,
                fee + LiquidationPenalty(kind, price, p.quantity, cfg.costs), kind, reason, false);
    case ExitRefused =>
      var q := ExitQuote(p.side, p.quantity, reference, kind, cfg.costs);
      BookKeeps(Decided(acct, env).(position := Some(Tried(p))), cfg, env, dna, Tried(p), q.price,
                q.fee + LiquidationPenalty(kind, q.price, p.quantity, cfg.costs), kind, reason, true);
  }

  // ---------------------------------------------------------------- one bar

  lemma {:induction false} ChargeKeeps(h: Holding, due: seq<Rate>, mark: real)
    ensures SameMarks(h.agent, Charge(h, due, mark).agent)
  {
    hide FundingPayment;
    if due != [] {
      ChargeKeeps(h, due[..|due| - 1], mark);
    }
  }

  lemma ProtectKeeps(acct: Account, cfg: Config, env: Env, dna: Option<Dna>)
    requires acct.position.Some?
    ensures Keeps(acct.agent, Protect(acct, cfg, env, dna).agent)
  {
    hide ClosePosition, EvaluateBar, Liquidatable, LiquidationPrice, AdvanceExtremes, SetEquity, Recorded, Equity;
    var p := acct.position.value;
    var levels := LevelsOf(p, acct.agent.balance, cfg, dna);
    var held := acct.(position := Some(Evaluated(p, env.K())));
    var t := EvaluateBar(levels, env.bar, cfg.sameBarExtreme);
    if t.Some? {
      CloseKeeps(held, cfg, env, dna, t.value.reference, t.value.kind, t.value.reason);
    } else {
      var survived := held.(position := Some(Survived(Evaluated(p, env.K()), levels, env.bar)));
      CloseKeeps(survived, cfg, env, dna, env.bar.close, LiquidationOrder, Liquidation);
      MarkKeeps(acct.agent, Equity(p.side, p.entryPrice, p.quantity, acct.agent.balance, env.bar.close), cfg);
    }
  }

  lemma ManageKeeps(acct: Account, cfg: Config, env: Env, dna: Option<Dna>)
    requires acct.position.Some?
    ensures Keeps(acct.agent, Manage(acct, cfg, env, dna).agent)
  {
    hide Protect, Recorded, Charge, Due;
    if !Processed(acct.position.value, env.K()) {
      var p := acct.position.value;
      ChargeKeeps(Holding(acct.agent, p), Due(env.rates, p.lastFunding, env.CloseMs()), env.bar.close);
      SameMarksKeep(acct.agent, Accrue(acct, env).agent);
      ProtectKeeps(Accrue(acct, env), cfg, env, dna);
    }
  }

  lemma FillKeeps(acct: Account, cfg: Config, env: Env, dna: Dna, i: nat, reference: real, immediate: bool)
    requires i < |acct.orders|
    ensures Keeps(acct.agent, FillEntry(acct, cfg, env, dna, i, reference, immediate).agent)
  {
    hide SetEquity, Recorded, ApproveAgainstMargin, Opened;
    forall fee: real ensures Keeps(acct.agent, AfterEntry(acct.agent, cfg, fee)) {
      var a := acct.agent;
      var paid := a.(balance := a.balance - fee, feesPaid := a.feesPaid + fee, tradeCount := a.tradeCount + 1,
                     dailyTradeCount := a.dailyTradeCount + 1);
      SameMarksKeep(a, paid);
      MarkKeeps(paid, paid.balance, cfg);
    }
  }

  lemma OpenKeeps(acct: Account, cfg: Config, env: Env, dna: Dna)
    ensures Keeps(acct.agent, AtTheOpen(acct, cfg, env, dna).agent)
  {
    hide ClosePosition, FillEntry, Recorded;
    var rolled := acct.(agent := RollDay(acct.agent, env));
    SameMarksKeep(acct.agent, rolled.agent);
    if acct.position.Some? {
      var taken := rolled.(position := Some(acct.position.value.(pendingExit := None)));
      CloseKeeps(taken, cfg, env, Some(dna), env.bar.open, MarketOrder, SignalExit);
    } else {
      PendingIndexBound(acct.orders);
      var i := PendingIndex(acct.orders);
      if i.Some? {
        FillKeeps(rolled, cfg, env, dna, i.value, env.bar.open, false);
      }
    }
  }

  lemma SignalKeeps(acct: Account, cfg: Config, env: Env, dna: Dna)
    ensures acct.position.Some? ==> Keeps(acct.agent, HoldOrExit(acct, cfg, env, dna).agent)
    ensures acct.position.None? ==> Keeps(acct.agent, PlaceEntry(acct, cfg, env, dna).agent)
  {
    hide ClosePosition, FillEntry, ApproveAgainstMargin, Recorded;
    if acct.position.Some? {
      var taken := acct.(position := Some(Signalled(acct.position.value, env.K())));
      CloseKeeps(taken, cfg, env, Some(dna), env.bar.close, MarketOrder, SignalExit);
    } else {
      var verdict := env.risk(env.signal(None).side, acct.agent);
      var notional := ApprovedNotional(acct.agent, cfg, env, verdict);
      if verdict.Approved? {
        var order := Order(env.K(), env.signal(None).side, notional, verdict.leverage, env.intent, Pending);
        var placed := Decided(acct, env).(orders := acct.orders + [order]);
        FillKeeps(placed, cfg, env, dna, |acct.orders|, env.bar.close, true);
      }
    }
  }

  lemma ProcessKeeps(acct: Account, cfg: Config, env: Env, dna: Dna)
    ensures Keeps(acct.agent, ProcessAgent(acct, cfg, env, dna).agent)
  {
    hide AtTheOpen, Manage, HoldOrExit, PlaceEntry, ClosePosition, StillHeld, Recorded;
    OpenKeeps(acct, cfg, env, dna);
    var entered := AtTheOpen(acct, cfg, env, dna);
    SignalKeeps(entered, cfg, env, dna);
    if entered.position.Some? {
      ManageKeeps(entered, cfg, env, Some(dna));
      var managed := Manage(entered, cfg, env, Some(dna));
      SignalKeeps(managed, cfg, env, dna);
      if managed.position.Some? {
        CloseKeeps(managed, cfg, env, Some(dna), env.bar.close, LiquidationOrder, AgentDeath);
      }
    }
    var after := ManageAndSignal(entered, cfg, env, dna);
    SameMarksKeep(after.agent, MarkDead(after.agent));
  }

  lemma SweepKeeps(acct: Account, cfg: Config, env: Env, dna: Option<Dna>, faults: Faults)
    ensures Keeps(acct.agent, Sweep(acct, cfg, env, dna, faults).agent)
  {
    hide Manage, ClosePosition, Recorded;
    if acct.position.Some? {
      ManageKeeps(acct, cfg, env, dna);
      var managed := Manage(acct, cfg, env, dna);
      if managed.position.Some? {
        CloseKeeps(managed, cfg, env, dna, env.bar.close, LiquidationOrder, AgentDeath);
        CloseKeeps(managed, cfg, env, dna, env.bar.close, MarketOrder, OrphanResolution);
      }
    }
  }

  lemma StepKeeps(acct: Account, cfg: Config, e: Event)
    ensures Keeps(acct.agent, Step(acct, cfg, e).agent)
  {
    hide ProcessAgent, Sweep, Recorded, ComputeTradePnL, SettleClose;
    match e
    case Candle(env, dna, cycled, faults) =>
      if dna.Some? {
        ProcessKeeps(acct, cfg, env, dna.value);
      }
      var decided := Decide(acct, cfg, env, dna, cycled, faults);
      SameMarksKeep(acct.agent, acct.agent.(status := if acct.agent.status.Dead? then Dead else Paused));
      SweepKeeps(decided, cfg, env, dna, faults);
    case ProtectBar(env, dna, faults) =>
      SweepKeeps(acct, cfg, env, dna, faults);
    case EndOfGeneration(mark, feeRate, at) =>
      SameMarksKeep(acct.agent, Rollover(acct, mark, feeRate, at).agent);
  }

  /** After any run of a solvent account the reported peak, drawdown and best milestone are those of all the equities it
      was marked at - entries, closes and the closes of bars - and only the one that killed it is not positive. */
  lemma {:induction false} RunsRecordTheWorstFall(start: real, day: int, cfg: Config, events: seq<Event>)
    requires start > 0.0
    ensures Recorded(Run(NewAccount(start, day), cfg, events).agent)
  {
    hide Step, Recorded;
    if events == [] {
      FreshIsRecorded(start, day);
    } else {
      var n := |events| - 1;
      RunsRecordTheWorstFall(start, day, cfg, events[..n]);
      StepKeeps(Run(NewAccount(start, day), cfg, events[..n]), cfg, events[n]);
    }
  }

  lemma FreshIsRecorded(start: real, day: int)
    requires start > 0.0
    ensures Recorded(NewAgent(start, day))
  {
    WorstFallOfOne(start);
  }

  /** So over any run the reported drawdown is the worst fall from any earlier mark exactly when the last mark is not
      negative, or no two positive marks differ. */
  lemma RunDrawdownExactlyWhen(start: real, day: int, cfg: Config, events: seq<Event>, v: real)
    requires start > 0.0
    requires WorstFallAnywhere(Run(NewAccount(start, day), cfg, events).agent.marks, v)
    ensures var a := Run(NewAccount(start, day), cfg, events).agent;
      && a.marks != []
      && (a.maxDrawdown == v
          <==> (a.marks[|a.marks| - 1] >= 0.0
                || forall i, j :: 0 <= i < |a.marks| && 0 <= j < |a.marks| && a.marks[i] > 0.0 && a.marks[j] > 0.0 ==>
                     a.marks[i] == a.marks[j]))
  {
    hide Run, WorstFall, WorstFallAnywhere, IsHighest;
    RunsRecordTheWorstFall(start, day, cfg, events);
    var a := Run(NewAccount(start, day), cfg, events).agent;
    PeaksSufficeExactlyWhen(a.marks, a.maxDrawdown, v);
  }
}
