/** Protection exactly once: over every run, whatever the fill timing and the order of the bars, no position is
    evaluated twice on one bar, and a pass without failures leaves none behind. */
module Protection {
  import opened Market
  import opened PnlEngine
  import opened PositionManager
  import opened Accounting
  import opened PaperLoop

  ghost predicate Ascending(s: seq<int>) { forall i, j :: 0 <= i < j < |s| ==> s[i] < s[j] }

  ghost predicate AtMost(a: Option<int>, b: Option<int>) { a.None? || (b.Some? && a.value <= b.value) }

  /** Each bar is evaluated at most once, in ascending order; the last processed bar is the newest of them, or before
      any the bar of an immediate fill. */
  ghost predicate EachBarOnce(p: Position) {
    && Ascending(p.evaluations)
    && (if p.evaluations == [] then p.lastProcessed.None? || p.lastProcessed == Some(p.entryBar)
        else p.lastProcessed == Some(p.evaluations[|p.evaluations| - 1]))
  }

  ghost predicate Protected(acct: Account) {
    && (acct.position.Some? ==> EachBarOnce(acct.position.value))
    && (forall i :: 0 <= i < |acct.trades| ==> EachBarOnce(acct.trades[i].position))
  }

  /** `q` is `p` after more passes. */
  ghost predicate Onward(p: Position, q: Position) {
    p.evaluations <= q.evaluations && AtMost(p.lastProcessed, q.lastProcessed) && p.exitAttempts <= q.exitAttempts
  }

  /** The position of `a` is still open in `b`, further on, or it is the first trade `b` booked since; an owner that is
      not active stays so. */
  ghost predicate Forward(a: Account, b: Account) {
    && a.trades <= b.trades && (b.agent.status.Active? ==> a.agent.status.Active?)
    && (a.position.Some? ==>
          if |a.trades| == |b.trades| then b.position.Some? && Onward(a.position.value, b.position.value)
          else Onward(a.position.value, b.trades[|a.trades|].position))
  }

  ghost predicate Keeps(a: Account, b: Account) { (Protected(a) ==> Protected(b)) && Forward(a, b) }

  lemma KeepsTransitive(a: Account, b: Account, c: Account)
    requires Keeps(a, b) && Keeps(b, c)
    ensures Keeps(a, c)
  {}

  // ---------------------------------------------------------------- closing

  lemma SettleShape(acct: Account, cfg: Config, env: Env, dna: Option<Dna>, p: Position, price: real, fee: real,
                    kind: OrderKind, reason: Reason, forced: bool)
    ensures var b := Settle(acct, cfg, env, dna, p, price, fee, kind, reason, forced);
      && b.position.None? && |b.trades| == |acct.trades| + 1 && b.trades[..|acct.trades|] == acct.trades
      && b.trades[|acct.trades|].position == p && (b.agent.status.Active? ==> acct.agent.status.Active?)
  {
    hide ComputeTradePnL, SettleClose, LiquidationPenalty, BankruptcyLevel, DrawdownAfter, MilestoneAfter;
  }

  /** A close ends in one trade, or in a refusal that counts an attempt, below the limit off the live venue. */
  lemma CloseShape(acct: Account, cfg: Config, env: Env, dna: Option<Dna>, reference: real, kind: OrderKind,
                   reason: Reason)
    requires acct.position.Some?
    ensures var p, b := acct.position.value, ClosePosition(acct, cfg, env, dna, reference, kind, reason);
      || (b == Decided(acct, env).(position := Some(Tried(p)))
          && (!env.live ==> b.position.value.exitAttempts < cfg.forceSettleAfter))
      || (b.position.None? && |b.trades| == |acct.trades| + 1 && b.trades[..|acct.trades|] == acct.trades
          && (b.trades[|acct.trades|].position == p || b.trades[|acct.trades|].position == Tried(p))
          && (b.agent.status.Active? ==> acct.agent.status.Active?))
  {
    hide Settle, ExitQuote;
    var p := acct.position.value;
    match env.fillExit(ExitOrder(p, env, reference, kind))
    case ExitFilled(price, fee) =>
      SettleShape(Decided(acct, env), cfg, env, dna, p, price, fee, kind, reason, false);
    case ExitRefused =>
      var quote := ExitQuote(p.side, p.quantity, reference, kind, cfg.costs);
      var refused := Decided(acct, env).(position := Some(Tried(p)));
      SettleShape(refused, cfg, env, dna, Tried(p), quote.price, quote.fee, kind, reason, true);
  }

  lemma CloseKeeps(acct: Account, cfg: Config, env: Env, dna: Option<Dna>, reference: real, kind: OrderKind,
                   reason: Reason)
    requires acct.position.Some?
    ensures Keeps(acct, ClosePosition(acct, cfg, env, dna, reference, kind, reason))
  {
    hide ClosePosition;
    CloseShape(acct, cfg, env, dna, reference, kind, reason);
    var b := ClosePosition(acct, cfg, env, dna, reference, kind, reason);
    forall i | 0 <= i < |acct.trades| ensures b.trades[i] == acct.trades[i] {
      assert b.trades[..|acct.trades|][i] == acct.trades[i];
    }
  }

  // ---------------------------------------------------------------- managing

  ghost predicate SameStanding(a: Agent, b: Agent) {
    b == a.(balance := b.balance, fundingPaid := b.fundingPaid)
  }

  lemma {:induction false} ChargeKeepsRest(h: Holding, due: seq<Rate>, mark: real)
    ensures var c := Charge(h, due, mark);
      && SameStanding(h.agent, c.agent)
      && c.position == h.position.(fundingAccrued := c.position.fundingAccrued, payments := c.position.payments,
                                   lastFunding := c.position.lastFunding)
  {
    if due != [] {
      ChargeKeepsRest(h, due[..|due| - 1], mark);
    }
  }

  lemma MarkKeeps(acct: Account, cfg: Config, env: Env, dna: Option<Dna>)
    requires acct.position.Some?
    ensures var b := Mark(acct, cfg, env, dna);
      && Keeps(acct, b)
      && (b.position.Some? ==>
            b.position.value.lastProcessed == acct.position.value.lastProcessed && b.trades == acct.trades)
  {
    hide ClosePosition, Equity, BankruptcyLevel, DrawdownAfter, MilestoneAfter;
    CloseShape(acct, cfg, env, dna, env.bar.close, LiquidationOrder, Liquidation);
    CloseKeeps(acct, cfg, env, dna, env.bar.close, LiquidationOrder, Liquidation);
  }

  lemma ProtectKeeps(acct: Account, cfg: Config, env: Env, dna: Option<Dna>)
    requires acct.position.Some? && !Processed(acct.position.value, env.K())
    ensures var b := Protect(acct, cfg, env, dna);
      Keeps(acct, b) && (b.position.Some? ==> Processed(b.position.value, env.K()) && b.trades == acct.trades)
  {
    hide ClosePosition, EvaluateBar, LiquidationPrice, Mark, AdvanceExtremes;
    var p := acct.position.value;
    var levels := LevelsOf(p, acct.agent.balance, cfg, dna);
    var held := acct.(position := Some(Evaluated(p, env.K())));
    assert Keeps(acct, held);
    var trigger := EvaluateBar(levels, env.bar, cfg.sameBarExtreme);
    if trigger.Some? {
      CloseShape(held, cfg, env, dna, trigger.value.reference, trigger.value.kind, trigger.value.reason);
      CloseKeeps(held, cfg, env, dna, trigger.value.reference, trigger.value.kind, trigger.value.reason);
      KeepsTransitive(acct, held, Protect(acct, cfg, env, dna));
    } else {
      var survived := held.(position := Some(Survived(Evaluated(p, env.K()), levels, env.bar)));
      assert Keeps(acct, survived);
      MarkKeeps(survived, cfg, env, dna);
      KeepsTransitive(acct, survived, Protect(acct, cfg, env, dna));
    }
  }

  /** Managing a bar evaluates the position on it once; a bar already processed is left alone. */
  lemma ManageKeeps(acct: Account, cfg: Config, env: Env, dna: Option<Dna>)
    requires acct.position.Some?
    ensures var b := Manage(acct, cfg, env, dna);
      Keeps(acct, b) && (b.position.Some? ==> Processed(b.position.value, env.K()) && b.trades == acct.trades)
  {
    hide Protect, Charge, Due;
    var p := acct.position.value;
    if !Processed(p, env.K()) {
      ChargeKeepsRest(Holding(acct.agent, p), Due(env.rates, p.lastFunding, env.CloseMs()), env.bar.close);
      assert Keeps(acct, Accrue(acct, env));
      ProtectKeeps(Accrue(acct, env), cfg, env, dna);
      KeepsTransitive(acct, Accrue(acct, env), Manage(acct, cfg, env, dna));
    }
  }

  // ---------------------------------------------------------------- the agent's step

  lemma FillKeeps(acct: Account, cfg: Config, env: Env, dna: Dna, i: nat, reference: real, immediate: bool)
    requires i < |acct.orders| && acct.position.None?
    ensures var b := FillEntry(acct, cfg, env, dna, i, reference, immediate);
      Keeps(acct, b) && (b.position.Some? && immediate ==> Processed(b.position.value, env.K()))
  {
    hide ApproveAgainstMargin, BankruptcyLevel, DrawdownAfter, MilestoneAfter;
  }

  lemma OpenKeeps(acct: Account, cfg: Config, env: Env, dna: Dna)
    ensures Keeps(acct, AtTheOpen(acct, cfg, env, dna))
  {
    hide ClosePosition, FillEntry;
    var rolled := acct.(agent := RollDay(acct.agent, env));
    if acct.position.Some? {
      var taken := rolled.(position := Some(acct.position.value.(pendingExit := None)));
      CloseKeeps(taken, cfg, env, Some(dna), env.bar.open, MarketOrder, SignalExit);
    } else {
      PendingIndexBound(acct.orders);
      var i := PendingIndex(acct.orders);
      if i.Some? {
        FillKeeps(rolled, cfg, env, dna, i.value, env.bar.open, false);
      }
    }
  }

  lemma SignalKeeps(acct: Account, cfg: Config, env: Env, dna: Dna)
    ensures acct.position.Some? ==> var b := HoldOrExit(acct, cfg, env, dna);
      Keeps(acct, b) && (b.position.Some? ==> b.position.value.lastProcessed == acct.position.value.lastProcessed)
    ensures acct.position.None? ==> var b := PlaceEntry(acct, cfg, env, dna);
      Keeps(acct, b) && (b.position.Some? ==> Processed(b.position.value, env.K()))
  {
    hide ClosePosition, FillEntry, ApproveAgainstMargin;
    if acct.position.Some? {
      var taken := acct.(position := Some(Signalled(acct.position.value, env.K())));
      CloseShape(taken, cfg, env, Some(dna), env.bar.close, MarketOrder, SignalExit);
      CloseKeeps(taken, cfg, env, Some(dna), env.bar.close, MarketOrder, SignalExit);
    } else {
      var verdict := env.risk(env.signal(None).side, acct.agent);
      var notional := ApprovedNotional(acct.agent, cfg, env, verdict);
      if verdict.Approved? {
        var order := Order(env.K(), env.signal(None).side, notional, verdict.leverage, env.intent, Pending);
        var placed := Decided(acct, env).(orders := acct.orders + [order]);
        FillKeeps(placed, cfg, env, dna, |acct.orders|, env.bar.close, true);
      }
    }
  }

  lemma ProcessKeeps(acct: Account, cfg: Config, env: Env, dna: Dna)
    ensures var b := ProcessAgent(acct, cfg, env, dna);
      Keeps(acct, b) && (b.position.Some? ==> Processed(b.position.value, env.K()))
  {
    hide AtTheOpen, Manage, HoldOrExit, PlaceEntry, ClosePosition, StillHeld;
    var entered := AtTheOpen(acct, cfg, env, dna);
    OpenKeeps(acct, cfg, env, dna);
    var after := ManageAndSignal(entered, cfg, env, dna);
    if entered.position.None? {
      SignalKeeps(entered, cfg, env, dna);
    } else {
      ManageKeeps(entered, cfg, env, Some(dna));
      var managed := Manage(entered, cfg, env, Some(dna));
      if managed.position.Some? {
        SignalKeeps(managed, cfg, env, dna);
        CloseShape(managed, cfg, env, Some(dna), env.bar.close, LiquidationOrder, AgentDeath);
        CloseKeeps(managed, cfg, env, Some(dna), env.bar.close, LiquidationOrder, AgentDeath);
      }
      KeepsTransitive(entered, managed, after);
    }
    KeepsTransitive(acct, entered, after);
  }

  // ---------------------------------------------------------------- passes and runs

  /** The protective pass for one position; off the live venue an orphan is closed or one attempt nearer the limit. */
  lemma ProtectOneKeeps(acct: Account, cfg: Config, env: Env, dna: Option<Dna>)
    requires acct.position.Some?
    ensures var b := ProtectOne(acct, cfg, env, dna);
      && Keeps(acct, b) && (b.position.Some? ==> Processed(b.position.value, env.K()))
      && (b.position.Some? && !acct.agent.status.Active? && !env.live ==>
            acct.position.value.exitAttempts < b.position.value.exitAttempts < cfg.forceSettleAfter)
  {
    hide Manage, ClosePosition;
    ManageKeeps(acct, cfg, env, dna);
    var managed := Manage(acct, cfg, env, dna);
    if managed.position.Some? && !managed.agent.status.Active? {
      var dead := managed.agent.status.Dead?;
      var kind := if dead then LiquidationOrder else MarketOrder;
      var reason := if dead then AgentDeath else OrphanResolution;
      CloseShape(managed, cfg, env, dna, env.bar.close, kind, reason);
      CloseKeeps(managed, cfg, env, dna, env.bar.close, kind, reason);
      KeepsTransitive(acct, managed, ProtectOne(acct, cfg, env, dna));
    }
  }

  /** A pass without failures leaves no open position unprocessed. */
  lemma SweepKeeps(acct: Account, cfg: Config, env: Env, dna: Option<Dna>, faults: Faults)
    ensures var b := Sweep(acct, cfg, env, dna, faults);
      Keeps(acct, b) && (b.position.Some? && !faults.protect ==> Processed(b.position.value, env.K()))
  {
    hide ProtectOne;
    if acct.position.Some? {
      ProtectOneKeeps(acct, cfg, env, dna);
    }
  }

  lemma RolloverKeeps(acct: Account, mark: real, feeRate: real, at: int)
    ensures var b := Rollover(acct, mark, feeRate, at); Keeps(acct, b) && b.position.None?
  {
    hide ComputeTradePnL, SettleClose, RolloverFee;
  }

  /** A bar's pass that commits without protective failures. */
  ghost predicate CompletePass(e: Event) { !e.EndOfGeneration? && !e.faults.protect && !e.faults.commit }

  lemma DecideKeeps(acct: Account, cfg: Config, env: Env, dna: Option<Dna>, cycled: bool, faults: Faults)
    ensures Keeps(acct, Decide(acct, cfg, env, dna, cycled, faults))
  {
    hide ProcessAgent;
    if dna.Some? {
      ProcessKeeps(acct, cfg, env, dna.value);
    }
  }

  lemma CycleKeeps(acct: Account, cfg: Config, env: Env, dna: Option<Dna>, cycled: bool, faults: Faults)
    ensures var b := Cycle(acct, cfg, env, dna, cycled, faults);
      Keeps(acct, b) && (b.position.Some? && !faults.protect && !faults.commit ==> Processed(b.position.value, env.K()))
  {
    hide Decide, Sweep, Keeps;
    var decided := Decide(acct, cfg, env, dna, cycled, faults);
    var swept := Sweep(decided, cfg, env, dna, faults);
    DecideKeeps(acct, cfg, env, dna, cycled, faults);
    SweepKeeps(decided, cfg, env, dna, faults);
    KeepsTransitive(acct, decided, swept);
    OrdersDoNotMatter(acct, acct, acct.orders);
    OrdersDoNotMatter(acct, swept, CancelStale(swept.orders, env.K() - env.intervalMs));
  }

  lemma OrdersDoNotMatter(a: Account, b: Account, orders: seq<Order>)
    ensures Keeps(a, a)
    ensures Keeps(a, b) ==> Keeps(a, b.(orders := orders))
  {}

  lemma StepKeeps(acct: Account, cfg: Config, e: Event)
    ensures var b := Step(acct, cfg, e);
      Keeps(acct, b) && (CompletePass(e) && b.position.Some? ==> Processed(b.position.value, e.env.K()))
  {
    hide Cycle, Sweep, Rollover, Keeps;
    match e
    case Candle(env, dna, cycled, faults) =>
      CycleKeeps(acct, cfg, env, dna, cycled, faults);
    case ProtectBar(env, dna, faults) =>
      SweepKeeps(acct, cfg, env, dna, faults);
      OrdersDoNotMatter(acct, acct, acct.orders);
    case EndOfGeneration(mark, feeRate, at) =>
      RolloverKeeps(acct, mark, feeRate, at);
  }

  /** Under any interleaving of cycles, retries, rolled-back steps, protective passes and rollovers over bars in any
      order, no position is evaluated twice on one bar and its last processed bar never decreases. */
  lemma {:induction false} RunsEvaluateEachBarOnce(acct: Account, cfg: Config, events: seq<Event>)
    requires Protected(acct)
    ensures Protected(Run(acct, cfg, events)) && Forward(acct, Run(acct, cfg, events))
  {
    hide Step, Protected;
    if events != [] {
      var init, last := events[..|events| - 1], events[|events| - 1];
      RunsEvaluateEachBarOnce(acct, cfg, init);
      StepKeeps(Run(acct, cfg, init), cfg, last);
      KeepsTransitive(acct, Run(acct, cfg, init), Run(acct, cfg, events));
    }
  }

  /** A step that fails is rolled back: a failed agent step leaves the account to the protective pass, a failed
      protective step leaves what the agent's step did, and a cycle that does not commit changes nothing. */
  lemma FailedStepsAreRolledBack(acct: Account, cfg: Config, env: Env, dna: Option<Dna>, cycled: bool, faults: Faults)
    ensures faults.process && dna.Some? ==> Decide(acct, cfg, env, dna, cycled, faults) == acct
    ensures faults.protect ==> Sweep(acct, cfg, env, dna, faults) == acct
    ensures faults.commit ==>
      Cycle(acct, cfg, env, dna, cycled, faults) == ProtectivePass(acct, cfg, env, dna, faults) == acct
  {
    hide ProcessAgent, ProtectOne;
  }
}
