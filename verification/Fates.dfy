/** What becomes of an entry order: a cycle fills it, fails it, cancels it or leaves it, and exactly when. */
module Fates {
  import opened Market
  import opened Accounting
  import opened PaperLoop
  import opened Discipline

  /** What the engine is asked to fill for order `o` at this reference price. */
  function Request(o: Order, balance: real, reference: real): EntryRequest {
    var notional := ApproveAgainstMargin(o.notional, o.leverage, Max(0.0, balance));
    EntryRequest(o.side, if reference > 0.0 then notional / reference else 0.0, reference)
  }

  predicate Fills(acct: Account, env: Env, i: nat)
    requires i < |acct.orders|
  {
    env.fillEntry(Request(acct.orders[i], acct.agent.balance, env.bar.open)).EntryFilled?
  }

  /** The order was signalled on the bar before, and nothing halts entries. */
  predicate Executes(acct: Account, env: Env, i: nat)
    requires i < |acct.orders|
  {
    acct.orders[i].signalTime == env.K() - env.intervalMs && !env.halted && acct.agent.status.Active?
  }

  lemma EntryFate(acct: Account, cfg: Config, env: Env, dna: Dna, i: nat)
    requires i < |acct.orders| && acct.orders[i].status.Pending?
    ensures var b := ExecutePendingEntry(acct, cfg, env, dna, i);
      && |b.orders| == |acct.orders| && (forall j :: 0 <= j < |b.orders| && j != i ==> b.orders[j] == acct.orders[j])
      && b.orders[i].(status := Pending) == acct.orders[i] && !b.orders[i].status.Pending?
      && (b.orders[i].status == Filled(env.K()) <==> Executes(acct, env, i) && Fills(acct, env, i))
      && (b.orders[i].status == Failed(env.K()) <==> Executes(acct, env, i) && !Fills(acct, env, i))
      && (b.orders[i].status == Cancelled <==> !Executes(acct, env, i))
  {}

  /** The cycle reaches the agent's decision step and the step succeeds. */
  predicate Processes(acct: Account, env: Env, dna: Option<Dna>, cycled: bool, faults: Faults) {
    cycled && acct.agent.status.Active? && env.K() !in acct.decided && dna.Some? && !faults.process
  }

  /** The one pending order is the one the loop finds. */
  lemma FindsThePending(orders: seq<Order>, timing: Timing, i: nat)
    requires OrdersOk(orders, timing) && i < |orders| && orders[i].status.Pending?
    ensures PendingIndex(orders) == Some(i)
  {
    PendingIndexBound(orders);
  }

  /** At the open of the bar the order's fate is sealed, and nothing later in the step undoes it. */
  lemma ProcessingFate(acct: Account, cfg: Config, env: Env, dna: Dna, timing: Timing, i: nat)
    requires Disciplined(acct, timing) && Admissible(env, timing) && acct.position.None?
    requires i < |acct.orders| && acct.orders[i].status.Pending?
    ensures var b, o := ProcessAgent(acct, cfg, env, dna), ExecutePendingEntry(acct, cfg, env, dna, i).orders[i];
      i < |b.orders| && b.orders[i] == o && !o.status.Pending?
  {
    hide ExecutePendingEntry, ManageAndSignal;
    var rolled := acct.(agent := RollDay(acct.agent, env));
    var entered := AtTheOpen(acct, cfg, env, dna);
    FindsThePending(acct.orders, timing, i);
    RollingKeepsTheFate(acct, rolled.agent, cfg, env, dna, i);
    EntryFate(rolled, cfg, env, dna, i);
    NextOpenKeeps(rolled, cfg, env, dna, timing);
    ManageAndSignalKeeps(entered, cfg, env, dna, timing);
  }

  lemma RollingKeepsTheFate(acct: Account, rolled: Agent, cfg: Config, env: Env, dna: Dna, i: nat)
    requires i < |acct.orders| && rolled.balance == acct.agent.balance && rolled.status == acct.agent.status
    ensures ExecutePendingEntry(acct.(agent := rolled), cfg, env, dna, i).orders
         == ExecutePendingEntry(acct, cfg, env, dna, i).orders
  {}

  /** One committed cycle over a flat account with a pending entry: it fills or fails on this bar exactly when the agent
      is processed, the bar is the one after the signal, entries are not halted, and the engine fills or refuses it; it
      is cancelled exactly when the agent is processed on another bar or under a halt, or when it was left aside and
      has missed its bar; and otherwise it waits. */
  lemma CycleFate(acct: Account, cfg: Config, env: Env, dna: Option<Dna>, cycled: bool, faults: Faults, timing: Timing,
                  i: nat)
    requires Disciplined(acct, timing) && Admissible(env, timing) && acct.position.None? && !faults.commit
    requires i < |acct.orders| && acct.orders[i].status.Pending?
    ensures var b, processed := Cycle(acct, cfg, env, dna, cycled, faults), Processes(acct, env, dna, cycled, faults);
      && i < |b.orders| && b.orders[i].(status := Pending) == acct.orders[i]
      && (b.orders[i].status == Filled(env.K()) <==> processed && Executes(acct, env, i) && Fills(acct, env, i))
      && (b.orders[i].status == Failed(env.K()) <==> processed && Executes(acct, env, i) && !Fills(acct, env, i))
      && (b.orders[i].status == Cancelled <==>
            if processed then !Executes(acct, env, i) else acct.orders[i].signalTime < env.K() - env.intervalMs)
      && (b.orders[i].status == Pending <==> !processed && acct.orders[i].signalTime >= env.K() - env.intervalMs)
  {
    hide ProcessAgent, ExecutePendingEntry, ProtectOne;
    var decided := Decide(acct, cfg, env, dna, cycled, faults);
    if Processes(acct, env, dna, cycled, faults) {
      ProcessingFate(acct, cfg, env, dna.value, timing, i);
      EntryFate(acct, cfg, env, dna.value, i);
      DecideKeeps(acct, cfg, env, dna, cycled, faults, timing);
      SweepKeeps(decided, cfg, env, dna, faults, timing);
    }
  }

  /** An agent without a DNA decides nothing: flat it is paused, and a position it holds is only protected. */
  lemma WithoutDnaOnlyProtects(acct: Account, cfg: Config, env: Env, faults: Faults)
    requires acct.agent.status.Active? && env.K() !in acct.decided && !faults.commit
    ensures var b, p := Cycle(acct, cfg, env, None, true, faults), ProtectivePass(acct, cfg, env, None, faults);
      if acct.position.None? then b == acct.(agent := acct.agent.(status := Paused), orders := b.orders)
      else b == p.(orders := b.orders)
  {
    hide Sweep;
    assert acct.position.None? ==>
      Sweep(acct.(agent := acct.agent.(status := Paused)), cfg, env, None, faults)
      == acct.(agent := acct.agent.(status := Paused)) by {
      FlatIsNotSwept(acct.(agent := acct.agent.(status := Paused)), cfg, env, faults);
    }
  }

  lemma FlatIsNotSwept(acct: Account, cfg: Config, env: Env, faults: Faults)
    ensures acct.position.None? ==> Sweep(acct, cfg, env, None, faults) == acct
  {}

  // ---------------------------------------------------------------- which signals become orders

  /** What stands between an entry signal and its order. */
  ghost predicate Passes(acct: Account, cfg: Config, env: Env, dna: Dna) {
    var signal, a := env.signal(None), acct.agent;
    && signal.matchedEntry
    && (a.cooldownUntil.Some? ==> a.cooldownUntil.value <= env.K())
    && a.dailyTradeCount < dna.maxTradesPerDay
    && (var verdict := env.risk(signal.side, a);
        && verdict.Approved?
        && (var granted := ApproveAgainstMargin(verdict.notional, verdict.leverage, Max(0.0, a.balance));
            granted > 0.0 && (env.paper ==> !cfg.belowMinimum(granted, env.bar.close))))
  }

  /** The daily cap stops the signal, and it has been audited before. */
  ghost predicate CappedBefore(acct: Account, env: Env, dna: Dna) {
    && (acct.agent.cooldownUntil.Some? ==> acct.agent.cooldownUntil.value <= env.K())
    && acct.agent.dailyTradeCount >= dna.maxTradesPerDay && env.capAudited
  }

  /** A signal becomes an order exactly when it passes: past the cooldown, below the cap, granted by the risk checks,
      carried by the margin and, on the paper venue, not below the exchange minimum. Nothing else of the account changes
      for it before its fill, and an entry signal that does not pass leaves a decision row, but for a cap audited
      before. */
  lemma OrderedExactlyWhen(acct: Account, cfg: Config, env: Env, dna: Dna)
    ensures var b := PlaceEntry(acct, cfg, env, dna);
      && (|b.orders| == |acct.orders| + 1 <==> Passes(acct, cfg, env, dna))
      && (!Passes(acct, cfg, env, dna) ==>
            b == if env.signal(None).matchedEntry && !CappedBefore(acct, env, dna) then Decided(acct, env) else acct)
      && (Passes(acct, cfg, env, dna) ==>
            var o := b.orders[|acct.orders|];
            && b.orders[..|acct.orders|] == acct.orders
            && o.signalTime == env.K() && o.side == env.signal(None).side
            && (env.nextOpen ==> o.status.Pending? && b == Decided(acct, env).(orders := acct.orders + [o]))
            && (!env.nextOpen ==> o.status == Filled(env.K()) || o.status == Failed(env.K())))
  {
    hide ApproveAgainstMargin, AfterEntry, Opened;
  }
}
