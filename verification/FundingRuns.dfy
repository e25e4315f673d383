/** Over whole runs, in either fill timing: every published settlement of a position's life is charged exactly once. */
module FundingRuns {
  import opened Market
  import opened PnlEngine
  import opened PositionManager
  import opened Accounting
  import opened PaperLoop
  import opened Discipline
  import opened Funding
  import opened Protection

  /** The end of the last bar the position was managed on; before that, the funding time it was opened with. */
  function ChargedUpTo(p: Position, interval: int): int {
    if p.lastProcessed.Some? && p.lastProcessed.value + interval - 1 >= p.fundingFrom
    then p.lastProcessed.value + interval - 1 else p.fundingFrom
  }

  /** Of the published settlements `all`, those after the position's opening up to the end of the last managed bar have
      exactly one row each, and there is no other row. */
  ghost predicate Funded(p: Position, all: seq<Rate>, interval: int) { FullyCharged(p, all, ChargedUpTo(p, interval)) }

  ghost predicate FundedAccount(acct: Account, all: seq<Rate>, interval: int) {
    && (acct.position.Some? ==> Funded(acct.position.value, all, interval))
    && (forall i :: 0 <= i < |acct.trades| ==> Funded(acct.trades[i].position, all, interval))
  }

  /** The position was filled at the open of a bar and managed on no other bar. */
  ghost predicate OnlyOnFillBar(p: Position) { p.lastProcessed == Some(p.entryBar) && p.fundingFrom == p.entryBar - 1 }

  ghost predicate Uncharged(p: Position) { p.payments == [] && p.lastFunding == p.fundingFrom }

  /** What the load of a bar brings for an entry that fills on it: everything due, or everything or nothing, or nothing,
      as when the account is alone. */
  datatype FillLoad = Everything | AllOrNothing | Nothing

  ghost predicate Charged(p: Position, all: seq<Rate>, interval: int, load: FillLoad) {
    match load
    case Everything => Funded(p, all, interval)
    case AllOrNothing => Funded(p, all, interval) || (OnlyOnFillBar(p) && Uncharged(p))
    case Nothing => if OnlyOnFillBar(p) then Uncharged(p) else Funded(p, all, interval)
  }

  /** Managed since its opening. */
  ghost predicate Seen(p: Position) { p.lastProcessed.Some? && p.lastProcessed.value >= p.entryBar }

  ghost predicate ChargedTrades(trades: seq<Trade>, all: seq<Rate>, interval: int, load: FillLoad) {
    forall i :: 0 <= i < |trades| ==> Charged(trades[i].position, all, interval, load)
  }

  ghost predicate ChargedAccount(acct: Account, all: seq<Rate>, interval: int, load: FillLoad) {
    && (acct.position.Some? ==> Charged(acct.position.value, all, interval, load))
    && ChargedTrades(acct.trades, all, interval, load)
  }

  ghost predicate AtRest(acct: Account, all: seq<Rate>, interval: int, load: FillLoad) {
    ChargedAccount(acct, all, interval, load) && (acct.position.Some? ==> Seen(acct.position.value))
  }

  /** What was loaded for this bar covers what a position last charged at `last` owes. */
  ghost predicate CoversSince(env: Env, all: seq<Rate>, last: int) {
    Due(env.rates, last, env.CloseMs()) == Due(all, last, env.CloseMs())
  }

  ghost predicate CoversFill(env: Env, all: seq<Rate>, load: FillLoad) {
    match load
    case Everything => CoversSince(env, all, env.K() - 1)
    case AllOrNothing => CoversSince(env, all, env.K() - 1) || Due(env.rates, env.K() - 1, env.CloseMs()) == []
    case Nothing => Due(env.rates, env.K() - 1, env.CloseMs()) == []
  }

  /** What was loaded for this bar covers the position it may manage: one held, or one that a pending entry opens. */
  ghost predicate Covers(env: Env, acct: Account, all: seq<Rate>, load: FillLoad) {
    && (acct.position.Some? ==> CoversSince(env, all, acct.position.value.lastFunding))
    && (acct.position.None? && PendingIndex(acct.orders).Some? ==> CoversFill(env, all, load))
  }

  /** Every pass of the run covers the account as it is then. */
  ghost predicate CoversAll(acct: Account, cfg: Config, events: seq<Event>, all: seq<Rate>, load: FillLoad) {
    forall k :: 0 <= k < |events| && !events[k].EndOfGeneration? ==>
      Covers(events[k].env, Run(acct, cfg, events[..k]), all, load)
  }

  ghost predicate OneInterval(events: seq<Event>, interval: int) {
    interval > 0 && forall k :: 0 <= k < |events| && !events[k].EndOfGeneration? ==>
      events[k].env.intervalMs == interval
  }

  // ---------------------------------------------------------------- one bar

  lemma CloseCharged(acct: Account, cfg: Config, env: Env, dna: Option<Dna>, reference: real, kind: OrderKind,
                     reason: Reason, all: seq<Rate>, interval: int, load: FillLoad)
    requires acct.position.Some? && ChargedAccount(acct, all, interval, load)
    ensures var b := ClosePosition(acct, cfg, env, dna, reference, kind, reason);
      && ChargedAccount(b, all, interval, load)
      && (b.position.Some? ==> b.position.value == Tried(acct.position.value))
  {
    hide ClosePosition, Due;
    CloseShape(acct, cfg, env, dna, reference, kind, reason);
    assert Charged(Tried(acct.position.value), all, interval, load);
    var b := ClosePosition(acct, cfg, env, dna, reference, kind, reason);
    forall i | 0 <= i < |b.trades| ensures Charged(b.trades[i].position, all, interval, load) {
      assert i < |acct.trades| ==> b.trades[..|acct.trades|][i] == acct.trades[i];
    }
  }

  /** Accrual on a bar later than the last processed one, in any order with respect to the entry bar. */
  lemma AccrueFunded(acct: Account, env: Env, all: seq<Rate>)
    requires acct.position.Some? && AscendingRates(all) && env.intervalMs > 0
    requires Funded(acct.position.value, all, env.intervalMs) && !Processed(acct.position.value, env.K())
    requires CoversSince(env, all, acct.position.value.lastFunding)
    ensures var q := Accrue(acct, env).position.value; Funded(Evaluated(q, env.K()), all, env.intervalMs)
  {
    hide Due, Charge;
    var p := acct.position.value;
    var upTo := ChargedUpTo(p, env.intervalMs);
    Protection.ChargeKeepsRest(Holding(acct.agent, p), Due(env.rates, p.lastFunding, env.CloseMs()), env.bar.close);
    var q := Accrue(acct, env).position.value;
    if upTo <= env.CloseMs() {
      AccrualChargesExactlyOnce(acct, env, all, upTo);
      assert FullyCharged(Evaluated(q, env.K()), all, env.CloseMs());
    } else {
      NothingDue(all, p.lastFunding, env.CloseMs());
      NothingCharged(acct, env);
      assert FullyCharged(Evaluated(p, env.K()), all, upTo);
    }
  }

  lemma NothingCharged(acct: Account, env: Env)
    requires acct.position.Some? && Due(env.rates, acct.position.value.lastFunding, env.CloseMs()) == []
    ensures Accrue(acct, env).position == acct.position
  {}

  /** The first bar after a fill bar that charged nothing catches up, at its own close. */
  lemma AccrueCatchesUp(acct: Account, env: Env, all: seq<Rate>)
    requires acct.position.Some? && AscendingRates(all) && env.intervalMs > 0
    requires OnlyOnFillBar(acct.position.value) && Uncharged(acct.position.value)
    requires !Processed(acct.position.value, env.K()) && CoversSince(env, all, acct.position.value.lastFunding)
    ensures var q := Accrue(acct, env).position.value; Funded(Evaluated(q, env.K()), all, env.intervalMs)
  {
    hide Due, Charge;
    var p := acct.position.value;
    NothingDue(all, p.fundingFrom, p.fundingFrom);
    AccrualChargesExactlyOnce(acct, env, all, p.fundingFrom);
    Protection.ChargeKeepsRest(Holding(acct.agent, p), Due(env.rates, p.lastFunding, env.CloseMs()), env.bar.close);
    assert FullyCharged(Evaluated(Accrue(acct, env).position.value, env.K()), all, env.CloseMs());
  }

  /** Filled at the open of this very bar. */
  ghost predicate Fresh(p: Position, env: Env) {
    p.lastProcessed.None? && p.entryBar == env.K() && p.fundingFrom == env.K() - 1 && Uncharged(p)
  }

  /** The load covers the position about to be managed: held over from an earlier bar, or filled on this one. */
  ghost predicate CoversNow(p: Position, env: Env, all: seq<Rate>, load: FillLoad) {
    (Seen(p) && CoversSince(env, all, p.lastFunding)) || (Fresh(p, env) && CoversFill(env, all, load))
  }

  lemma AccrueCharged(acct: Account, env: Env, all: seq<Rate>, load: FillLoad)
    requires acct.position.Some? && AscendingRates(all) && env.intervalMs > 0
    requires Charged(acct.position.value, all, env.intervalMs, load) && !Processed(acct.position.value, env.K())
    requires CoversNow(acct.position.value, env, all, load)
    ensures var q := Evaluated(Accrue(acct, env).position.value, env.K());
      Charged(q, all, env.intervalMs, load) && Seen(q)
  {
    hide Due, Charge, Funded;
    var p := acct.position.value;
    Protection.ChargeKeepsRest(Holding(acct.agent, p), Due(env.rates, p.lastFunding, env.CloseMs()), env.bar.close);
    if CoversSince(env, all, p.lastFunding) && Funded(p, all, env.intervalMs) {
      AccrueFunded(acct, env, all);
    }
    if Seen(p) && OnlyOnFillBar(p) && Uncharged(p) {
      AccrueCatchesUp(acct, env, all);
    }
    if Due(env.rates, p.lastFunding, env.CloseMs()) == [] {
      NothingCharged(acct, env);
    }
  }

  lemma ProtectCharged(acct: Account, cfg: Config, env: Env, dna: Option<Dna>, all: seq<Rate>, load: FillLoad)
    requires acct.position.Some? && ChargedTrades(acct.trades, all, env.intervalMs, load)
    requires var q := Evaluated(acct.position.value, env.K()); Charged(q, all, env.intervalMs, load) && Seen(q)
    ensures AtRest(Protect(acct, cfg, env, dna), all, env.intervalMs, load)
  {
    hide ClosePosition, EvaluateBar, LiquidationPrice, Liquidatable, SetEquity, AdvanceExtremes, Due;
    var p := acct.position.value;
    var levels := LevelsOf(p, acct.agent.balance, cfg, dna);
    var held := acct.(position := Some(Evaluated(p, env.K())));
    var trigger := EvaluateBar(levels, env.bar, cfg.sameBarExtreme);
    if trigger.Some? {
      CloseCharged(held, cfg, env, dna, trigger.value.reference, trigger.value.kind, trigger.value.reason, all,
                   env.intervalMs, load);
    } else {
      var q := Survived(Evaluated(p, env.K()), levels, env.bar);
      assert Charged(q, all, env.intervalMs, load);
      CloseCharged(held.(position := Some(q)), cfg, env, dna, env.bar.close, LiquidationOrder, Liquidation, all,
                   env.intervalMs, load);
    }
  }

  lemma ManageCharged(acct: Account, cfg: Config, env: Env, dna: Option<Dna>, all: seq<Rate>, load: FillLoad)
    requires acct.position.Some? && AscendingRates(all) && env.intervalMs > 0
    requires ChargedAccount(acct, all, env.intervalMs, load) && CoversNow(acct.position.value, env, all, load)
    ensures AtRest(Manage(acct, cfg, env, dna), all, env.intervalMs, load)
  {
    hide Protect, Charged, Due, Charge, CoversSince, CoversFill;
    if !Processed(acct.position.value, env.K()) {
      AccrueCharged(acct, env, all, load);
      ProtectCharged(Accrue(acct, env), cfg, env, dna, all, load);
    }
  }

  /** A fresh position owes nothing yet. */
  lemma OpenedCharged(o: Order, env: Env, dna: Dna, price: real, quantity: Positive, fee: real, immediate: bool,
                      all: seq<Rate>, load: FillLoad)
    requires env.intervalMs > 0
    ensures var p := Opened(o, env, dna, price, quantity, fee, immediate);
      Charged(p, all, env.intervalMs, load) && if immediate then Seen(p) else Fresh(p, env)
  {
    var p := Opened(o, env, dna, price, quantity, fee, immediate);
    NothingDue(all, p.fundingFrom, p.fundingFrom);
  }

  lemma FillCharged(acct: Account, cfg: Config, env: Env, dna: Dna, i: nat, reference: real, immediate: bool,
                    all: seq<Rate>, load: FillLoad)
    requires i < |acct.orders| && acct.position.None? && ChargedAccount(acct, all, env.intervalMs, load)
    requires env.intervalMs > 0
    ensures var b := FillEntry(acct, cfg, env, dna, i, reference, immediate);
      && ChargedAccount(b, all, env.intervalMs, load)
      && (b.position.Some? ==> if immediate then Seen(b.position.value) else Fresh(b.position.value, env))
  {
    hide AfterEntry, ApproveAgainstMargin, Charged, Opened;
    var o := acct.orders[i];
    var notional := ApproveAgainstMargin(o.notional, o.leverage, Max(0.0, acct.agent.balance));
    var quantity := if reference > 0.0 then notional / reference else 0.0;
    match env.fillEntry(EntryRequest(o.side, quantity, reference))
    case EntryRefused =>
    case EntryFilled(price, filled, fee) =>
      OpenedCharged(o, env, dna, price, filled, fee, immediate, all, load);
  }

  /** After the open: what is held is what was held, or filled right here. */
  lemma OpenCharged(acct: Account, cfg: Config, env: Env, dna: Dna, all: seq<Rate>, load: FillLoad)
    requires env.intervalMs > 0 && AtRest(acct, all, env.intervalMs, load) && Covers(env, acct, all, load)
    ensures var b := AtTheOpen(acct, cfg, env, dna);
      && ChargedAccount(b, all, env.intervalMs, load)
      && (b.position.Some? ==> CoversNow(b.position.value, env, all, load))
  {
    hide ClosePosition, FillEntry, Due, CoversSince, CoversFill, Funded;
    var rolled := acct.(agent := RollDay(acct.agent, env));
    if acct.position.Some? {
      var taken := rolled.(position := Some(acct.position.value.(pendingExit := None)));
      SignalsDoNotMatter(acct.position.value, all, env.intervalMs, load);
      CloseCharged(taken, cfg, env, Some(dna), env.bar.open, MarketOrder, SignalExit, all, env.intervalMs, load);
    } else {
      PendingIndexBound(acct.orders);
      var i := PendingIndex(acct.orders);
      if i.Some? {
        FillCharged(rolled, cfg, env, dna, i.value, env.bar.open, false, all, load);
      }
    }
  }

  lemma SignalsDoNotMatter(p: Position, all: seq<Rate>, interval: int, load: FillLoad)
    requires Charged(p, all, interval, load)
    ensures Charged(p.(pendingExit := None), all, interval, load)
    ensures forall k :: Charged(Signalled(p, k), all, interval, load)
    ensures forall k :: Charged(Signalled(p, k).(pendingExit := Some(k)), all, interval, load)
  {
    hide Due;
  }

  lemma SignalCharged(acct: Account, cfg: Config, env: Env, dna: Dna, all: seq<Rate>, load: FillLoad)
    requires env.intervalMs > 0 && AtRest(acct, all, env.intervalMs, load)
    ensures acct.position.Some? ==> AtRest(HoldOrExit(acct, cfg, env, dna), all, env.intervalMs, load)
    ensures acct.position.None? ==> AtRest(PlaceEntry(acct, cfg, env, dna), all, env.intervalMs, load)
  {
    hide ClosePosition, FillEntry, ApproveAgainstMargin, Due, Funded, Charged;
    if acct.position.Some? {
      var taken := acct.(position := Some(Signalled(acct.position.value, env.K())));
      SignalsDoNotMatter(acct.position.value, all, env.intervalMs, load);
      CloseCharged(taken, cfg, env, Some(dna), env.bar.close, MarketOrder, SignalExit, all, env.intervalMs, load);
    } else {
      var verdict := env.risk(env.signal(None).side, acct.agent);
      var notional := ApprovedNotional(acct.agent, cfg, env, verdict);
      if verdict.Approved? {
        var order := Order(env.K(), env.signal(None).side, notional, verdict.leverage, env.intent, Pending);
        var placed := Decided(acct, env).(orders := acct.orders + [order]);
        FillCharged(placed, cfg, env, dna, |acct.orders|, env.bar.close, true, all, load);
      }
    }
  }

  lemma ProcessCharged(acct: Account, cfg: Config, env: Env, dna: Dna, all: seq<Rate>, load: FillLoad)
    requires env.intervalMs > 0 && AscendingRates(all) && AtRest(acct, all, env.intervalMs, load)
    requires Covers(env, acct, all, load)
    ensures AtRest(ProcessAgent(acct, cfg, env, dna), all, env.intervalMs, load)
  {
    hide AtTheOpen, Manage, HoldOrExit, PlaceEntry, ClosePosition, StillHeld, Charged, Covers, CoversNow;
    OpenCharged(acct, cfg, env, dna, all, load);
    var entered := AtTheOpen(acct, cfg, env, dna);
    if entered.position.None? {
      SignalCharged(entered, cfg, env, dna, all, load);
    } else {
      ManageCharged(entered, cfg, env, Some(dna), all, load);
      var managed := Manage(entered, cfg, env, Some(dna));
      if managed.position.Some? {
        SignalCharged(managed, cfg, env, dna, all, load);
        CloseCharged(managed, cfg, env, Some(dna), env.bar.close, LiquidationOrder, AgentDeath, all, env.intervalMs,
                     load);
      }
    }
  }

  lemma SweepCharged(acct: Account, cfg: Config, env: Env, dna: Option<Dna>, faults: Faults, all: seq<Rate>,
                     load: FillLoad)
    requires env.intervalMs > 0 && AscendingRates(all) && AtRest(acct, all, env.intervalMs, load)
    requires acct.position.Some? && !Processed(acct.position.value, env.K()) ==>
      CoversSince(env, all, acct.position.value.lastFunding)
    ensures AtRest(Sweep(acct, cfg, env, dna, faults), all, env.intervalMs, load)
  {
    hide Manage, ClosePosition, Charged;
    if acct.position.Some? && !Processed(acct.position.value, env.K()) {
      ManageCharged(acct, cfg, env, dna, all, load);
      var managed := Manage(acct, cfg, env, dna);
      if managed.position.Some? {
        CloseCharged(managed, cfg, env, dna, env.bar.close, LiquidationOrder, AgentDeath, all, env.intervalMs, load);
        CloseCharged(managed, cfg, env, dna, env.bar.close, MarketOrder, OrphanResolution, all, env.intervalMs, load);
      }
    }
  }

  lemma StepCharged(acct: Account, cfg: Config, e: Event, all: seq<Rate>, interval: int, load: FillLoad)
    requires AscendingRates(all) && interval > 0 && AtRest(acct, all, interval, load)
    requires !e.EndOfGeneration? ==> e.env.intervalMs == interval && Covers(e.env, acct, all, load)
    ensures AtRest(Step(acct, cfg, e), all, interval, load)
  {
    hide ProcessAgent, Sweep, ComputeTradePnL, SettleClose, Charged;
    match e
    case Candle(env, dna, cycled, faults) =>
      if dna.Some? {
        ProcessCharged(acct, cfg, env, dna.value, all, load);
        Protection.ProcessKeeps(acct, cfg, env, dna.value);
      }
      SweepCharged(Decide(acct, cfg, env, dna, cycled, faults), cfg, env, dna, faults, all, load);
    case ProtectBar(env, dna, faults) =>
      SweepCharged(acct, cfg, env, dna, faults, all, load);
    case EndOfGeneration(mark, feeRate, at) =>
  }

  lemma {:induction false} RunsCharge(start: real, day: int, cfg: Config, events: seq<Event>, all: seq<Rate>,
                                      interval: int, load: FillLoad)
    requires OneInterval(events, interval) && AscendingRates(all)
    requires CoversAll(NewAccount(start, day), cfg, events, all, load)
    ensures AtRest(Run(NewAccount(start, day), cfg, events), all, interval, load)
  {
    hide Step, Covers, Charged;
    if events != [] {
      var n := |events| - 1;
      forall k | 0 <= k < n ensures events[..n][..k] == events[..k] {}
      RunsCharge(start, day, cfg, events[..n], all, interval, load);
      StepCharged(Run(NewAccount(start, day), cfg, events[..n]), cfg, events[n], all, interval, load);
    }
  }

  /** Under any interleaving of cycles, retries, failures, protective passes and rollovers, over bars in any order and
      in either fill timing: if what each pass loads covers what it may charge, every published settlement from a
      position's opening to the end of the last bar it was managed on is charged exactly once, open positions and
      closed trades alike. */
  lemma SettlementsChargedExactlyOnce(start: real, day: int, cfg: Config, events: seq<Event>, all: seq<Rate>,
                                      interval: int)
    requires OneInterval(events, interval) && AscendingRates(all)
    requires CoversAll(NewAccount(start, day), cfg, events, all, Everything)
    ensures FundedAccount(Run(NewAccount(start, day), cfg, events), all, interval)
  {
    hide Run, Funded;
    RunsCharge(start, day, cfg, events, all, interval, Everything);
  }

  // ---------------------------------------------------------------- with the loads of the code

  /** The pass loads its settlements as the code does, the held position being one of those it starts from. */
  ghost predicate LoadedFor(env: Env, acct: Account, all: seq<Rate>, lasts: seq<int>) {
    && env.rates == LoadFunding(all, lasts, env.CloseMs())
    && (acct.position.Some? ==> acct.position.value.lastFunding in lasts)
  }

  ghost predicate InBar(r: Rate, env: Env) { env.K() <= r.time <= env.CloseMs() }

  /** If a pending entry may fill on this bar, no settlement inside the bar escapes the load. */
  ghost predicate FillBarClear(env: Env, acct: Account, all: seq<Rate>, lasts: seq<int>) {
    acct.position.None? && PendingIndex(acct.orders).Some? ==>
      forall r :: r in all && InBar(r, env) ==> lasts != [] && Earliest(lasts) < r.time
  }

  /** If a pending entry may fill on this bar, the load does not split the settlements inside the bar. */
  ghost predicate FillBarWhole(env: Env, acct: Account, all: seq<Rate>, lasts: seq<int>) {
    acct.position.None? && PendingIndex(acct.orders).Some? ==>
      || (forall r :: r in all && InBar(r, env) ==> lasts != [] && Earliest(lasts) < r.time)
      || (forall r :: r in all && InBar(r, env) ==> lasts == [] || r.time <= Earliest(lasts))
  }

  /** A load covers its pass exactly when the bar of a possible fill is clear. */
  lemma LoadCoversExactlyWhen(env: Env, acct: Account, all: seq<Rate>, lasts: seq<int>)
    requires LoadedFor(env, acct, all, lasts)
    ensures Covers(env, acct, all, Everything) <==> FillBarClear(env, acct, all, lasts)
  {
    hide LoadFunding, Due;
    LoadedCoversExactlyWhen(all, lasts, env.K() - 1, env.CloseMs());
    if acct.position.Some? {
      OpenPositionsAreCovered(all, lasts, acct.position.value.lastFunding, env.CloseMs());
    }
  }

  /** It brings everything or nothing exactly when it does not split that bar's settlements. */
  lemma LoadIsWholeExactlyWhen(env: Env, acct: Account, all: seq<Rate>, lasts: seq<int>)
    requires LoadedFor(env, acct, all, lasts)
    ensures Covers(env, acct, all, AllOrNothing) <==> FillBarWhole(env, acct, all, lasts)
  {
    hide LoadFunding, Due;
    LoadCoversExactlyWhen(env, acct, all, lasts);
    LoadBringsNothingExactlyWhen(all, lasts, env.K() - 1, env.CloseMs());
  }

  lemma LoadBringsNothingExactlyWhen(all: seq<Rate>, lasts: seq<int>, last: int, closeMs: int)
    ensures Due(LoadFunding(all, lasts, closeMs), last, closeMs) == []
      <==> forall r :: r in all && last < r.time <= closeMs ==> lasts == [] || r.time <= Earliest(lasts)
  {
    hide Earliest;
    var loaded := LoadFunding(all, lasts, closeMs);
    forall r ensures r in loaded <==> lasts != [] && r in all && Earliest(lasts) < r.time <= closeMs {
      if lasts != [] {
        DueMembers(all, Earliest(lasts), closeMs, r);
      }
    }
    if Due(loaded, last, closeMs) == [] {
      forall r | r in all && last < r.time <= closeMs ensures lasts == [] || r.time <= Earliest(lasts) {
        DueMembers(loaded, last, closeMs, r);
      }
    } else {
      DueMembers(loaded, last, closeMs, Due(loaded, last, closeMs)[0]);
    }
  }

  /** A bar with at most one settlement inside is never split. */
  lemma OneSettlementIsWhole(env: Env, acct: Account, all: seq<Rate>, lasts: seq<int>)
    requires forall q, r :: q in all && r in all && InBar(q, env) && InBar(r, env) ==> q.time == r.time
    ensures FillBarWhole(env, acct, all, lasts)
  {}

  /** With the loads of the code, if no settlement falls inside a bar on which a pending entry may fill, unless another
      position's load brings it, nothing is missed. */
  lemma LoadedSettlementsChargedExactlyOnce(start: real, day: int, cfg: Config, events: seq<Event>,
                                            lasts: seq<seq<int>>, all: seq<Rate>, interval: int)
    requires OneInterval(events, interval) && AscendingRates(all) && |lasts| == |events|
    requires forall k :: 0 <= k < |events| && !events[k].EndOfGeneration? ==>
      var acct := Run(NewAccount(start, day), cfg, events[..k]);
      LoadedFor(events[k].env, acct, all, lasts[k]) && FillBarClear(events[k].env, acct, all, lasts[k])
    ensures FundedAccount(Run(NewAccount(start, day), cfg, events), all, interval)
  {
    hide Run, Covers, LoadedFor, FillBarClear, FundedAccount;
    forall k | 0 <= k < |events| && !events[k].EndOfGeneration?
      ensures Covers(events[k].env, Run(NewAccount(start, day), cfg, events[..k]), all, Everything)
    {
      LoadCoversExactlyWhen(events[k].env, Run(NewAccount(start, day), cfg, events[..k]), all, lasts[k]);
    }
    SettlementsChargedExactlyOnce(start, day, cfg, events, all, interval);
  }

  // ---------------------------------------------------------------- what is missed over a life

  /** A settlement was published inside the bar the position was filled on. */
  ghost predicate SettledOnFillBar(p: Position, all: seq<Rate>, interval: int) {
    exists r :: r in all && p.entryBar <= r.time < p.entryBar + interval
  }

  /** Every settlement of the position's life is charged once, or it was managed on no bar but its fill bar and missed
      exactly the settlements inside that bar. */
  ghost predicate LateAtMost(p: Position, all: seq<Rate>, interval: int) {
    !Funded(p, all, interval) <==> OnlyOnFillBar(p) && Uncharged(p) && SettledOnFillBar(p, all, interval)
  }

  lemma MissedExactlyWhen(p: Position, all: seq<Rate>, interval: int)
    requires interval > 0 && Charged(p, all, interval, AllOrNothing)
    ensures LateAtMost(p, all, interval)
  {
    if OnlyOnFillBar(p) && Uncharged(p) {
      var due := Due(all, p.fundingFrom, p.entryBar + interval - 1);
      if due == [] {
        forall r | r in all ensures !(p.entryBar <= r.time < p.entryBar + interval) {
          DueMembers(all, p.fundingFrom, p.entryBar + interval - 1, r);
        }
      } else {
        DueMembers(all, p.fundingFrom, p.entryBar + interval - 1, due[0]);
      }
    }
  }

  /** With the loads of the code, entries filling on settlement bars included: after any run every settlement of the
      life of every position and trade is charged exactly once, on the next managed bar at the latest, unless the
      position was managed on no bar but its fill bar and that bar's load brought nothing. */
  lemma LateSettlementsAreCaughtUp(start: real, day: int, cfg: Config, events: seq<Event>, lasts: seq<seq<int>>,
                                   all: seq<Rate>, interval: int)
    requires OneInterval(events, interval) && AscendingRates(all) && |lasts| == |events|
    requires forall k :: 0 <= k < |events| && !events[k].EndOfGeneration? ==>
      var acct := Run(NewAccount(start, day), cfg, events[..k]);
      LoadedFor(events[k].env, acct, all, lasts[k]) && FillBarWhole(events[k].env, acct, all, lasts[k])
    ensures var b := Run(NewAccount(start, day), cfg, events);
      && (b.position.Some? ==> LateAtMost(b.position.value, all, interval))
      && (forall i :: 0 <= i < |b.trades| ==> LateAtMost(b.trades[i].position, all, interval))
  {
    hide Run, Covers, LoadedFor, FillBarWhole, LateAtMost, Charged;
    forall k | 0 <= k < |events| && !events[k].EndOfGeneration?
      ensures Covers(events[k].env, Run(NewAccount(start, day), cfg, events[..k]), all, AllOrNothing)
    {
      LoadIsWholeExactlyWhen(events[k].env, Run(NewAccount(start, day), cfg, events[..k]), all, lasts[k]);
    }
    RunsCharge(start, day, cfg, events, all, interval, AllOrNothing);
    forall p | Charged(p, all, interval, AllOrNothing) ensures LateAtMost(p, all, interval) {
      MissedExactlyWhen(p, all, interval);
    }
  }

  /** The only account of its population: nothing else is open when it is flat. */
  ghost predicate LoadedAlone(env: Env, acct: Account, all: seq<Rate>) {
    env.rates == LoadFunding(all, if acct.position.Some? then [acct.position.value.lastFunding] else [], env.CloseMs())
  }

  /** A settlement is missed exactly when the position was managed on no bar but its fill bar and it fell inside it. */
  ghost predicate MissesItsFillBar(p: Position, all: seq<Rate>, interval: int) {
    !Funded(p, all, interval) <==> OnlyOnFillBar(p) && SettledOnFillBar(p, all, interval)
  }

  lemma AloneMisses(p: Position, all: seq<Rate>, interval: int)
    requires interval > 0 && Charged(p, all, interval, Nothing)
    ensures MissesItsFillBar(p, all, interval)
  {
    hide Funded;
    MissedExactlyWhen(p, all, interval);
  }

  /** For an account alone: over any run, over bars in any order and in either fill timing, a position or trade misses a
      settlement exactly when it was managed on no bar but the one it filled on and a settlement fell inside that bar;
      every other settlement of its life is charged exactly once. */
  lemma AloneMissesExactlyWhen(start: real, day: int, cfg: Config, events: seq<Event>, all: seq<Rate>, interval: int)
    requires OneInterval(events, interval) && AscendingRates(all)
    requires forall k :: 0 <= k < |events| && !events[k].EndOfGeneration? ==>
      LoadedAlone(events[k].env, Run(NewAccount(start, day), cfg, events[..k]), all)
    ensures var b := Run(NewAccount(start, day), cfg, events);
      && (b.position.Some? ==> MissesItsFillBar(b.position.value, all, interval))
      && (forall i :: 0 <= i < |b.trades| ==> MissesItsFillBar(b.trades[i].position, all, interval))
  {
    hide Run, Covers, LoadedAlone, MissesItsFillBar, Charged;
    forall k | 0 <= k < |events| && !events[k].EndOfGeneration?
      ensures Covers(events[k].env, Run(NewAccount(start, day), cfg, events[..k]), all, Nothing)
    {
      AloneCovers(events[k].env, Run(NewAccount(start, day), cfg, events[..k]), all);
    }
    RunsCharge(start, day, cfg, events, all, interval, Nothing);
    forall p | Charged(p, all, interval, Nothing) ensures MissesItsFillBar(p, all, interval) {
      AloneMisses(p, all, interval);
    }
  }

  lemma AloneCovers(env: Env, acct: Account, all: seq<Rate>)
    requires LoadedAlone(env, acct, all)
    ensures Covers(env, acct, all, Nothing)
  {
    hide PendingIndex;
    if acct.position.Some? {
      var last := acct.position.value.lastFunding;
      OpenPositionsAreCovered(all, [last], last, env.CloseMs());
    }
  }
}
