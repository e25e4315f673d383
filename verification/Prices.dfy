/** What every fill costs: over whole runs each entry and each exit is priced at one of its bar's own prices, slipped
    against the account, whether the engine filled it or the loop settled it after the last refusal. */
module Prices {
  import opened Market
  import opened PnlEngine
  import opened PositionManager
  import opened Accounting
  import opened PaperLoop
  import opened Survival
  import Protection

  type Candles = int -> Bar

  /** The engine refuses, or fills at the modelled price and fee. */
  ghost predicate EngineAsModelled(env: Env, cfg: Config) {
    && (forall r :: env.fillExit(r).ExitFilled? ==>
          var quote := ExitQuote(r.side, r.quantity, r.reference, r.kind, cfg.costs);
          env.fillExit(r) == ExitFilled(quote.price, quote.fee))
    && (forall r :: env.fillEntry(r).EntryFilled? ==>
          var f := env.fillEntry(r);
          var quote := EntryQuote(r.side, f.quantity, r.reference, cfg.costs);
          f.price == quote.price && f.fee == quote.fee)
  }

  /** Slipped against the account: whoever buys pays up, whoever sells receives less. */
  function Against(buys: bool, reference: real, s: real): real {
    if buys then reference * (1.0 + s) else reference * (1.0 - s)
  }

  /** The trade left at this reference: its price, its gross and its costs. */
  ghost predicate LeavesAt(t: Trade, reference: real, cfg: Config) {
    var p := t.position;
    && t.exitPrice == Against(p.side.Short?, reference, OrderSlippage(p.quantity, reference, t.kind, cfg.costs))
    && t.fees == p.entryFee + t.exitPrice * p.quantity * ChargeFraction(t.kind, cfg.costs)
    && t.gross == (if p.side.Long? then (t.exitPrice - p.entryPrice) * p.quantity
                   else (p.entryPrice - t.exitPrice) * p.quantity)
  }

  /** The reference each reason takes from the exit bar. */
  ghost predicate ReferenceOf(t: Trade, bar: Bar, reference: real) {
    match t.reason
    case SignalExit => reference == if t.exitBar in t.position.exitSignals then bar.close else bar.open
    case AgentDeath => reference == bar.close
    case OrphanResolution => reference == bar.close
    case StopLoss => t.position.stopLoss.Some?
                     && reference == (if t.position.side.Long? then Min(bar.open, t.position.stopLoss.value)
                                      else Max(bar.open, t.position.stopLoss.value))
    case TakeProfit => t.position.takeProfit == Some(reference)
    case _ => TradesAt(bar, reference)
  }

  /** The order kind of each reason: deaths leave as liquidations do. */
  predicate KindFits(t: Trade) {
    match t.reason
    case Liquidation => t.kind.LiquidationOrder?
    case AgentDeath => t.kind.LiquidationOrder?
    case StopLoss => t.kind.StopOrder?
    case TrailingStop => t.kind.StopOrder?
    case TakeProfit => t.kind.TakeProfitOrder?
    case _ => t.kind.MarketOrder?
  }

  ghost predicate ExitPriced(t: Trade, candles: Candles, cfg: Config) {
    KindFits(t) && exists reference :: ReferenceOf(t, candles(t.exitBar), reference) && LeavesAt(t, reference, cfg)
  }

  /** The position was filled at the open of its entry bar, or at the close of it; it opened at that moment, and funding
      counts from there. */
  ghost predicate EntryPriced(p: Position, candles: Candles, cfg: Config) {
    var atOpen := p.fundingFrom == p.entryBar - 1;
    var reference := if atOpen then candles(p.entryBar).open else candles(p.entryBar).close;
    && p.entryPrice == Against(p.side.Long?, reference, OrderSlippage(p.quantity, reference, MarketOrder, cfg.costs))
    && p.entryFee == p.entryPrice * p.quantity * cfg.costs.taker
    && p.openedAt == if atOpen then p.entryBar else p.fundingFrom
  }

  ghost predicate TradePriced(t: Trade, candles: Candles, cfg: Config) {
    EntryPriced(t.position, candles, cfg) && (!t.reason.GenerationRollover? ==> ExitPriced(t, candles, cfg))
  }

  ghost predicate Priced(acct: Account, candles: Candles, cfg: Config) {
    && (forall i :: 0 <= i < |acct.trades| ==> TradePriced(acct.trades[i], candles, cfg))
    && (acct.position.Some? ==>
          && EntryPriced(acct.position.value, candles, cfg)
          && (forall k :: k in acct.position.value.exitSignals ==> k in acct.decided))
  }

  ghost predicate Bars(env: Env, cfg: Config, candles: Candles) {
    Sane(env.bar) && env.bar == candles(env.K()) && env.intervalMs > 0 && EngineAsModelled(env, cfg)
  }

  // ---------------------------------------------------------------- one close

  lemma SettleLeavesAt(acct: Account, cfg: Config, env: Env, dna: Option<Dna>, p: Position, reference: real,
                       kind: OrderKind, reason: Reason, forced: bool)
    ensures var quote := ExitQuote(p.side, p.quantity, reference, kind, cfg.costs);
      var b := Settle(acct, cfg, env, dna, p, quote.price, quote.fee, kind, reason, forced);
      && b.position.None? && |b.trades| == |acct.trades| + 1 && b.trades[..|acct.trades|] == acct.trades
      && (var t := b.trades[|acct.trades|];
          && t.position == p && t.kind == kind && t.reason == reason && t.exitBar == env.K()
          && LeavesAt(t, reference, cfg))
  {
    hide SettleClose, AfterClose, WithCooldown, ExitPrice, OrderSlippage, FeeRate, ChargeFraction, LiquidationPenalty;
    CostsAreFractions(p.side, p.quantity, reference, kind, cfg.costs);
  }

  /** A close leaves at its reference, filled or forced, or it is refused and stays open. */
  lemma CloseLeavesAt(acct: Account, cfg: Config, env: Env, dna: Option<Dna>, reference: real, kind: OrderKind,
                      reason: Reason)
    requires acct.position.Some? && EngineAsModelled(env, cfg)
    ensures var p, b := acct.position.value, ClosePosition(acct, cfg, env, dna, reference, kind, reason);
      || b == Decided(acct, env).(position := Some(Tried(p)))
      || (&& b.position.None? && |b.trades| == |acct.trades| + 1 && b.trades[..|acct.trades|] == acct.trades
          && (var t := b.trades[|acct.trades|];
              && (t.position == p || t.position == Tried(p)) && t.kind == kind && t.reason == reason
              && t.exitBar == env.K() && LeavesAt(t, reference, cfg)))
  {
    hide Settle, ExitQuote, LeavesAt;
    var p := acct.position.value;
    SettleLeavesAt(Decided(acct, env), cfg, env, dna, p, reference, kind, reason, false);
    SettleLeavesAt(Decided(acct, env).(position := Some(Tried(p))), cfg, env, dna, Tried(p), reference, kind, reason,
                   true);
    var r := ExitOrder(p, env, reference, kind);
    assert r.side == p.side && r.quantity == p.quantity && r.reference == reference && r.kind == kind;
  }

  /** If the engine refuses and the position is closed all the same, everything but the attempt and the `forced` mark is
      as under an engine that fills at the modelled price. */
  lemma ForcedIsModelled(acct: Account, cfg: Config, env: Env, filling: Env, dna: Option<Dna>, reference: real,
                         kind: OrderKind, reason: Reason)
    requires acct.position.Some? && filling == env.(fillExit := filling.fillExit) && FillsAsModelled(filling, cfg)
    requires env.fillExit(ExitOrder(acct.position.value, env, reference, kind)).ExitRefused?
    requires ClosePosition(acct, cfg, env, dna, reference, kind, reason).position.None?
    ensures var b, m := ClosePosition(acct, cfg, env, dna, reference, kind, reason),
                        ClosePosition(acct, cfg, filling, dna, reference, kind, reason);
      && |b.trades| == |m.trades| == |acct.trades| + 1
      && b == m.(trades := acct.trades
                           + [m.trades[|acct.trades|].(position := Tried(acct.position.value), forced := true)])
  {
    hide SettleClose, AfterClose, ExitQuote, LiquidationPenalty, ComputeTradePnL, AfterCosts;
    var p, quote := acct.position.value,
                    ExitQuote(acct.position.value.side, acct.position.value.quantity, reference, kind, cfg.costs);
    var r := ExitOrder(p, env, reference, kind);
    assert r.side == p.side && r.quantity == p.quantity && r.reference == reference && r.kind == kind;
    assert filling.fillExit(ExitOrder(p, filling, reference, kind)) == ExitFilled(quote.price, quote.fee);
  }

  /** A close leaves the position open exactly when the engine refuses it and, off the live venue, attempts are left. */
  lemma StaysOpenExactlyWhen(acct: Account, cfg: Config, env: Env, dna: Option<Dna>, reference: real, kind: OrderKind,
                             reason: Reason)
    requires acct.position.Some?
    ensures ClosePosition(acct, cfg, env, dna, reference, kind, reason).position.Some?
      <==> && env.fillExit(ExitOrder(acct.position.value, env, reference, kind)).ExitRefused?
           && (env.live || acct.position.value.exitAttempts + 1 < cfg.forceSettleAfter)
  {
    hide Settle, ExitQuote;
    var p := acct.position.value;
    forall price, fee, forced
      ensures Settle(Decided(acct, env), cfg, env, dna, p, price, fee, kind, reason, forced).position.None?
      ensures Settle(Decided(acct, env).(position := Some(Tried(p))), cfg, env, dna, Tried(p), price, fee, kind, reason,
                     forced).position.None?
    {
      Protection.SettleShape(Decided(acct, env), cfg, env, dna, p, price, fee, kind, reason, forced);
      Protection.SettleShape(Decided(acct, env).(position := Some(Tried(p))), cfg, env, dna, Tried(p), price, fee, kind,
                             reason, forced);
    }
  }

  /** A refused attempt is never submitted again under the same id. */
  lemma AttemptsHaveFreshIds(acct: Account, cfg: Config, env: Env, dna: Option<Dna>, reference: real, kind: OrderKind,
                             reason: Reason, later: Env, reference': real, kind': OrderKind)
    requires acct.position.Some? && ClosePosition(acct, cfg, env, dna, reference, kind, reason).position.Some?
    ensures var b := ClosePosition(acct, cfg, env, dna, reference, kind, reason);
      ExitOrder(b.position.value, later, reference', kind').attempt
        > ExitOrder(acct.position.value, env, reference, kind).attempt
  {
    hide Settle, ExitQuote;
    Protection.CloseShape(acct, cfg, env, dna, reference, kind, reason);
  }

  // ---------------------------------------------------------------- what a close keeps

  /** The fields of a position that the pricing of its trade reads. */
  ghost predicate SameTerms(p: Position, q: Position) {
    && p.side == q.side && p.quantity == q.quantity && p.entryPrice == q.entryPrice && p.entryFee == q.entryFee
    && p.entryBar == q.entryBar && p.fundingFrom == q.fundingFrom && p.openedAt == q.openedAt
    && p.stopLoss == q.stopLoss && p.takeProfit == q.takeProfit
  }

  lemma SameTermsSamePrice(p: Position, q: Position, candles: Candles, cfg: Config)
    requires SameTerms(p, q) && EntryPriced(p, candles, cfg)
    ensures EntryPriced(q, candles, cfg)
  {}

  /** The reference and the kind are those the reason asks for. */
  ghost predicate FitsReason(p: Position, env: Env, reference: real, kind: OrderKind, reason: Reason) {
    forall t: Trade :: t.position == p && t.kind == kind && t.reason == reason && t.exitBar == env.K() ==>
      KindFits(t) && ReferenceOf(t, env.bar, reference)
  }

  lemma ClosePriced(acct: Account, cfg: Config, env: Env, dna: Option<Dna>, reference: real, kind: OrderKind,
                    reason: Reason, candles: Candles)
    requires acct.position.Some? && Priced(acct, candles, cfg) && Bars(env, cfg, candles)
    requires FitsReason(acct.position.value, env, reference, kind, reason)
    requires FitsReason(Tried(acct.position.value), env, reference, kind, reason)
    ensures Priced(ClosePosition(acct, cfg, env, dna, reference, kind, reason), candles, cfg)
  {
    hide ClosePosition, EntryPriced, LeavesAt, ReferenceOf, KindFits, EngineAsModelled;
    CloseLeavesAt(acct, cfg, env, dna, reference, kind, reason);
    SameTermsSamePrice(acct.position.value, Tried(acct.position.value), candles, cfg);
    var b := ClosePosition(acct, cfg, env, dna, reference, kind, reason);
    forall i | 0 <= i < |b.trades| ensures TradePriced(b.trades[i], candles, cfg) {
      assert i < |acct.trades| ==> b.trades[..|acct.trades|][i] == acct.trades[i];
      if i == |acct.trades| {
        assert ReferenceOf(b.trades[i], candles(b.trades[i].exitBar), reference);
      }
    }
  }

  // ---------------------------------------------------------------- one bar

  /** What the bar's own prices trigger. */
  lemma TriggerFits(p: Position, balance: real, cfg: Config, env: Env, dna: Option<Dna>, q: Position)
    requires Sane(env.bar) && SameTerms(p, q)
    ensures var t := EvaluateBar(LevelsOf(p, balance, cfg, dna), env.bar, cfg.sameBarExtreme);
      t.Some? ==> FitsReason(q, env, t.value.reference, t.value.kind, t.value.reason)
  {
    hide EvaluateBar, LiquidationPrice, TrailsAt, TradedAgainst, TradedWith, ComesFirst;
    var l := LevelsOf(p, balance, cfg, dna);
    ConservativePath(l, env.bar, cfg.sameBarExtreme);
  }

  lemma ProtectPriced(acct: Account, cfg: Config, env: Env, dna: Option<Dna>, candles: Candles)
    requires acct.position.Some? && Priced(acct, candles, cfg) && Bars(env, cfg, candles)
    ensures Priced(Protect(acct, cfg, env, dna), candles, cfg)
  {
    hide ClosePosition, EvaluateBar, LiquidationPrice, Liquidatable, SetEquity, AdvanceExtremes, TradePriced,
      EntryPriced, FitsReason, EngineAsModelled;
    var p := acct.position.value;
    var levels := LevelsOf(p, acct.agent.balance, cfg, dna);
    var e := Evaluated(p, env.K());
    var held := acct.(position := Some(e));
    SameTermsSamePrice(p, e, candles, cfg);
    var trigger := EvaluateBar(levels, env.bar, cfg.sameBarExtreme);
    if trigger.Some? {
      TriggerFits(p, acct.agent.balance, cfg, env, dna, e);
      TriggerFits(p, acct.agent.balance, cfg, env, dna, Tried(e));
      ClosePriced(held, cfg, env, dna, trigger.value.reference, trigger.value.kind, trigger.value.reason, candles);
    } else {
      var q := Survived(e, levels, env.bar);
      SameTermsSamePrice(p, q, candles, cfg);
      CloseFits(q, env);
      CloseFits(Tried(q), env);
      ClosePriced(held.(position := Some(q)), cfg, env, dna, env.bar.close, LiquidationOrder, Liquidation, candles);
    }
  }

  /** Liquidations, deaths and orphans at the close. */
  lemma CloseFits(p: Position, env: Env)
    requires Sane(env.bar)
    ensures FitsReason(p, env, env.bar.close, LiquidationOrder, Liquidation)
    ensures FitsReason(p, env, env.bar.close, LiquidationOrder, AgentDeath)
    ensures FitsReason(p, env, env.bar.close, MarketOrder, OrphanResolution)
  {}

  lemma ManagePriced(acct: Account, cfg: Config, env: Env, dna: Option<Dna>, candles: Candles)
    requires acct.position.Some? && Priced(acct, candles, cfg) && Bars(env, cfg, candles)
    ensures Priced(Manage(acct, cfg, env, dna), candles, cfg)
  {
    hide Protect, TradePriced, EntryPriced, Charge, Due, EngineAsModelled;
    var p := acct.position.value;
    if !Processed(p, env.K()) {
      Protection.ChargeKeepsRest(Holding(acct.agent, p), Due(env.rates, p.lastFunding, env.CloseMs()), env.bar.close);
      SameTermsSamePrice(p, Accrue(acct, env).position.value, candles, cfg);
      ProtectPriced(Accrue(acct, env), cfg, env, dna, candles);
    }
  }

  /** A death or an orphan, after the management of the bar. */
  lemma ForcedPriced(acct: Account, cfg: Config, env: Env, dna: Option<Dna>, candles: Candles)
    requires acct.position.Some? && Priced(acct, candles, cfg) && Bars(env, cfg, candles)
    ensures Priced(ClosePosition(acct, cfg, env, dna, env.bar.close, LiquidationOrder, AgentDeath), candles, cfg)
    ensures Priced(ClosePosition(acct, cfg, env, dna, env.bar.close, MarketOrder, OrphanResolution), candles, cfg)
  {
    hide ClosePosition, Priced, FitsReason, EngineAsModelled;
    CloseFits(acct.position.value, env);
    CloseFits(Tried(acct.position.value), env);
    ClosePriced(acct, cfg, env, dna, env.bar.close, LiquidationOrder, AgentDeath, candles);
    ClosePriced(acct, cfg, env, dna, env.bar.close, MarketOrder, OrphanResolution, candles);
  }

  lemma OpenedPriced(o: Order, env: Env, cfg: Config, dna: Dna, quantity: Positive, reference: real, immediate: bool,
                     candles: Candles)
    requires Bars(env, cfg, candles) && reference == if immediate then env.bar.close else env.bar.open
    ensures var quote := EntryQuote(o.side, quantity, reference, cfg.costs);
      EntryPriced(Opened(o, env, dna, quote.price, quantity, quote.fee, immediate), candles, cfg)
  {}

  lemma FillPriced(acct: Account, cfg: Config, env: Env, dna: Dna, i: nat, reference: real, immediate: bool,
                   candles: Candles)
    requires i < |acct.orders| && acct.position.None? && Priced(acct, candles, cfg) && Bars(env, cfg, candles)
    requires reference == if immediate then env.bar.close else env.bar.open
    ensures Priced(FillEntry(acct, cfg, env, dna, i, reference, immediate), candles, cfg)
  {
    hide AfterEntry, ApproveAgainstMargin, TradePriced, EntryPriced, EntryQuote, Opened;
    var o := acct.orders[i];
    var notional := ApproveAgainstMargin(o.notional, o.leverage, Max(0.0, acct.agent.balance));
    var quantity := if reference > 0.0 then notional / reference else 0.0;
    var r := EntryRequest(o.side, quantity, reference);
    match env.fillEntry(r)
    case EntryRefused =>
    case EntryFilled(price, filled, fee) =>
      var quote := EntryQuote(o.side, filled, reference, cfg.costs);
      assert env.fillEntry(r).price == quote.price && env.fillEntry(r).fee == quote.fee;
      OpenedPriced(o, env, cfg, dna, filled, reference, immediate, candles);
      FreshIsUnsignalled(o, env, dna, price, filled, fee, immediate);
  }

  lemma FreshIsUnsignalled(o: Order, env: Env, dna: Dna, price: real, quantity: Positive, fee: real, immediate: bool)
    ensures Opened(o, env, dna, price, quantity, fee, immediate).exitSignals == []
  {}

  /** A pending exit executes at the open of a bar that has not signalled. */
  lemma OpenPriced(acct: Account, cfg: Config, env: Env, dna: Dna, candles: Candles)
    requires Priced(acct, candles, cfg) && Bars(env, cfg, candles) && env.K() !in acct.decided
    ensures Priced(AtTheOpen(acct, cfg, env, dna), candles, cfg)
  {
    hide ClosePosition, FillEntry, TradePriced, EntryPriced, FitsReason, EngineAsModelled;
    var rolled := acct.(agent := RollDay(acct.agent, env));
    if acct.position.Some? {
      var taken := acct.position.value.(pendingExit := None);
      SameTermsSamePrice(acct.position.value, taken, candles, cfg);
      OpenFits(taken, env);
      OpenFits(Tried(taken), env);
      ClosePriced(rolled.(position := Some(taken)), cfg, env, Some(dna), env.bar.open, MarketOrder, SignalExit,
                  candles);
    } else {
      PendingIndexBound(acct.orders);
      var i := PendingIndex(acct.orders);
      if i.Some? {
        FillPriced(rolled, cfg, env, dna, i.value, env.bar.open, false, candles);
      }
    }
  }

  lemma OpenFits(p: Position, env: Env)
    requires env.K() !in p.exitSignals
    ensures FitsReason(p, env, env.bar.open, MarketOrder, SignalExit)
  {}

  lemma SignalPriced(acct: Account, cfg: Config, env: Env, dna: Dna, candles: Candles)
    requires Priced(acct, candles, cfg) && Bars(env, cfg, candles)
    ensures acct.position.Some? ==> Priced(HoldOrExit(acct, cfg, env, dna), candles, cfg)
    ensures acct.position.None? ==> Priced(PlaceEntry(acct, cfg, env, dna), candles, cfg)
  {
    hide ClosePosition, FillEntry, ApproveAgainstMargin, TradePriced, EntryPriced, FitsReason, EngineAsModelled;
    if acct.position.Some? {
      var p := Signalled(acct.position.value, env.K());
      SameTermsSamePrice(acct.position.value, p, candles, cfg);
      SameTermsSamePrice(acct.position.value, p.(pendingExit := Some(env.K())), candles, cfg);
      SignalledFits(p, env);
      SignalledFits(Tried(p), env);
      if env.signal(Some(p.side)).matchedExit && !env.nextOpen {
        SignalCloses(acct, cfg, env, dna, candles);
      }
    } else {
      var verdict := env.risk(env.signal(None).side, acct.agent);
      var notional := ApprovedNotional(acct.agent, cfg, env, verdict);
      if verdict.Approved? {
        var order := Order(env.K(), env.signal(None).side, notional, verdict.leverage, env.intent, Pending);
        var placed := Decided(acct, env).(orders := acct.orders + [order]);
        FillPriced(placed, cfg, env, dna, |acct.orders|, env.bar.close, true, candles);
      }
    }
  }

  lemma SignalledFits(p: Position, env: Env)
    requires env.K() in p.exitSignals
    ensures FitsReason(p, env, env.bar.close, MarketOrder, SignalExit)
  {}

  /** An immediate exit: the bar gets its signal and its decision row together. */
  lemma SignalCloses(acct: Account, cfg: Config, env: Env, dna: Dna, candles: Candles)
    requires acct.position.Some? && Priced(acct, candles, cfg) && Bars(env, cfg, candles)
    ensures var taken := acct.(position := Some(Signalled(acct.position.value, env.K())));
      Priced(ClosePosition(taken, cfg, env, Some(dna), env.bar.close, MarketOrder, SignalExit), candles, cfg)
  {
    hide ClosePosition, TradePriced, EntryPriced, FitsReason, EngineAsModelled, LeavesAt;
    var p := Signalled(acct.position.value, env.K());
    SameTermsSamePrice(acct.position.value, p, candles, cfg);
    SignalledFits(p, env);
    SignalledFits(Tried(p), env);
    var taken := acct.(position := Some(p));
    DecidedFirst(taken, cfg, env, Some(dna), env.bar.close, MarketOrder, SignalExit);
    ClosePriced(Decided(taken, env), cfg, env, Some(dna), env.bar.close, MarketOrder, SignalExit, candles);
  }

  lemma DecidedFirst(acct: Account, cfg: Config, env: Env, dna: Option<Dna>, reference: real, kind: OrderKind,
                     reason: Reason)
    requires acct.position.Some?
    ensures ClosePosition(Decided(acct, env), cfg, env, dna, reference, kind, reason)
         == ClosePosition(acct, cfg, env, dna, reference, kind, reason)
  {
    hide Settle, ExitQuote;
    assert Decided(Decided(acct, env), env) == Decided(acct, env);
  }

  // ---------------------------------------------------------------- whole runs

  lemma ProcessPriced(acct: Account, cfg: Config, env: Env, dna: Dna, candles: Candles)
    requires Priced(acct, candles, cfg) && Bars(env, cfg, candles) && env.K() !in acct.decided
    ensures Priced(ProcessAgent(acct, cfg, env, dna), candles, cfg)
  {
    hide AtTheOpen, Manage, HoldOrExit, PlaceEntry, ClosePosition, StillHeld, TradePriced, EntryPriced,
      EngineAsModelled;
    OpenPriced(acct, cfg, env, dna, candles);
    var entered := AtTheOpen(acct, cfg, env, dna);
    SignalPriced(entered, cfg, env, dna, candles);
    if entered.position.Some? {
      ManagePriced(entered, cfg, env, Some(dna), candles);
      var managed := Manage(entered, cfg, env, Some(dna));
      if managed.position.Some? {
        SignalPriced(managed, cfg, env, dna, candles);
        ForcedPriced(managed, cfg, env, Some(dna), candles);
      }
    }
  }

  lemma SweepPriced(acct: Account, cfg: Config, env: Env, dna: Option<Dna>, faults: Faults, candles: Candles)
    requires Priced(acct, candles, cfg) && Bars(env, cfg, candles)
    ensures Priced(Sweep(acct, cfg, env, dna, faults), candles, cfg)
  {
    hide Manage, ClosePosition, Priced, EngineAsModelled;
    if acct.position.Some? {
      ManagePriced(acct, cfg, env, dna, candles);
      var managed := Manage(acct, cfg, env, dna);
      if managed.position.Some? {
        ForcedPriced(managed, cfg, env, dna, candles);
      }
    }
  }

  ghost predicate OnCandles(e: Event, cfg: Config, candles: Candles) {
    !e.EndOfGeneration? ==> Bars(e.env, cfg, candles)
  }

  lemma StepPriced(acct: Account, cfg: Config, e: Event, candles: Candles)
    requires Priced(acct, candles, cfg) && OnCandles(e, cfg, candles)
    ensures Priced(Step(acct, cfg, e), candles, cfg)
  {
    hide ProcessAgent, Sweep, ComputeTradePnL, SettleClose, ExitPriced, EntryPriced, EngineAsModelled;
    match e
    case Candle(env, dna, cycled, faults) =>
      if dna.Some? && env.K() !in acct.decided {
        ProcessPriced(acct, cfg, env, dna.value, candles);
      }
      SweepPriced(Decide(acct, cfg, env, dna, cycled, faults), cfg, env, dna, faults, candles);
    case ProtectBar(env, dna, faults) =>
      SweepPriced(acct, cfg, env, dna, faults, candles);
    case EndOfGeneration(mark, feeRate, at) =>
  }

  /** Over any run, retries, failures and refusals included: every position was entered at the open or the close of its
      entry bar, and every trade left at the reference of its reason on its exit bar - the stop or the gapped open, the
      take-profit, the open after a signal, the close for deaths and orphans - slipped against the account and charged
      by its order kind, filled or forced. */
  lemma {:induction false} EveryFillIsPriced(start: real, day: int, cfg: Config, events: seq<Event>, candles: Candles)
    requires forall k :: 0 <= k < |events| ==> OnCandles(events[k], cfg, candles)
    ensures Priced(Run(NewAccount(start, day), cfg, events), candles, cfg)
  {
    hide Step, TradePriced, EntryPriced, OnCandles;
    if events != [] {
      var n := |events| - 1;
      EveryFillIsPriced(start, day, cfg, events[..n], candles);
      StepPriced(Run(NewAccount(start, day), cfg, events[..n]), cfg, events[n], candles);
    }
  }
}
