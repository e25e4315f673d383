/** Over whole runs the loop folds in exactly the bars that the replay goes through. */
module ReplayRuns {
  import opened Market
  import opened PnlEngine
  import opened PositionManager
  import opened Accounting
  import opened PaperLoop
  import Protection
  import opened Replay

  /** One cycle per bar. The agent's own step may fail and be rolled back, be skipped, or find the agent of another
      generation; the protective pass and the commit succeed, entries fill at the next open and every exit fills. */
  ghost predicate CycleOf(e: Event, bar: Bar, intervalMs: int, candles: Candles) {
    && e.Candle? && e.env.bar == bar && e.env.intervalMs == intervalMs && e.env.nextOpen && Filling(e.env, candles)
    && !e.faults.protect && !e.faults.commit
  }

  ghost predicate OnEveryBar(events: seq<Event>, bars: seq<Bar>, intervalMs: int, candles: Candles) {
    && |events| <= |bars| && intervalMs > 0
    && (forall k :: 0 <= k < |events| ==> CycleOf(events[k], bars[k], intervalMs, candles))
  }

  /** Bars of one interval: none opens before the one before it has closed. */
  ghost predicate Spaced(bars: seq<Bar>, intervalMs: int) {
    forall i, j :: 0 <= i < j < |bars| ==> bars[i].openTime + intervalMs <= bars[j].openTime
  }

  /** `p` was entered on bar `m` and evaluated on every bar from there up to, and not including, bar `n`. */
  ghost predicate HeldFrom(p: Position, bars: seq<Bar>, m: nat, n: nat) {
    && m <= n <= |bars| && m < |bars|
    && p.entryBar == bars[m].openTime && p.evaluations == OpenTimes(bars[m..n])
    && p.lastProcessed == (if m == n then None else Some(bars[n - 1].openTime))
  }

  ghost predicate HeldUpTo(p: Position, bars: seq<Bar>, n: nat) { exists m: nat :: HeldFrom(p, bars, m, n) }

  /** The deaths and orphans are closed at the close of a bar they were managed on. */
  predicate AtTheClose(r: Reason) { r.AgentDeath? || r.OrphanResolution? }

  ghost predicate ManagedFrom(t: Trade, bars: seq<Bar>, intervalMs: int, m: nat, x: nat) {
    && m <= x < |bars| && t.position.entryBar == bars[m].openTime
    && t.exitBar == bars[x].openTime && t.closedAt == bars[x].openTime + intervalMs - 1
    && Folded(t) == OpenTimes(bars[m..if AtTheClose(t.reason) then x + 1 else x])
  }

  ghost predicate TradeManaged(t: Trade, bars: seq<Bar>, intervalMs: int) {
    exists m: nat, x: nat :: ManagedFrom(t, bars, intervalMs, m, x)
  }

  ghost predicate TradesManaged(trades: seq<Trade>, bars: seq<Bar>, intervalMs: int) {
    forall i :: 0 <= i < |trades| ==> TradeManaged(trades[i], bars, intervalMs)
  }

  /** Before bar `n` is managed. */
  ghost predicate ManagedUpTo(acct: Account, bars: seq<Bar>, intervalMs: int, n: nat) {
    TradesManaged(acct.trades, bars, intervalMs) && (acct.position.Some? ==> HeldUpTo(acct.position.value, bars, n))
  }

  // ---------------------------------------------------------------- one bar

  lemma OneMoreTrade(trades: seq<Trade>, t: Trade, bars: seq<Bar>, intervalMs: int, m: nat, x: nat)
    requires TradesManaged(trades, bars, intervalMs) && ManagedFrom(t, bars, intervalMs, m, x)
    ensures TradesManaged(trades + [t], bars, intervalMs)
  {}

  /** The trade of a filled exit. */
  lemma ExitBooksOneTrade(acct: Account, cfg: Config, env: Env, dna: Option<Dna>, reference: real, kind: OrderKind,
                          reason: Reason)
    requires acct.position.Some? && (forall r :: env.fillExit(r).ExitFilled?)
    ensures var b := ClosePosition(acct, cfg, env, dna, reference, kind, reason);
      b.position.None? && exists t: Trade ::
        && b.trades == acct.trades + [t]
        && t.position == acct.position.value && t.reason == reason && t.exitBar == env.K()
          && t.closedAt == env.CloseMs()
  {}

  lemma CloseManaged(acct: Account, cfg: Config, env: Env, dna: Option<Dna>, reference: real, kind: OrderKind,
                     reason: Reason, bars: seq<Bar>, n: nat, m: nat)
    requires acct.position.Some? && (forall r :: env.fillExit(r).ExitFilled?)
      && TradesManaged(acct.trades, bars, env.intervalMs)
    requires n < |bars| && env.bar == bars[n] && m <= n
    requires HeldFrom(acct.position.value, bars, m, if IsProtective(reason) || AtTheClose(reason) then n + 1 else n)
    ensures ManagedUpTo(ClosePosition(acct, cfg, env, dna, reference, kind, reason), bars, env.intervalMs, n + 1)
    ensures ClosePosition(acct, cfg, env, dna, reference, kind, reason).position.None?
  {
    hide ClosePosition;
    ExitBooksOneTrade(acct, cfg, env, dna, reference, kind, reason);
    var b := ClosePosition(acct, cfg, env, dna, reference, kind, reason);
    var t :| && b.trades == acct.trades + [t] && t.position == acct.position.value && t.reason == reason
             && t.exitBar == env.K() && t.closedAt == env.CloseMs();
    var p := acct.position.value;
    assert IsProtective(reason) ==> p.evaluations[..|p.evaluations| - 1] == OpenTimes(bars[m..n]);
    OneMoreTrade(acct.trades, t, bars, env.intervalMs, m, n);
  }

  lemma EvaluatedFrom(p: Position, bars: seq<Bar>, m: nat, n: nat)
    requires HeldFrom(p, bars, m, n) && n < |bars|
    ensures HeldFrom(Evaluated(p, bars[n].openTime), bars, m, n + 1)
  {}

  lemma ProtectManaged(acct: Account, cfg: Config, env: Env, dna: Option<Dna>, bars: seq<Bar>, n: nat)
    requires acct.position.Some? && (forall r :: env.fillExit(r).ExitFilled?)
      && ManagedUpTo(acct, bars, env.intervalMs, n)
    requires n < |bars| && env.bar == bars[n]
    ensures ManagedUpTo(Protect(acct, cfg, env, dna), bars, env.intervalMs, n + 1)
  {
    hide ClosePosition, EvaluateBar, LiquidationPrice, Liquidatable, SetEquity, AdvanceExtremes;
    var p := acct.position.value;
    var m: nat :| HeldFrom(p, bars, m, n);
    EvaluatedFrom(p, bars, m, n);
    var levels := LevelsOf(p, acct.agent.balance, cfg, dna);
    var held := acct.(position := Some(Evaluated(p, env.K())));
    var trigger := EvaluateBar(levels, env.bar, cfg.sameBarExtreme);
    if trigger.Some? {
      TriggersAreProtective(levels, env.bar, cfg.sameBarExtreme);
      CloseManaged(held, cfg, env, dna, trigger.value.reference, trigger.value.kind, trigger.value.reason, bars, n, m);
    } else {
      var q := Survived(Evaluated(p, env.K()), levels, env.bar);
      assert HeldFrom(q, bars, m, n + 1);
      CloseManaged(held.(position := Some(q)), cfg, env, dna, env.bar.close, LiquidationOrder, Liquidation, bars, n, m);
    }
  }

  lemma ManageManaged(acct: Account, cfg: Config, env: Env, dna: Option<Dna>, bars: seq<Bar>, n: nat)
    requires acct.position.Some? && (forall r :: env.fillExit(r).ExitFilled?)
      && ManagedUpTo(acct, bars, env.intervalMs, n)
    requires n < |bars| && env.bar == bars[n] && Chronological(bars)
    ensures ManagedUpTo(Manage(acct, cfg, env, dna), bars, env.intervalMs, n + 1)
  {
    hide Protect;
    var p := acct.position.value;
    var m: nat :| HeldFrom(p, bars, m, n);
    Protection.ChargeKeepsRest(Holding(acct.agent, p), Due(env.rates, p.lastFunding, env.CloseMs()), env.bar.close);
    assert HeldFrom(Accrue(acct, env).position.value, bars, m, n);
    ProtectManaged(Accrue(acct, env), cfg, env, dna, bars, n);
  }

  lemma OpenManaged(acct: Account, cfg: Config, env: Env, dna: Dna, bars: seq<Bar>, n: nat)
    requires (forall r :: env.fillExit(r).ExitFilled?) && ManagedUpTo(acct, bars, env.intervalMs, n)
    requires n < |bars| && env.bar == bars[n]
    ensures ManagedUpTo(AtTheOpen(acct, cfg, env, dna), bars, env.intervalMs, n)
  {
    hide ClosePosition, AfterEntry, ApproveAgainstMargin;
    var rolled := acct.(agent := RollDay(acct.agent, env));
    if acct.position.Some? {
      var m: nat :| HeldFrom(acct.position.value, bars, m, n);
      var taken := rolled.(position := Some(acct.position.value.(pendingExit := None)));
      assert HeldFrom(taken.position.value, bars, m, n);
      CloseManaged(taken, cfg, env, Some(dna), env.bar.open, MarketOrder, SignalExit, bars, n, m);
    } else {
      var b := AtTheOpen(acct, cfg, env, dna);
      assert bars[n..n] == [];
      assert b.position.Some? ==> HeldFrom(b.position.value, bars, n, n);
    }
  }

  lemma SignalManaged(acct: Account, cfg: Config, env: Env, dna: Dna, bars: seq<Bar>, n: nat)
    requires env.nextOpen && ManagedUpTo(acct, bars, env.intervalMs, n)
    ensures acct.position.Some? ==> ManagedUpTo(HoldOrExit(acct, cfg, env, dna), bars, env.intervalMs, n)
    ensures acct.position.Some? && acct.position.value.evaluations != [] ==>
      WasEvaluated(HoldOrExit(acct, cfg, env, dna))
    ensures acct.position.None? ==> ManagedUpTo(PlaceEntry(acct, cfg, env, dna), bars, env.intervalMs, n)
    ensures acct.position.None? ==> PlaceEntry(acct, cfg, env, dna).position.None?
  {
    hide ClosePosition, FillEntry, ApproveAgainstMargin;
    if acct.position.Some? {
      var m: nat :| HeldFrom(acct.position.value, bars, m, n);
      var b := HoldOrExit(acct, cfg, env, dna);
      assert HeldFrom(b.position.value, bars, m, n);
    }
  }

  lemma ForcedManaged(acct: Account, cfg: Config, env: Env, dna: Option<Dna>, kind: OrderKind, reason: Reason,
                      bars: seq<Bar>, n: nat)
    requires acct.position.Some? && (forall r :: env.fillExit(r).ExitFilled?)
      && ManagedUpTo(acct, bars, env.intervalMs, n + 1)
    requires n < |bars| && env.bar == bars[n] && AtTheClose(reason) && WasEvaluated(acct)
    ensures var b := ClosePosition(acct, cfg, env, dna, env.bar.close, kind, reason);
      ManagedUpTo(b, bars, env.intervalMs, n + 1) && b.position.None?
  {
    hide ClosePosition;
    var m: nat :| HeldFrom(acct.position.value, bars, m, n + 1);
    CloseManaged(acct, cfg, env, dna, env.bar.close, kind, reason, bars, n, m);
  }

  ghost predicate WasEvaluated(acct: Account) { acct.position.Some? ==> acct.position.value.evaluations != [] }

  lemma StillOpenWasEvaluated(acct: Account, cfg: Config, env: Env, dna: Option<Dna>)
    requires acct.position.Some? && !Processed(acct.position.value, env.K())
      && (forall r :: env.fillExit(r).ExitFilled?)
    ensures WasEvaluated(Manage(acct, cfg, env, dna))
  {
    hide ComputeTradePnL, SettleClose, AfterClose, WithCooldown, ForceSettle, LiquidationPenalty, EvaluateBar,
      LiquidationPrice, Liquidatable, SetEquity, AdvanceExtremes, Due, Charge;
  }

  lemma NotYetProcessed(p: Position, bars: seq<Bar>, n: nat)
    requires HeldUpTo(p, bars, n) && n < |bars| && Chronological(bars)
    ensures !Processed(p, bars[n].openTime)
  {}

  lemma ProcessManaged(acct: Account, cfg: Config, env: Env, dna: Dna, bars: seq<Bar>, n: nat)
    requires env.nextOpen && (forall r :: env.fillExit(r).ExitFilled?) && ManagedUpTo(acct, bars, env.intervalMs, n)
    requires n < |bars| && env.bar == bars[n] && Chronological(bars)
    ensures ManagedUpTo(ProcessAgent(acct, cfg, env, dna), bars, env.intervalMs, n + 1)
    ensures WasEvaluated(ProcessAgent(acct, cfg, env, dna))
  {
    hide AtTheOpen, Manage, HoldOrExit, PlaceEntry, ClosePosition, StillHeld;
    var entered := AtTheOpen(acct, cfg, env, dna);
    OpenManaged(acct, cfg, env, dna, bars, n);
    if entered.position.None? {
      SignalManaged(entered, cfg, env, dna, bars, n + 1);
    } else {
      NotYetProcessed(entered.position.value, bars, n);
      ManageManaged(entered, cfg, env, Some(dna), bars, n);
      StillOpenWasEvaluated(entered, cfg, env, Some(dna));
      var managed := Manage(entered, cfg, env, Some(dna));
      if managed.position.Some? {
        SignalManaged(managed, cfg, env, dna, bars, n + 1);
        ForcedManaged(managed, cfg, env, Some(dna), LiquidationOrder, AgentDeath, bars, n);
      }
    }
  }

  lemma SweepManaged(acct: Account, cfg: Config, env: Env, dna: Option<Dna>, faults: Faults, bars: seq<Bar>, n: nat)
    requires (forall r :: env.fillExit(r).ExitFilled?) && !faults.protect
    requires
      || ManagedUpTo(acct, bars, env.intervalMs, n)
      || (ManagedUpTo(acct, bars, env.intervalMs, n + 1) && WasEvaluated(acct))
    requires n < |bars| && env.bar == bars[n] && Chronological(bars)
    ensures ManagedUpTo(Sweep(acct, cfg, env, dna, faults), bars, env.intervalMs, n + 1)
  {
    hide Manage, ClosePosition;
    if acct.position.Some? && !Processed(acct.position.value, env.K()) {
      assert ManagedUpTo(acct, bars, env.intervalMs, n);
      ManageManaged(acct, cfg, env, dna, bars, n);
      StillOpenWasEvaluated(acct, cfg, env, dna);
      var managed := Manage(acct, cfg, env, dna);
      if managed.position.Some? {
        ForcedManaged(managed, cfg, env, dna, LiquidationOrder, AgentDeath, bars, n);
        ForcedManaged(managed, cfg, env, dna, MarketOrder, OrphanResolution, bars, n);
      }
    } else if acct.position.Some? && HeldUpTo(acct.position.value, bars, n) {
      NotYetProcessed(acct.position.value, bars, n);
    }
  }

  lemma CycleManaged(acct: Account, cfg: Config, e: Event, bars: seq<Bar>, n: nat, intervalMs: int, candles: Candles)
    requires n < |bars| && CycleOf(e, bars[n], intervalMs, candles) && Chronological(bars)
    requires ManagedUpTo(acct, bars, intervalMs, n)
    ensures ManagedUpTo(Step(acct, cfg, e), bars, intervalMs, n + 1)
  {
    hide ProcessAgent, Sweep;
    var env := e.env;
    if e.dna.Some? {
      ProcessManaged(acct, cfg, env, e.dna.value, bars, n);
    }
    SweepManaged(Decide(acct, cfg, env, e.dna, e.cycled, e.faults), cfg, env, e.dna, e.faults, bars, n);
  }

  lemma {:induction false} RunsManage(start: real, day: int, cfg: Config, events: seq<Event>, bars: seq<Bar>,
                                      intervalMs: int, candles: Candles)
    requires OnEveryBar(events, bars, intervalMs, candles) && Chronological(bars)
    ensures ManagedUpTo(Run(NewAccount(start, day), cfg, events), bars, intervalMs, |events|)
  {
    hide Step;
    if events != [] {
      var n := |events| - 1;
      RunsManage(start, day, cfg, events[..n], bars, intervalMs, candles);
      CycleManaged(Run(NewAccount(start, day), cfg, events[..n]), cfg, events[n], bars, n, intervalMs, candles);
    }
  }

  // ---------------------------------------------------------------- the replay of every trade

  lemma WindowTakesNext(bars: seq<Bar>, from: int, before: int, n: nat)
    requires 0 < n <= |bars|
    ensures Window(bars[..n], from, before)
         == Window(bars[..n - 1], from, before)
            + (if from <= bars[n - 1].openTime < before then [bars[n - 1]] else [])
  {
    assert bars[..n][..n - 1] == bars[..n - 1];
  }

  /** The bars from `m` on and before `x`, of the first `n`. */
  function Stretch(bars: seq<Bar>, m: nat, x: nat, n: nat): seq<Bar>
    requires m <= x < |bars| && n <= |bars|
  {
    if n <= m then [] else bars[m..if x <= n then x else n]
  }

  lemma StretchGrows(bars: seq<Bar>, m: nat, x: nat, n: nat)
    requires m <= x < |bars| && 0 < n <= |bars|
    ensures Stretch(bars, m, x, n) == Stretch(bars, m, x, n - 1) + (if m <= n - 1 < x then [bars[n - 1]] else [])
  {}

  lemma IndicesFollowTimes(bars: seq<Bar>, m: nat, x: nat, k: nat)
    requires Chronological(bars) && m < |bars| && x < |bars| && k < |bars|
    ensures bars[m].openTime <= bars[k].openTime < bars[x].openTime <==> m <= k < x
  {}

  lemma {:induction false} WindowIsStretch(bars: seq<Bar>, m: nat, x: nat, n: nat)
    requires Chronological(bars) && m <= x < |bars| && n <= |bars|
    ensures Window(bars[..n], bars[m].openTime, bars[x].openTime) == Stretch(bars, m, x, n)
  {
    hide Chronological, Window, Stretch;
    if n == 0 {
      NothingYet(bars, m, x);
    } else {
      WindowIsStretch(bars, m, x, n - 1);
      WindowTakesNext(bars, bars[m].openTime, bars[x].openTime, n);
      StretchGrows(bars, m, x, n);
      IndicesFollowTimes(bars, m, x, n - 1);
    }
  }

  lemma NothingYet(bars: seq<Bar>, m: nat, x: nat)
    requires m <= x < |bars|
    ensures Window(bars[..0], bars[m].openTime, bars[x].openTime) == Stretch(bars, m, x, 0)
  {}

  lemma {:induction false} ExitBarFound(bars: seq<Bar>, intervalMs: int, x: nat, n: nat)
    requires Spaced(bars, intervalMs) && intervalMs > 0 && x < n <= |bars|
    ensures ExitBar(bars[..n], bars[x].openTime + intervalMs - 1) == Some(bars[x].openTime)
  {
    if x < n - 1 {
      ExitBarFound(bars, intervalMs, x, n - 1);
      assert bars[..n][..n - 1] == bars[..n - 1];
    }
  }

  /** The managed bars of a trade are those of the replay window, and its exit bar too if it was closed at the close. */
  lemma ManagedBars(t: Trade, bars: seq<Bar>, intervalMs: int)
    requires TradeManaged(t, bars, intervalMs) && intervalMs > 0 && Spaced(bars, intervalMs)
    ensures ExitBar(bars, t.closedAt) == Some(t.exitBar)
    ensures Folded(t)
        == OpenTimes(Window(bars, t.position.entryBar, t.exitBar)) + (if AtTheClose(t.reason) then [t.exitBar] else [])
  {
    hide Folded, Window, ExitBar;
    var m: nat, x: nat :| ManagedFrom(t, bars, intervalMs, m, x);
    assert bars[..|bars|] == bars;
    ExitBarFound(bars, intervalMs, x, |bars|);
    WindowIsStretch(bars, m, x, |bars|);
    assert bars[m..x + 1] == bars[m..x] + [bars[x]];
    assert OpenTimes(bars[m..x + 1]) == OpenTimes(bars[m..x]) + [t.exitBar];
  }

  lemma ManagedTradeReplays(t: Trade, bars: seq<Bar>, intervalMs: int, candles: Candles)
    requires TradeTracked(t, candles) && TradeManaged(t, bars, intervalMs)
    requires intervalMs > 0 && Spaced(bars, intervalMs) && FromCandles(bars, candles)
    ensures Reproduced(t, bars, candles)
  {
    hide Checks, Folded, TradeTracked, TradeManaged, ExitBar, Window;
    ManagedBars(t, bars, intervalMs);
    if AtTheClose(t.reason) {
      ForcedCloseReproducedExactlyWhen(t, bars, candles, t.exitBar);
    } else {
      ReplayReproducesExtremes(t, bars, candles, t.exitBar);
    }
  }

  /** The analysis finds the exit bar and replays the stored extremes exactly; a trade forced out at the close of its
      last bar is reproduced if and only if that bar set no new extreme, and passes the cross-check if and only if the
      new extreme is within the allowance. */
  ghost predicate Reproduced(t: Trade, bars: seq<Bar>, candles: Candles) {
    var c := Checks(FactsOf(t), t.exitBar, bars);
    && ExitBar(bars, t.closedAt) == Some(t.exitBar)
    && (!AtTheClose(t.reason) ==> c.peak == t.position.peak && c.trough == t.position.trough && c.peakOk && c.troughOk)
    && (AtTheClose(t.reason) ==>
          && (c.peak == t.position.peak <==> candles(t.exitBar).high <= c.peak)
          && (c.trough == t.position.trough <==> candles(t.exitBar).low >= c.trough)
          && (c.peakOk <==> Tolerated(candles(t.exitBar).high - c.peak, t.position.entryPrice, c.peak))
          && (c.troughOk <==> Tolerated(c.trough - candles(t.exitBar).low, t.position.entryPrice, c.trough)))
  }

  /** The replay reproduces every trade of every such run. */
  lemma EveryTradeReplays(start: real, day: int, cfg: Config, events: seq<Event>, bars: seq<Bar>, intervalMs: int,
                          candles: Candles)
    requires OnEveryBar(events, bars, intervalMs, candles) && Spaced(bars, intervalMs) && FromCandles(bars, candles)
    ensures forall t :: t in Run(NewAccount(start, day), cfg, events).trades ==> Reproduced(t, bars, candles)
  {
    hide Run, Reproduced, TradeTracked, TradeManaged;
    RunsManage(start, day, cfg, events, bars, intervalMs, candles);
    assert forall k :: 0 <= k < |events| ==> FillingEvent(events[k], candles);
    RunsTrack(start, day, cfg, events, candles);
    forall t | t in Run(NewAccount(start, day), cfg, events).trades ensures Reproduced(t, bars, candles) {
      ManagedTradeReplays(t, bars, intervalMs, candles);
    }
  }
}
