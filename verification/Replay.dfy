/** The trade-quality replay: recomputing a position's extremes from its candles reproduces what the loop stored. */
module Replay {
  import opened Market
  import opened PnlEngine
  import opened PositionManager
  import opened Accounting
  import opened PaperLoop
  import Protection
  import Survival

  /** The confirmed candle of each open time. */
  type Candles = int -> Bar

  function HighOver(entry: real, times: seq<int>, candles: Candles): real {
    if times == [] then entry else Max(HighOver(entry, times[..|times| - 1], candles), candles(times[|times| - 1]).high)
  }

  function LowOver(entry: real, times: seq<int>, candles: Candles): real {
    if times == [] then entry else Min(LowOver(entry, times[..|times| - 1], candles), candles(times[|times| - 1]).low)
  }

  /** The stored extremes are the entry price and the candles of these bars. */
  ghost predicate ExtremesOver(p: Position, times: seq<int>, candles: Candles) {
    p.peak == HighOver(p.entryPrice, times, candles) && p.trough == LowOver(p.entryPrice, times, candles)
  }

  /** The bars folded into a closed position's extremes: a bar whose own prices triggered the exit is not. */
  function Folded(t: Trade): seq<int> {
    if IsProtective(t.reason) && t.position.evaluations != []
    then t.position.evaluations[..|t.position.evaluations| - 1] else t.position.evaluations
  }

  ghost predicate TradeTracked(t: Trade, candles: Candles) {
    && ExtremesOver(t.position, Folded(t), candles)
    && (IsProtective(t.reason) ==>
          t.position.evaluations != [] && t.position.evaluations[|t.position.evaluations| - 1] == t.exitBar)
  }

  ghost predicate Tracked(acct: Account, candles: Candles) {
    && (acct.position.Some? ==> ExtremesOver(acct.position.value, acct.position.value.evaluations, candles))
    && (forall i :: 0 <= i < |acct.trades| ==> TradeTracked(acct.trades[i], candles))
  }

  /** The candle is the confirmed one, sane, and every exit order fills at once. */
  ghost predicate Filling(env: Env, candles: Candles) {
    env.bar == candles(env.K()) && Sane(env.bar) && (forall r :: env.fillExit(r).ExitFilled?)
  }

  // ---------------------------------------------------------------- every run keeps track

  lemma CloseTracks(acct: Account, cfg: Config, env: Env, dna: Option<Dna>, reference: real, kind: OrderKind,
                    reason: Reason, candles: Candles)
    requires acct.position.Some? && Filling(env, candles)
    requires forall i :: 0 <= i < |acct.trades| ==> TradeTracked(acct.trades[i], candles)
    requires forall t: Trade :: t.position == acct.position.value && t.reason == reason && t.exitBar == env.K() ==>
      TradeTracked(t, candles)
    ensures var b := ClosePosition(acct, cfg, env, dna, reference, kind, reason);
      Tracked(b, candles) && b.position.None?
  {}

  /** An exit for a reason other than the bar's own prices keeps the extremes as they are. */
  lemma OutsideCloseTracks(acct: Account, cfg: Config, env: Env, dna: Option<Dna>, reference: real, kind: OrderKind,
                           reason: Reason, candles: Candles)
    requires acct.position.Some? && Filling(env, candles) && Tracked(acct, candles) && !IsProtective(reason)
    ensures var b := ClosePosition(acct, cfg, env, dna, reference, kind, reason);
      Tracked(b, candles) && b.position.None?
  {}

  lemma SurvivalFolds(p: Position, levels: Levels, k: int, bar: Bar, candles: Candles)
    requires ExtremesOver(p, p.evaluations, candles) && bar == candles(k)
    requires levels.peak == Some(p.peak) && levels.trough == Some(p.trough)
    ensures var q := Survived(Evaluated(p, k), levels, bar); ExtremesOver(q, q.evaluations, candles)
  {}

  lemma ProtectTracks(acct: Account, cfg: Config, env: Env, dna: Option<Dna>, candles: Candles)
    requires acct.position.Some? && Filling(env, candles) && Tracked(acct, candles)
    ensures Tracked(Protect(acct, cfg, env, dna), candles)
  {
    hide ClosePosition, EvaluateBar, LiquidationPrice, Liquidatable;
    var p := acct.position.value;
    var levels := LevelsOf(p, acct.agent.balance, cfg, dna);
    var held := acct.(position := Some(Evaluated(p, env.K())));
    var trigger := EvaluateBar(levels, env.bar, cfg.sameBarExtreme);
    SurvivalFolds(p, levels, env.K(), env.bar, candles);
    if trigger.Some? {
      TriggersAreProtective(levels, env.bar, cfg.sameBarExtreme);
      CloseTracks(held, cfg, env, dna, trigger.value.reference, trigger.value.kind, trigger.value.reason, candles);
    } else {
      NeverLiquidatedAtClose(acct, cfg, env, dna);
    }
  }

  lemma NeverLiquidatedAtClose(acct: Account, cfg: Config, env: Env, dna: Option<Dna>)
    requires acct.position.Some? && Sane(env.bar)
    requires EvaluateBar(LevelsOf(acct.position.value, acct.agent.balance, cfg, dna), env.bar, cfg.sameBarExtreme).None?
    ensures var p := acct.position.value;
      !Liquidatable(p.side, p.entryPrice, p.quantity, acct.agent.balance, cfg.mmr, env.bar.close)
  {
    Survival.SurvivorHoldsItsMargin(LevelsOf(acct.position.value, acct.agent.balance, cfg, dna), env.bar,
                                    cfg.sameBarExtreme, acct.position.value.quantity, acct.agent.balance, cfg.mmr);
  }

  lemma ManageTracks(acct: Account, cfg: Config, env: Env, dna: Option<Dna>, candles: Candles)
    requires acct.position.Some? && Filling(env, candles) && Tracked(acct, candles)
    ensures Tracked(Manage(acct, cfg, env, dna), candles)
  {
    hide Protect;
    var p := acct.position.value;
    Protection.ChargeKeepsRest(Holding(acct.agent, p), Due(env.rates, p.lastFunding, env.CloseMs()), env.bar.close);
    ProtectTracks(Accrue(acct, env), cfg, env, dna, candles);
  }

  lemma FillTracks(acct: Account, cfg: Config, env: Env, dna: Dna, i: nat, reference: real, immediate: bool,
                   candles: Candles)
    requires i < |acct.orders| && acct.position.None? && Tracked(acct, candles)
    ensures Tracked(FillEntry(acct, cfg, env, dna, i, reference, immediate), candles)
  {}

  lemma OpenTracks(acct: Account, cfg: Config, env: Env, dna: Dna, candles: Candles)
    requires Filling(env, candles) && Tracked(acct, candles)
    ensures Tracked(AtTheOpen(acct, cfg, env, dna), candles)
  {
    hide ClosePosition, FillEntry;
    var rolled := acct.(agent := RollDay(acct.agent, env));
    if acct.position.Some? {
      var taken := rolled.(position := Some(acct.position.value.(pendingExit := None)));
      OutsideCloseTracks(taken, cfg, env, Some(dna), env.bar.open, MarketOrder, SignalExit, candles);
    } else {
      PendingIndexBound(acct.orders);
      var i := PendingIndex(acct.orders);
      if i.Some? {
        FillTracks(rolled, cfg, env, dna, i.value, env.bar.open, false, candles);
      }
    }
  }

  lemma SignalTracks(acct: Account, cfg: Config, env: Env, dna: Dna, candles: Candles)
    requires Filling(env, candles) && Tracked(acct, candles)
    ensures acct.position.Some? ==> Tracked(HoldOrExit(acct, cfg, env, dna), candles)
    ensures acct.position.None? ==> Tracked(PlaceEntry(acct, cfg, env, dna), candles)
  {}

  lemma ProcessTracks(acct: Account, cfg: Config, env: Env, dna: Dna, candles: Candles)
    requires Filling(env, candles) && Tracked(acct, candles)
    ensures Tracked(ProcessAgent(acct, cfg, env, dna), candles)
  {
    hide AtTheOpen, Manage, HoldOrExit, PlaceEntry, ClosePosition, StillHeld;
    var entered := AtTheOpen(acct, cfg, env, dna);
    OpenTracks(acct, cfg, env, dna, candles);
    if entered.position.None? {
      SignalTracks(entered, cfg, env, dna, candles);
    } else {
      ManageTracks(entered, cfg, env, Some(dna), candles);
      var managed := Manage(entered, cfg, env, Some(dna));
      if managed.position.Some? {
        SignalTracks(managed, cfg, env, dna, candles);
        OutsideCloseTracks(managed, cfg, env, Some(dna), env.bar.close, LiquidationOrder, AgentDeath, candles);
      }
    }
  }

  lemma SweepTracks(acct: Account, cfg: Config, env: Env, dna: Option<Dna>, faults: Faults, candles: Candles)
    requires Filling(env, candles) && Tracked(acct, candles)
    ensures Tracked(Sweep(acct, cfg, env, dna, faults), candles)
  {
    hide Manage, ClosePosition;
    if acct.position.Some? {
      ManageTracks(acct, cfg, env, dna, candles);
      var managed := Manage(acct, cfg, env, dna);
      if managed.position.Some? {
        OutsideCloseTracks(managed, cfg, env, dna, env.bar.close, LiquidationOrder, AgentDeath, candles);
        OutsideCloseTracks(managed, cfg, env, dna, env.bar.close, MarketOrder, OrphanResolution, candles);
      }
    }
  }

  ghost predicate FillingEvent(e: Event, candles: Candles) { !e.EndOfGeneration? ==> Filling(e.env, candles) }

  lemma StepTracks(acct: Account, cfg: Config, e: Event, candles: Candles)
    requires FillingEvent(e, candles) && Tracked(acct, candles)
    ensures Tracked(Step(acct, cfg, e), candles)
  {
    hide ProcessAgent, Sweep, ComputeTradePnL, SettleClose;
    match e
    case Candle(env, dna, cycled, faults) =>
      if dna.Some? {
        ProcessTracks(acct, cfg, env, dna.value, candles);
      }
      SweepTracks(Decide(acct, cfg, env, dna, cycled, faults), cfg, env, dna, faults, candles);
    case ProtectBar(env, dna, faults) =>
      SweepTracks(acct, cfg, env, dna, faults, candles);
    case EndOfGeneration(mark, feeRate, at) =>
  }

  lemma {:induction false} RunsTrack(start: real, day: int, cfg: Config, events: seq<Event>, candles: Candles)
    requires forall i :: 0 <= i < |events| ==> FillingEvent(events[i], candles)
    ensures Tracked(Run(NewAccount(start, day), cfg, events), candles)
  {
    if events != [] {
      RunsTrack(start, day, cfg, events[..|events| - 1], candles);
      StepTracks(Run(NewAccount(start, day), cfg, events[..|events| - 1]), cfg, events[|events| - 1], candles);
    }
  }

  // ---------------------------------------------------------------- the replay

  /** What the analysis is told of one closed trade, and what it finds. */
  datatype Facts = Facts(entryPrice: real, closedAt: int, entryBar: int, peak: real, trough: real)

  datatype CrossCheck = NoCoverage | Checked(exitBar: int, peak: real, trough: real, peakOk: bool, troughOk: bool)

  const TOLERANCE := 0.000000001

  /** The newest bar that had opened when the trade closed. */
  function ExitBar(bars: seq<Bar>, closedAt: int): Option<int> {
    if bars == [] then None
    else if bars[|bars| - 1].openTime <= closedAt then Some(bars[|bars| - 1].openTime)
    else ExitBar(bars[..|bars| - 1], closedAt)
  }

  function Window(bars: seq<Bar>, from: int, before: int): seq<Bar> {
    if bars == [] then []
    else Window(bars[..|bars| - 1], from, before)
         + (if from <= bars[|bars| - 1].openTime < before then [bars[|bars| - 1]] else [])
  }

  /** How far a stored extreme may be from the replayed one. */
  function Allowance(replayed: real, entry: real): real {
    Max(Max(TOLERANCE, TOLERANCE * Abs(entry)), TOLERANCE * Abs(replayed))
  }

  /** The gap is at most a billionth, in absolute terms or of either price. */
  ghost predicate Tolerated(gap: real, entry: real, replayed: real) {
    gap <= 0.000000001 || gap <= 0.000000001 * Abs(entry) || gap <= 0.000000001 * Abs(replayed)
  }

  predicate Close(persisted: real, replayed: real, entry: real) {
    Abs(persisted - replayed) <= Allowance(replayed, entry)
  }

  function Checks(f: Facts, exitBar: int, bars: seq<Bar>): CrossCheck {
    var managed := Window(bars, f.entryBar, exitBar);
    var peak, trough := Highest(f.entryPrice, managed), Lowest(f.entryPrice, managed);
    Checked(exitBar, peak, trough, Close(f.peak, peak, f.entryPrice), Close(f.trough, trough, f.entryPrice))
  }

  ghost predicate Chronological(bars: seq<Bar>) {
    forall i, j :: 0 <= i < j < |bars| ==> bars[i].openTime < bars[j].openTime
  }

  /** The analysis: scan for the exit bar, replay the bars before it, compare with what was stored. */
  method AnalyzeTrade(f: Facts, bars: seq<Bar>) returns (c: CrossCheck)
    requires Chronological(bars)
    ensures var exitBar := ExitBar(bars, f.closedAt);
      c == if exitBar.None? then NoCoverage else Checks(f, exitBar.value, bars)
  {
    hide Window, Highest, Lowest, Close;
    var exitBar: Option<int> := None;
    var i := 0;
    while i < |bars|
      invariant 0 <= i <= |bars|
      invariant exitBar == ExitBar(bars[..i], f.closedAt)
      invariant i > 0 ==> exitBar == Some(bars[i - 1].openTime)
    {
      assert bars[..i + 1][..i] == bars[..i];
      if bars[i].openTime > f.closedAt {
        LaterBarsDoNotCount(bars, i, f.closedAt);
        break;
      }
      exitBar := Some(bars[i].openTime);
      i := i + 1;
    }
    assert bars[..|bars|] == bars;
    if exitBar.None? {
      return NoCoverage;
    }
    var peak, trough := f.entryPrice, f.entryPrice;
    WindowStarts(f.entryPrice, bars, f.entryBar, exitBar.value);
    for j := 0 to |bars|
      invariant peak == Highest(f.entryPrice, Window(bars[..j], f.entryBar, exitBar.value))
      invariant trough == Lowest(f.entryPrice, Window(bars[..j], f.entryBar, exitBar.value))
    {
      WindowGrows(f.entryPrice, bars, j, f.entryBar, exitBar.value);
      if f.entryBar <= bars[j].openTime < exitBar.value {
        peak, trough := Max(peak, bars[j].high), Min(trough, bars[j].low);
      }
    }
    return Checked(exitBar.value, peak, trough, Close(f.peak, peak, f.entryPrice),
                   Close(f.trough, trough, f.entryPrice));
  }

  lemma WindowStarts(entry: real, bars: seq<Bar>, from: int, before: int)
    ensures Highest(entry, Window(bars[..0], from, before)) == Lowest(entry, Window(bars[..0], from, before)) == entry
  {}

  lemma WindowGrows(entry: real, bars: seq<Bar>, j: nat, from: int, before: int)
    requires j < |bars|
    ensures var was, now := Window(bars[..j], from, before), Window(bars[..j + 1], from, before);
      if from <= bars[j].openTime < before
      then
        && Highest(entry, now) == Max(Highest(entry, was), bars[j].high)
        && Lowest(entry, now) == Min(Lowest(entry, was), bars[j].low)
      else now == was
  {
    assert bars[..j + 1][..j] == bars[..j];
    var was := Window(bars[..j], from, before);
    assert (was + [bars[j]])[..|was|] == was;
  }

  lemma {:induction false} LaterBarsDoNotCount(bars: seq<Bar>, i: nat, closedAt: int)
    requires Chronological(bars) && i < |bars| && bars[i].openTime > closedAt
    ensures ExitBar(bars, closedAt) == ExitBar(bars[..i], closedAt)
  {
    if i < |bars| - 1 {
      LaterBarsDoNotCount(bars[..|bars| - 1], i, closedAt);
      assert bars[..|bars| - 1][..i] == bars[..i];
    } else {
      assert bars[..|bars| - 1] == bars[..i];
    }
  }

  function FactsOf(t: Trade): Facts {
    Facts(t.position.entryPrice, t.closedAt, t.position.entryBar, t.position.peak, t.position.trough)
  }

  function OpenTimes(bars: seq<Bar>): (ts: seq<int>)
    ensures |ts| == |bars| && forall i :: 0 <= i < |ts| ==> ts[i] == bars[i].openTime
  {
    seq(|bars|, i requires 0 <= i < |bars| => bars[i].openTime)
  }

  ghost predicate FromCandles(bars: seq<Bar>, candles: Candles) {
    forall b :: b in bars ==> b == candles(b.openTime)
  }

  lemma {:induction false} ReplayIsHistory(entry: real, bars: seq<Bar>, candles: Candles)
    requires FromCandles(bars, candles)
    ensures Highest(entry, bars) == HighOver(entry, OpenTimes(bars), candles)
    ensures Lowest(entry, bars) == LowOver(entry, OpenTimes(bars), candles)
  {
    if bars != [] {
      ReplayIsHistory(entry, bars[..|bars| - 1], candles);
      assert OpenTimes(bars)[..|bars| - 1] == OpenTimes(bars[..|bars| - 1]);
    }
  }

  lemma {:induction false} WindowMembers(bars: seq<Bar>, from: int, before: int, candles: Candles)
    requires FromCandles(bars, candles)
    ensures FromCandles(Window(bars, from, before), candles)
  {
    if bars != [] {
      WindowMembers(bars[..|bars| - 1], from, before, candles);
    }
  }

  /** The managed bars of a trade are exactly the bars of the replay window. */
  ghost predicate ManagedOnEveryBar(t: Trade, bars: seq<Bar>, exitBar: int) {
    Folded(t) == OpenTimes(Window(bars, t.position.entryBar, exitBar))
  }

  /** If the loop folded in exactly the bars of [entry bar, exit bar), the replay reproduces the stored extremes and the
      cross-check passes, whatever ended the trade. */
  lemma ReplayReproducesExtremes(t: Trade, bars: seq<Bar>, candles: Candles, exitBar: int)
    requires TradeTracked(t, candles) && ManagedOnEveryBar(t, bars, exitBar)
    requires FromCandles(bars, candles)
    ensures var c := Checks(FactsOf(t), exitBar, bars);
      c.peak == t.position.peak && c.trough == t.position.trough && c.peakOk && c.troughOk
  {
    var w := Window(bars, t.position.entryBar, exitBar);
    WindowMembers(bars, t.position.entryBar, exitBar, candles);
    ReplayIsHistory(t.position.entryPrice, w, candles);
  }

  /** A trade that was also managed on its exit bar - a forced close at that bar's close, or a pending exit that a retry
      executed after the bar's protective pass - is reproduced if and only if that bar set no new extreme, and passes
      the cross-check if and only if the new extreme is within the allowance. */
  lemma ForcedCloseReproducedExactlyWhen(t: Trade, bars: seq<Bar>, candles: Candles, exitBar: int)
    requires TradeTracked(t, candles) && Folded(t) == OpenTimes(Window(bars, t.position.entryBar, exitBar)) + [exitBar]
    requires FromCandles(bars, candles)
    ensures var c := Checks(FactsOf(t), exitBar, bars);
      && (c.peak == t.position.peak <==> candles(exitBar).high <= c.peak)
      && (c.trough == t.position.trough <==> candles(exitBar).low >= c.trough)
      && c.peak <= t.position.peak && t.position.trough <= c.trough
      && (c.peakOk <==> Tolerated(candles(exitBar).high - c.peak, t.position.entryPrice, c.peak))
      && (c.troughOk <==> Tolerated(c.trough - candles(exitBar).low, t.position.entryPrice, c.trough))
  {
    var w := Window(bars, t.position.entryBar, exitBar);
    WindowMembers(bars, t.position.entryBar, exitBar, candles);
    ReplayIsHistory(t.position.entryPrice, w, candles);
    assert (OpenTimes(w) + [exitBar])[..|w|] == OpenTimes(w);
  }
}
