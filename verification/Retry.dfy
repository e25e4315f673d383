/** Retrying a completed cycle on the same bar changes nothing, decision row or not, whatever the retry loads. */
module Retry {
  import opened Market
  import opened PnlEngine
  import opened PositionManager
  import opened Accounting
  import opened PaperLoop
  import opened Discipline
  import Protection

  const NO_FAULTS := Faults(false, false, false)

  /** A retry sees the same bar and the same signals. Everything else is read again and may have changed: the loaded
      settlements, halts, venue, risk verdicts and what the engine fills. */
  ghost predicate SameBar(env: Env, again: Env) {
    && again.bar == env.bar && again.intervalMs == env.intervalMs && again.nextOpen == env.nextOpen
    && again.signal == env.signal && again.capAudited == env.capAudited
  }

  /** The bar left no decision row. */
  ghost predicate Quiet(acct: Account, env: Env) { env.K() !in acct.decided }

  lemma ClosingIsLoud(acct: Account, cfg: Config, env: Env, dna: Option<Dna>, reference: real, kind: OrderKind,
                      reason: Reason)
    requires acct.position.Some?
    ensures !Quiet(ClosePosition(acct, cfg, env, dna, reference, kind, reason), env)
  {}

  ghost predicate SameClock(a: Agent, b: Agent) { a.dayStart == b.dayStart }

  /** A managed bar without a decision row is one the position survived. */
  ghost predicate OnlyManaged(a: Account, b: Account, env: Env) {
    && a.position.Some? && b.position.Some? && b == a.(agent := b.agent, position := b.position)
    && SameClock(a.agent, b.agent) && Processed(b.position.value, env.K())
    && b.position.value.side == a.position.value.side && b.position.value.pendingExit == a.position.value.pendingExit
  }

  lemma MarkQuiet(acct: Account, cfg: Config, env: Env, dna: Option<Dna>)
    requires acct.position.Some? && Processed(acct.position.value, env.K()) && Quiet(Mark(acct, cfg, env, dna), env)
    ensures OnlyManaged(acct, Mark(acct, cfg, env, dna), env)
  {}

  lemma ProtectQuiet(acct: Account, cfg: Config, env: Env, dna: Option<Dna>)
    requires acct.position.Some? && Quiet(Protect(acct, cfg, env, dna), env)
    ensures OnlyManaged(acct, Protect(acct, cfg, env, dna), env)
  {
    hide ClosePosition, Mark, EvaluateBar;
    var p := acct.position.value;
    var levels := LevelsOf(p, acct.agent.balance, cfg, dna);
    var held := acct.(position := Some(Evaluated(p, env.K())));
    var trigger := EvaluateBar(levels, env.bar, cfg.sameBarExtreme);
    if trigger.Some? {
      ClosingIsLoud(held, cfg, env, dna, trigger.value.reference, trigger.value.kind, trigger.value.reason);
    } else {
      MarkQuiet(held.(position := Some(Survived(Evaluated(p, env.K()), levels, env.bar))), cfg, env, dna);
    }
  }

  lemma ManageQuiet(acct: Account, cfg: Config, env: Env, dna: Option<Dna>)
    requires acct.position.Some? && Quiet(Manage(acct, cfg, env, dna), env)
    ensures OnlyManaged(acct, Manage(acct, cfg, env, dna), env)
  {
    hide Protect;
    var p := acct.position.value;
    if !Processed(p, env.K()) {
      Protection.ChargeKeepsRest(Holding(acct.agent, p), Due(env.rates, p.lastFunding, env.CloseMs()), env.bar.close);
      ProtectQuiet(Accrue(acct, env), cfg, env, dna);
    }
  }

  /** Nothing of the previous bar's decisions is left to execute. */
  ghost predicate NothingLeft(acct: Account) {
    if acct.position.Some? then acct.position.value.pendingExit.None? else NonePending(acct.orders)
  }

  lemma FillQuiet(acct: Account, cfg: Config, env: Env, dna: Dna, i: nat, timing: Timing)
    requires Disciplined(acct, timing) && Admissible(env, timing) && acct.position.None?
    requires i < |acct.orders| && acct.orders[i].status.Pending?
    requires Quiet(ExecutePendingEntry(acct, cfg, env, dna, i), env)
    ensures var b := ExecutePendingEntry(acct, cfg, env, dna, i);
      NothingLeft(b) && SameClock(acct.agent, b.agent)
  {}

  lemma NextOpenQuiet(acct: Account, cfg: Config, env: Env, dna: Dna, timing: Timing)
    requires Disciplined(acct, timing) && Admissible(env, timing)
    requires Quiet(ExecuteNextOpen(acct, cfg, env, dna), env)
    ensures var b := ExecuteNextOpen(acct, cfg, env, dna);
      NothingLeft(b) && SameClock(acct.agent, b.agent) && (acct.position.Some? ==> b.position.Some?)
  {
    hide ExecutePendingEntry, ClosePosition;
    if acct.position.Some? {
      var taken := acct.(position := Some(acct.position.value.(pendingExit := None)));
      ClosingIsLoud(taken, cfg, env, Some(dna), env.bar.open, MarketOrder, SignalExit);
    } else {
      PendingIndexBound(acct.orders);
      var i := PendingIndex(acct.orders);
      if i.Some? {
        FillQuiet(acct, cfg, env, dna, i.value, timing);
      }
    }
  }

  lemma FillKeepsDecisions(acct: Account, cfg: Config, env: Env, dna: Dna, i: nat, reference: real, immediate: bool)
    requires i < |acct.orders| && !Quiet(acct, env)
    ensures !Quiet(FillEntry(acct, cfg, env, dna, i, reference, immediate), env)
  {}

  /** On a flat account a quiet signal placed nothing. */
  lemma PlacingIsLoud(acct: Account, cfg: Config, env: Env, again: Env, dna: Dna)
    requires Quiet(PlaceEntry(acct, cfg, env, dna), env) && SameBar(env, again)
    ensures PlaceEntry(acct, cfg, env, dna) == acct && PlaceEntry(acct, cfg, again, dna) == acct
  {
    hide FillEntry, ApproveAgainstMargin;
    var verdict := env.risk(env.signal(None).side, acct.agent);
    var notional := ApprovedNotional(acct.agent, cfg, env, verdict);
    if verdict.Approved? {
      var order := Order(env.K(), env.signal(None).side, notional, verdict.leverage, env.intent, Pending);
      var placed := Decided(acct, env).(orders := acct.orders + [order]);
      FillKeepsDecisions(placed, cfg, env, dna, |acct.orders|, env.bar.close, true);
    }
  }

  lemma ExitingIsLoud(acct: Account, cfg: Config, env: Env, again: Env, dna: Dna)
    requires acct.position.Some? && Quiet(HoldOrExit(acct, cfg, env, dna), env) && SameBar(env, again)
    ensures HoldOrExit(acct, cfg, env, dna) == acct && HoldOrExit(acct, cfg, again, dna) == acct
  {
    hide ClosePosition;
    var taken := acct.(position := Some(Signalled(acct.position.value, env.K())));
    ClosingIsLoud(taken, cfg, env, Some(dna), env.bar.close, MarketOrder, SignalExit);
  }

  /** The rest of a quiet bar either did nothing at all or only managed the position, and would do nothing again. */
  lemma ManageAndSignalQuiet(acct: Account, cfg: Config, env: Env, again: Env, dna: Dna)
    requires NothingLeft(acct) && Quiet(ManageAndSignal(acct, cfg, env, dna), env) && SameBar(env, again)
    ensures var b := ManageAndSignal(acct, cfg, env, dna);
      && NothingLeft(b) && SameClock(acct.agent, b.agent) && b.position.Some? == acct.position.Some?
      && ManageAndSignal(b, cfg, again, dna) == b
  {
    hide ClosePosition, Protect, Accrue, PlaceEntry, HoldOrExit;
    if acct.position.None? {
      PlacingIsLoud(acct, cfg, env, again, dna);
    } else {
      var managed := Manage(acct, cfg, env, Some(dna));
      if Quiet(managed, env) {
        ManageQuiet(acct, cfg, env, Some(dna));
        if managed.agent.status.Dead? {
          ClosingIsLoud(managed, cfg, env, Some(dna), env.bar.close, LiquidationOrder, AgentDeath);
        } else {
          ExitingIsLoud(managed, cfg, env, again, dna);
        }
      } else {
        StaysLoud(managed, cfg, env, dna);
      }
    }
  }

  lemma StaysLoud(managed: Account, cfg: Config, env: Env, dna: Dna)
    requires !Quiet(managed, env) && managed.position.Some?
    ensures !Quiet(ClosePosition(managed, cfg, env, Some(dna), env.bar.close, LiquidationOrder, AgentDeath), env)
    ensures !Quiet(HoldOrExit(managed, cfg, env, dna), env)
  {}

  lemma NoPendingIndex(orders: seq<Order>)
    requires NonePending(orders)
    ensures PendingIndex(orders).None?
  {}

  lemma NothingToExecute(acct: Account, cfg: Config, env: Env, dna: Dna)
    requires NothingLeft(acct) && acct.agent.dayStart == Day(env.K())
    ensures AtTheOpen(acct, cfg, env, dna) == acct
  {
    NoPendingIndexWhenFlat(acct);
  }

  lemma NoPendingIndexWhenFlat(acct: Account)
    requires NothingLeft(acct)
    ensures acct.position.None? ==> PendingIndex(acct.orders).None?
  {
    if acct.position.None? {
      NoPendingIndex(acct.orders);
    }
  }

  /** An agent that is still active after a quiet bar is at a fixed point of processing. */
  lemma ProcessQuiet(acct: Account, cfg: Config, env: Env, again: Env, dna: Dna, timing: Timing)
    requires Disciplined(acct, timing) && Admissible(env, timing) && SameBar(env, again)
    requires var b := ProcessAgent(acct, cfg, env, dna); Quiet(b, env) && b.agent.status.Active?
    ensures var b := ProcessAgent(acct, cfg, env, dna);
      ProcessAgent(b, cfg, again, dna) == b
  {
    hide ExecuteNextOpen, ManageAndSignal;
    var rolled := acct.(agent := RollDay(acct.agent, env));
    var entered := AtTheOpen(acct, cfg, env, dna);
    var b := ProcessAgent(acct, cfg, env, dna);
    NextOpenKeeps(rolled, cfg, env, dna, timing);
    ManageAndSignalKeeps(entered, cfg, env, dna, timing);
    assert b == ManageAndSignal(entered, cfg, env, dna);
    NextOpenQuiet(rolled, cfg, env, dna, timing);
    ManageAndSignalQuiet(entered, cfg, env, again, dna);
    NothingToExecute(b, cfg, again, dna);
  }

  lemma NothingStale(orders: seq<Order>, cutoff: int)
    requires NonePending(orders)
    ensures CancelStale(orders, cutoff) == orders
  {}

  lemma CancelStaleTwice(orders: seq<Order>, cutoff: int)
    ensures CancelStale(CancelStale(orders, cutoff), cutoff) == CancelStale(orders, cutoff)
  {}

  lemma SweepIsLoudOrOpen(acct: Account, cfg: Config, env: Env, dna: Option<Dna>)
    requires acct.position.Some?
    ensures var b := Sweep(acct, cfg, env, dna, NO_FAULTS); b.position.Some? || !Quiet(b, env)
  {}

  /** After a completed cycle the decision phase of a retry finds nothing to do. */
  lemma DecisionIsFinal(acct: Account, cfg: Config, env: Env, again: Env, dna: Option<Dna>, cycled: bool,
                        timing: Timing)
    requires Disciplined(acct, timing) && Admissible(env, timing) && SameBar(env, again)
    ensures var c := Cycle(acct, cfg, env, dna, cycled, NO_FAULTS);
      forall faults :: Decide(c, cfg, again, dna, cycled, faults) == c
  {
    hide ProcessAgent, Sweep;
    var c := Cycle(acct, cfg, env, dna, cycled, NO_FAULTS);
    CycleKeeps(acct, cfg, env, dna, cycled, NO_FAULTS, timing);
    if cycled && c.agent.status.Active? && Quiet(c, env) {
      if dna.Some? {
        DecisionIsFinalForDna(acct, cfg, env, again, dna.value, timing);
      } else if acct.position.Some? {
        SweepIsLoudOrOpen(acct, cfg, env, dna);
      } else {
        PausedStaysPaused(acct, cfg, env);
      }
    }
  }

  lemma PausedStaysPaused(acct: Account, cfg: Config, env: Env)
    requires acct.position.None? && Quiet(acct, env)
    ensures !Cycle(acct, cfg, env, None, true, NO_FAULTS).agent.status.Active?
  {}

  lemma DecisionIsFinalForDna(acct: Account, cfg: Config, env: Env, again: Env, dna: Dna, timing: Timing)
    requires Disciplined(acct, timing) && Admissible(env, timing) && SameBar(env, again)
    requires acct.agent.status.Active? && Quiet(acct, env)
    requires var c := Cycle(acct, cfg, env, Some(dna), true, NO_FAULTS); c.agent.status.Active? && Quiet(c, env)
    ensures var c := Cycle(acct, cfg, env, Some(dna), true, NO_FAULTS);
      ProcessAgent(c, cfg, again, dna) == c
  {
    hide ProcessAgent, ProtectOne;
    var b := ProcessAgent(acct, cfg, env, dna);
    ProcessKeeps(acct, cfg, env, dna, timing);
    assert Sweep(b, cfg, env, Some(dna), NO_FAULTS) == b;
    ProcessQuiet(acct, cfg, env, again, dna, timing);
    QuietLeavesNonePending(acct, cfg, env, dna, timing);
    NothingStale(b.orders, env.K() - env.intervalMs);
  }

  lemma QuietLeavesNonePending(acct: Account, cfg: Config, env: Env, dna: Dna, timing: Timing)
    requires Disciplined(acct, timing) && Admissible(env, timing)
    requires var b := ProcessAgent(acct, cfg, env, dna); Quiet(b, env) && b.agent.status.Active?
    ensures NonePending(ProcessAgent(acct, cfg, env, dna).orders)
  {
    hide ExecuteNextOpen, ManageAndSignal;
    var rolled := acct.(agent := RollDay(acct.agent, env));
    var entered := AtTheOpen(acct, cfg, env, dna);
    ProcessKeeps(acct, cfg, env, dna, timing);
    NextOpenKeeps(rolled, cfg, env, dna, timing);
    ManageAndSignalKeeps(entered, cfg, env, dna, timing);
    NextOpenQuiet(rolled, cfg, env, dna, timing);
    ManageAndSignalQuiet(entered, cfg, env, env, dna);
  }

  /** Running a completed, failure-free cycle again on the same bar changes no account, position, order or trade,
      whatever the retry loads, however the engine, the Risk Engine or a halt would decide now, failing or not. */
  lemma RetryChangesNothing(acct: Account, cfg: Config, env: Env, again: Env, dna: Option<Dna>, cycled: bool,
                            timing: Timing)
    requires Disciplined(acct, timing) && Admissible(env, timing) && SameBar(env, again)
    ensures var c := Cycle(acct, cfg, env, dna, cycled, NO_FAULTS);
      forall faults :: Cycle(c, cfg, again, dna, cycled, faults) == c
  {
    hide Decide, ProtectOne;
    CycleKeeps(acct, cfg, env, dna, cycled, NO_FAULTS, timing);
    DecisionIsFinal(acct, cfg, env, again, dna, cycled, timing);
    var swept := Sweep(Decide(acct, cfg, env, dna, cycled, NO_FAULTS), cfg, env, dna, NO_FAULTS);
    CancelStaleTwice(swept.orders, env.K() - env.intervalMs);
  }

  /** A protective pass on the same bar after a completed cycle finds every open position processed, too. */
  lemma ProtectAfterCycleChangesNothing(acct: Account, cfg: Config, env: Env, dna: Option<Dna>, cycled: bool,
                                        timing: Timing)
    requires Disciplined(acct, timing) && Admissible(env, timing)
    ensures var c := Cycle(acct, cfg, env, dna, cycled, NO_FAULTS);
      forall later: Env, d, faults :: later.K() == env.K() ==> ProtectivePass(c, cfg, later, d, faults) == c
  {
    hide Decide, ProtectOne;
    CycleKeeps(acct, cfg, env, dna, cycled, NO_FAULTS, timing);
  }
}
