/** Positions nobody may hold: every pass brings them closer to a forced settlement. */
module Orphans {
  import opened Market
  import opened Accounting
  import opened PaperLoop
  import opened Protection

  /** A pass that reaches an orphan: a committed cycle or protective pass on a new bar, off the live venue. */
  ghost predicate Reaches(e: Event, acct: Account) {
    && CompletePass(e) && !e.env.live
    && (acct.position.Some? ==> !Processed(acct.position.value, e.env.K()))
  }

  /** Every event of the run reaches the account as it is then. */
  ghost predicate ReachesAll(acct: Account, cfg: Config, events: seq<Event>) {
    events == [] ||
    (&& ReachesAll(acct, cfg, events[..|events| - 1])
     && Reaches(events[|events| - 1], Run(acct, cfg, events[..|events| - 1])))
  }

  /** One pass closes the orphan or brings it one attempt closer to the limit. */
  lemma PassResolves(acct: Account, cfg: Config, e: Event)
    requires acct.position.Some? && !acct.agent.status.Active? && Reaches(e, acct)
    ensures var b := Step(acct, cfg, e);
      && !b.agent.status.Active?
      && (b.position.Some? ==> acct.position.value.exitAttempts < b.position.value.exitAttempts < cfg.forceSettleAfter)
  {
    hide ProtectOne;
    ProtectOneKeeps(acct, cfg, e.env, e.dna);
  }

  lemma FlatStaysFlat(acct: Account, cfg: Config, e: Event)
    requires acct.position.None? && !acct.agent.status.Active? && Reaches(e, acct)
    ensures var b := Step(acct, cfg, e); b.position.None? && !b.agent.status.Active?
  {}

  /** However often the engine refuses the exit, in whatever fill timing, an orphan is closed after
      `forceSettleAfter - exitAttempts` passes. */
  lemma {:induction false} OrphanIsResolved(acct: Account, cfg: Config, events: seq<Event>)
    requires acct.position.Some? && !acct.agent.status.Active? && ReachesAll(acct, cfg, events)
    ensures var b := Run(acct, cfg, events);
      && !b.agent.status.Active?
      && (b.position.Some? ==> b.position.value.exitAttempts >= acct.position.value.exitAttempts + |events|
                               && (events != [] ==> b.position.value.exitAttempts < cfg.forceSettleAfter))
      && (events != [] && |events| >= cfg.forceSettleAfter - acct.position.value.exitAttempts ==> b.position.None?)
  {
    if events != [] {
      var init, last := events[..|events| - 1], events[|events| - 1];
      OrphanIsResolved(acct, cfg, init);
      var mid := Run(acct, cfg, init);
      if mid.position.Some? {
        PassResolves(mid, cfg, last);
      } else {
        FlatStaysFlat(mid, cfg, last);
      }
    }
  }

  /** An owner that dies on a bar does not keep the position unless the engine refused its exit on that bar. */
  lemma DeathLeavesNothingUntried(acct: Account, cfg: Config, env: Env, dna: Dna)
    requires acct.position.Some?
    ensures var b := ManageAndSignal(acct, cfg, env, dna);
      b.agent.status.Dead? && b.position.Some? ==> b.position.value.exitAttempts > acct.position.value.exitAttempts
  {
    hide Manage, ClosePosition;
    var managed := Manage(acct, cfg, env, Some(dna));
    ManageKeeps(acct, cfg, env, Some(dna));
    if managed.position.Some? {
      CloseShape(managed, cfg, env, Some(dna), env.bar.close, LiquidationOrder, AgentDeath);
      ManagedOnward(acct, managed);
      var p := Signalled(managed.position.value, env.K());
      CloseShape(managed.(position := Some(p)), cfg, env, Some(dna), env.bar.close, MarketOrder, SignalExit);
    }
  }

  lemma ManagedOnward(a: Account, b: Account)
    requires a.position.Some? && b.position.Some? && Forward(a, b) && |a.trades| == |b.trades|
    ensures b.position.value.exitAttempts >= a.position.value.exitAttempts
  {}
}
