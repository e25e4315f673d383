/** What a bar that touched no protective level can still do to a position: nothing but mark it. */
module Survival {
  import opened Market
  import opened PnlEngine
  import opened PositionManager
  import opened Accounting
  import opened PaperLoop

  /** A bar that survives its evaluation closes with the margin intact. */
  lemma SurvivorHoldsItsMargin(l: Levels, bar: Bar, sameBarExtreme: bool, quantity: real, balance: real, mmr: Fraction)
    requires Sane(bar) && quantity > 0.0
    requires l.liquidation == LiquidationPrice(l.side, l.entryPrice, quantity, balance, mmr)
    requires EvaluateBar(l, bar, sameBarExtreme).None?
    ensures !Liquidatable(l.side, l.entryPrice, quantity, balance, mmr, bar.close)
  {
    LiquidationNotHit(l, bar, sameBarExtreme);
    LiquidationPriceIsTheMarginThreshold(l.side, l.entryPrice, quantity, balance, mmr, bar.close);
  }

  lemma LiquidationNotHit(l: Levels, bar: Bar, sameBarExtreme: bool)
    requires Sane(bar) && EvaluateBar(l, bar, sameBarExtreme).None?
    ensures l.liquidation.Some? ==> !AtOrBeyond(l.side, bar.close, l.liquidation.value)
  {}

  lemma MarginIsPositive(side: Side, entryPrice: real, quantity: real, balance: real, mmr: Fraction, mark: real)
    requires quantity > 0.0 && mark > 0.0 && !Liquidatable(side, entryPrice, quantity, balance, mmr, mark)
    ensures Equity(side, entryPrice, quantity, balance, mark) > 0.0
  {}

  /** The liquidation-at-close branch is never taken, and the mark kills the owner exactly when its equity is at or
      below the bankruptcy level; with no bankruptcy fraction, never. */
  lemma SurvivedBarOnlyMarks(acct: Account, cfg: Config, env: Env, dna: Option<Dna>)
    requires acct.position.Some? && Sane(env.bar)
    requires var p := acct.position.value;
      EvaluateBar(LevelsOf(p, acct.agent.balance, cfg, dna), env.bar, cfg.sameBarExtreme).None?
    ensures var p := acct.position.value;
      var q := Survived(Evaluated(p, env.K()), LevelsOf(p, acct.agent.balance, cfg, dna), env.bar);
      var equity := Equity(p.side, p.entryPrice, p.quantity, acct.agent.balance, env.bar.close);
      && Protect(acct, cfg, env, dna) == acct.(position := Some(q), agent := SetEquity(acct.agent, equity, cfg))
      && equity > 0.0
      && (!acct.agent.status.Dead? ==>
            (SetEquity(acct.agent, equity, cfg).status.Dead?
             <==> equity <= acct.agent.startingBalance * cfg.bankruptcyFraction))
  {
    hide EvaluateBar, LiquidationPrice, ClosePosition, Equity;
    var p := acct.position.value;
    var levels := LevelsOf(p, acct.agent.balance, cfg, dna);
    SurvivorHoldsItsMargin(levels, env.bar, cfg.sameBarExtreme, p.quantity, acct.agent.balance, cfg.mmr);
    MarginIsPositive(p.side, p.entryPrice, p.quantity, acct.agent.balance, cfg.mmr, env.bar.close);
  }

  // ---------------------------------------------------------------- a bar that it does not survive

  /** The engine fills at the modelled price and fee. */
  ghost predicate FillsAsModelled(env: Env, cfg: Config) {
    forall r :: env.fillExit(r)
      == ExitFilled(ExitQuote(r.side, r.quantity, r.reference, r.kind, cfg.costs).price,
                    ExitQuote(r.side, r.quantity, r.reference, r.kind, cfg.costs).fee)
  }

  /** Slippage, fee and penalty of this exit together fit in the maintenance margin. */
  predicate CostsFit(t: Trigger, quantity: real, cfg: Config) {
    var s, f := OrderSlippage(quantity, t.reference, t.kind, cfg.costs), ChargeFraction(t.kind, cfg.costs);
    0.0 <= s && 0.0 <= f && s + f * (1.0 + s) <= cfg.mmr
  }

  /** The shortfall that a close at this price and fee leaves. */
  function Shortfall(p: Position, balance: real, price: real, fee: real): real {
    SettleClose(balance, (price - p.entryPrice) * p.quantity * Direction(p.side), fee).badDebt
  }

  lemma ShortfallAt(p: Position, balance: real, price: real, fee: real, reference: real, s: real, f: real)
    requires price == reference * (if p.side.Long? then 1.0 - s else 1.0 + s) && fee == price * p.quantity * f
    ensures Shortfall(p, balance, price, fee)
         == SettleAt(p.side, p.entryPrice, p.quantity, balance, reference, s, f).badDebt
  {}

  lemma BooksItsShortfall(acct: Account, cfg: Config, env: Env, dna: Option<Dna>, p: Position, price: real,
                          exitFee: real, kind: OrderKind, reason: Reason)
    ensures var b := Book(acct, cfg, env, dna, p, price, exitFee, kind, reason, false);
      var debt := Shortfall(p, acct.agent.balance, price, exitFee);
      && b.position.None? && |b.trades| == |acct.trades| + 1 && b.trades[|acct.trades|].badDebt == debt
      && b.agent.badDebt == acct.agent.badDebt + debt
  {
    hide BankruptcyLevel, DrawdownAfter, MilestoneAfter;
  }

  /** The trade that an adverse exit books carries no bad debt: unless the bar opens beyond the liquidation price, the
      account covers the loss whenever the costs of the exit fit in the maintenance margin. */
  lemma AdverseExitBooksNoBadDebt(acct: Account, cfg: Config, env: Env, dna: Option<Dna>, t: Trigger)
    requires acct.position.Some? && Sane(env.bar) && FillsAsModelled(env, cfg)
    requires var l := LevelsOf(acct.position.value, acct.agent.balance, cfg, dna);
      && EvaluateBar(l, env.bar, cfg.sameBarExtreme) == Some(t) && IsAdverse(t)
      && (l.liquidation.Some? ==> !AtOrBeyond(l.side, env.bar.open, l.liquidation.value))
    requires CostsFit(t, acct.position.value.quantity, cfg)
    ensures var b := Protect(acct, cfg, env, dna);
      && b.position.None? && |b.trades| == |acct.trades| + 1 && b.trades[|acct.trades|].badDebt == 0.0
      && b.agent.badDebt == acct.agent.badDebt
  {
    hide EvaluateBar, LiquidationPrice, Book, ExitPrice, OrderSlippage, ChargeFraction, SettleAt, Shortfall;
    var p, balance := acct.position.value, acct.agent.balance;
    var l := LevelsOf(p, balance, cfg, dna);
    var s, f := OrderSlippage(p.quantity, t.reference, t.kind, cfg.costs), ChargeFraction(t.kind, cfg.costs);
    var price := ExitPrice(p.side, p.quantity, t.reference, t.kind, cfg.costs);
    var quote := ExitQuote(p.side, p.quantity, t.reference, t.kind, cfg.costs);
    var fee := quote.fee + LiquidationPenalty(t.kind, price, p.quantity, cfg.costs);
    var held := Decided(acct.(position := Some(Evaluated(p, env.K()))), env);
    AdverseExitLeavesNoBadDebt(l, env.bar, cfg.sameBarExtreme, t, p.quantity, balance, cfg.mmr, s, f);
    CostsAreFractions(p.side, p.quantity, t.reference, t.kind, cfg.costs);
    ShortfallAt(Evaluated(p, env.K()), balance, price, fee, t.reference, s, f);
    BooksItsShortfall(held, cfg, env, dna, Evaluated(p, env.K()), price, fee, t.kind, t.reason);
    ProtectBooks(acct, cfg, env, dna, t, quote);
  }

  lemma ProtectBooks(acct: Account, cfg: Config, env: Env, dna: Option<Dna>, t: Trigger, quote: Quote)
    requires acct.position.Some? && FillsAsModelled(env, cfg)
    requires EvaluateBar(LevelsOf(acct.position.value, acct.agent.balance, cfg, dna), env.bar, cfg.sameBarExtreme)
        == Some(t)
    requires quote == ExitQuote(acct.position.value.side, acct.position.value.quantity, t.reference, t.kind, cfg.costs)
    ensures var p := Evaluated(acct.position.value, env.K());
      var held := Decided(acct.(position := Some(p)), env);
      Protect(acct, cfg, env, dna)
        == Book(held, cfg, env, dna, p, quote.price,
                quote.fee + LiquidationPenalty(t.kind, quote.price, p.quantity, cfg.costs), t.kind, t.reason, false)
  {
    hide EvaluateBar, LiquidationPrice, Book, ExitQuote, LiquidationPenalty;
    var r := ExitOrder(Evaluated(acct.position.value, env.K()), env, t.reference, t.kind);
    assert env.fillExit(r) == ExitFilled(quote.price, quote.fee);
  }
}
