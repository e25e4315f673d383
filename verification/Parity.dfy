/** Paper and backtest are the same machine: on the same candles they hold the same cash, positions and trades. */
module Parity {
  import opened Market
  import opened PnlEngine
  import opened PositionManager
  import opened Accounting
  import opened PaperLoop
  import Protection
  import opened Discipline
  import opened Backtest
  import opened Survival
  import opened LotRules
  import Funding
  import Ledger
  import Retry

  // ---------------------------------------------------------------- the paper side of a backtest

  /** The paper adapter without its random rejects, partial fills and latency drift. */
  function EngineEntry(cfg: Config, r: EntryRequest): EntryResult {
    var quantity := cfg.quantityStep(r.quantity);
    if r.reference <= 0.0 || !Tradeable(cfg, quantity, r.reference) then EntryRefused
    else
      var quote := EntryQuote(r.side, quantity, r.reference, cfg.costs);
      EntryFilled(quote.price, quantity, quote.fee)
  }

  function EngineExit(cfg: Config, r: ExitRequest): ExitResult {
    var quote := ExitQuote(r.side, r.quantity, r.reference, r.kind, cfg.costs);
    ExitFilled(quote.price, quote.fee)
  }

  function SizeOf(d: Data, i: nat, side: Side, a: Agent): Sizing
    requires i < |d.bars|
  {
    d.strategy.size(d.Prefix(i), side, SizingView(a.balance, a.peakEquity, a.dayStartEquity))
  }

  function IntentAt(d: Data, i: nat): Intent
    requires i < |d.bars|
  {
    var c := d.strategy.context(d.Prefix(i));
    if c.Some? then c.value else Intent(0.0, None, None)
  }

  /** What the live cycle of bar `i` is given, with the settlements it loaded. */
  function PaperEnv(d: Data, cfg: Config, i: nat, loaded: seq<Rate>): Env
    requires i < |d.bars|
  {
    Env(d.bars[i], d.intervalMs, loaded, false, true, true, false, false, IntentAt(d, i),
        s => d.strategy.signal(d.Prefix(i), s),
        (side, a) => Approved(SizeOf(d, i, side, a).notional, SizeOf(d, i, side, a).leverage),
        r => EngineEntry(cfg, r),
        r => EngineExit(cfg, r))
  }

  /** The paper account after the cycles of bars `first` to `i - 1`. */
  function PaperRun(d: Data, cfg: Config, loads: nat -> seq<Rate>, day: int, i: nat): Account
    requires i <= |d.bars|
  {
    if i <= d.first then NewAccount(d.start, day)
    else Cycle(PaperRun(d, cfg, loads, day, i - 1), cfg, PaperEnv(d, cfg, i - 1, loads(i - 1)),
               Some(d.strategy.dna), true, Retry.NO_FAULTS)
  }

  /** The paper account inside the cycle of bar `i`, once the previous bar's decisions are executed at its open. */
  function PaperAtOpen(d: Data, cfg: Config, loads: nat -> seq<Rate>, day: int, i: nat): Account
    requires i < |d.bars|
  {
    AtTheOpen(PaperRun(d, cfg, loads, day, i), cfg, PaperEnv(d, cfg, i, loads(i)), d.strategy.dna)
  }

  // ---------------------------------------------------------------- what is compared

  ghost predicate SamePosition(p: Position, q: BtPos, d: Data) {
    && p.side == q.side && p.quantity == q.quantity && p.entryPrice == q.entryPrice && p.entryFee == q.entryFee
    && p.stopLoss == q.stop && p.takeProfit == q.tp && p.trailingDistance == q.trailDistance
    && p.trailingActive == q.trailingActive && p.peak == q.peak && p.trough == q.trough
    && p.lastFunding == q.lastFunding && p.fundingAccrued == q.funding
    && 0 <= q.entryIndex < |d.bars| && p.entryBar == d.bars[q.entryIndex].openTime
  }

  /** The order kind that the backtest gives each reason. */
  function KindOf(r: Reason): OrderKind {
    match r
    case Liquidation => LiquidationOrder
    case StopLoss => StopOrder
    case TrailingStop => StopOrder
    case TakeProfit => TakeProfitOrder
    case _ => MarketOrder
  }

  ghost predicate SameTrade(t: Trade, b: BtTrade, d: Data) {
    && t.position.side == b.side && t.position.quantity == b.quantity && t.position.entryPrice == b.entryPrice
    && t.exitPrice == b.exitPrice && t.net == b.net && t.fees == b.fee && t.funding == b.funding
      && t.badDebt == b.badDebt
    && t.reason == b.reason && t.kind == KindOf(b.reason) && !t.forced
    && 0 <= b.entryIndex < |d.bars| && t.position.entryBar == d.bars[b.entryIndex].openTime
    && 0 <= b.exitIndex < |d.bars| && t.exitBar == d.bars[b.exitIndex].openTime
  }

  ghost predicate SameTrades(trades: seq<Trade>, bts: seq<BtTrade>, d: Data) {
    |trades| == |bts| && forall k :: 0 <= k < |trades| ==> SameTrade(trades[k], bts[k], d)
  }

  /** The open time of bar `j`, in the window or past it. */
  function TimeOf(d: Data, j: int): int
    requires d.bars != []
  {
    d.bars[0].openTime + j * d.intervalMs
  }

  ghost predicate SameCooldown(a: Agent, st: Bt, d: Data)
    requires d.bars != []
  {
    match a.cooldownUntil
    case None => st.cooldownUntil <= 0
    case Some(ms) => ms == TimeOf(d, st.cooldownUntil)
  }

  /** The same cash, bad debt, funding, cooldown and trades. */
  ghost predicate SameCash(a: Account, st: Bt, d: Data)
    requires d.bars != []
  {
    && a.agent.startingBalance == d.start && a.agent.balance == st.balance
    && a.agent.badDebt == st.totalBadDebt && a.agent.fundingPaid == st.totalFunding
    && SameCooldown(a.agent, st, d) && SameTrades(a.trades, st.trades, d)
  }

  /** The same cash, and dead or alive together. */
  ghost predicate SameBooks(a: Account, st: Bt, d: Data)
    requires d.bars != []
  {
    SameCash(a, st, d) && a.agent.status == (if st.dead then Dead else Active)
  }

  /** Paper at the open of bar `i` against the backtest before iteration `i`. */
  ghost predicate Parallel(a: Account, st: Bt, d: Data, i: nat)
    requires i < |d.bars|
  {
    && SameBooks(a, st, d) && st.stopped == st.dead
    && (match st.pos
        case None => a.position.None? && a.agent.equity == st.balance && st.balance >= 0.0
          && (st.dead || st.balance > 0.0)
        case Some(q) => a.position.Some? && SamePosition(a.position.value, q, d) && q.entryIndex <= i && !st.dead
                        && a.position.value.pendingExit.None? && !Processed(a.position.value, d.bars[i].openTime))
    && NonePending(a.orders) && a.agent.dayStart == Day(d.bars[i].openTime)
  }

  // ---------------------------------------------------------------- the setting

  ghost predicate Contiguous(d: Data) {
    && d.bars != [] && (forall j :: 0 <= j < |d.bars| ==> Sane(d.bars[j]) && d.bars[j].openTime == TimeOf(d, j))
  }

  /** An account is bankrupt when nothing is left, which is the default. */
  predicate NoFraction(cfg: Config) { cfg.bankruptcyFraction == 0.0 }

  predicate NothingIsNoLot(cfg: Config) { cfg.quantityStep(0.0) <= 0.0 }

  ghost predicate Comparable(d: Data, cfg: Config) {
    && d.Valid() && Contiguous(d) && NoFraction(cfg) && NothingIsNoLot(cfg) && AscendingRates(d.funding)
      && d.start > 0.0
    && (forall i :: d.first <= i < d.last ==> d.strategy.context(d.Prefix(i)).Some?)
  }

  /** Of a notional that the close of bar `i` refuses for its size, the next open trades nothing. */
  predicate RefusalStands(d: Data, cfg: Config, i: nat, notional: real)
    requires i + 1 < |d.bars|
  {
    var open := d.bars[i + 1].open;
    cfg.belowMinimum(notional, d.bars[i].close) ==>
      !Tradeable(cfg, cfg.quantityStep(if open > 0.0 then notional / open else 0.0), open)
  }

  /** An entry signalled on bar `i`, on which both are flat, comes out the same in both: the risk checks - which see
      each machine's own anchors - grant the same size, a refusal for size stands, and it fills before midnight. */
  ghost predicate EntryAgrees(a: Agent, r: Bt, d: Data, cfg: Config, i: nat)
    requires i + 1 < |d.bars|
  {
    var side := d.strategy.signal(d.Prefix(i), None).side;
    EntryDue(r, d, i) && r.dailyTrades < d.strategy.dna.maxTradesPerDay ==>
      && SizeOf(d, i, side, a) == BtSize(r, d, i, side)
      && RefusalStands(d, cfg, i, Notional(d, i, side, a))
      && (BtEnter(r, d, cfg, i, side, IntentAt(d, i)).pos.Some? ==>
            Day(d.bars[i + 1].openTime) == Day(d.bars[i].openTime))
  }

  /** The daily counters of two living machines at the open of bar `i`, each on its new day. */
  ghost predicate SameCount(a: Agent, st: Bt, d: Data, i: nat)
    requires i < |d.bars|
  {
    !st.dead ==> a.dailyTradeCount == BtRollDay(st, d, i).dailyTrades
  }

  /** Paper would not retire this account for being too small to trade. */
  predicate Viable(c: Bt, cfg: Config) { c.pos.None? && !c.dead ==> c.balance >= cfg.minViableEquity }

  /** What the loads bring covers what the backtest's position owes on bar `i`. */
  ghost predicate Loaded(st: Bt, d: Data, i: nat, loaded: seq<Rate>)
    requires i < |d.bars|
  {
    st.pos.Some? ==>
      Due(loaded, st.pos.value.lastFunding, d.CloseMs(i)) == Due(d.funding, st.pos.value.lastFunding, d.CloseMs(i))
  }

  /** Of the actual states at the open of bar `i`: paper does not retire what it leaves flat, and an entry signalled on
      this bar comes out the same. */
  ghost predicate Steady(e: Account, st: Bt, d: Data, cfg: Config, i: nat)
    requires i < |d.bars| && d.last <= |d.bars|
  {
    var r := BtRollDay(st, d, i);
    && (!st.dead ==> Viable(BtManage(r, d, cfg, i), cfg))
    && (!st.dead && st.pos.None? && i + 1 < d.last ==> EntryAgrees(e.agent, r, d, cfg, i))
  }

  /** Of the actual run on bar `i`: it is steady, no entry fee has emptied the account, and the loads cover. */
  ghost predicate Undisturbed(d: Data, cfg: Config, loads: nat -> seq<Rate>, day: int, i: nat)
    requires i < |d.bars| && d.last <= |d.bars|
  {
    var st := BtRun(d, cfg, i);
    && Steady(PaperAtOpen(d, cfg, loads, day, i), st, d, cfg, i)
    && NotEmptied(st) && Loaded(st, d, i, loads(i))
  }

  /** No entry fee took the last of the cash. */
  predicate NotEmptied(st: Bt) { !(st.dead && st.pos.Some?) }

  // ---------------------------------------------------------------- closing agrees

  lemma CooldownAgrees(d: Data, at: int, bars: nat)
    requires d.bars != []
    ensures TimeOf(d, at) + bars * d.intervalMs == TimeOf(d, at + bars)
  {}

  /** Both machines settle a close in the same way. */
  lemma SettleAgrees(a: Account, st: Bt, d: Data, cfg: Config, env: Env, p: Position, q: BtPos, reference: real,
                     kind: OrderKind, reason: Reason, at: int)
    requires Contiguous(d) && SameBooks(a, st, d) && SamePosition(p, q, d) && !st.dead
    requires 0 <= at < |d.bars| && env.K() == d.bars[at].openTime && env.intervalMs == d.intervalMs
    requires kind == KindOf(reason)
    ensures var quote := ExitQuote(p.side, p.quantity, reference, kind, cfg.costs);
      var b := Settle(a, cfg, env, Some(d.strategy.dna), p, quote.price, quote.fee, kind, reason, false);
      var c := BtClose(st, d, cfg, q, reference, kind, reason, at);
      && SameBooks(b, c, d) && b.position.None? && c.pos.None? && b.agent.equity == c.balance && c.balance >= 0.0
      && (c.dead || c.balance > 0.0)
      && (c.dead && !reason.Liquidation? ==> c.balance <= Max(0.0, d.start * cfg.bankruptcyFraction))
      && b.orders == a.orders && b.decided == a.decided
      && b.agent.dailyTradeCount == a.agent.dailyTradeCount && b.agent.dayStart == a.agent.dayStart
      && c.stopped == st.stopped && c.day == st.day && c.dailyTrades == st.dailyTrades
  {
    hide ExitQuote;
    var quote := ExitQuote(p.side, p.quantity, reference, kind, cfg.costs);
    BookAgrees(a, st, d, cfg, env, p, q, quote.price,
               quote.fee + LiquidationPenalty(kind, quote.price, p.quantity, cfg.costs),
               kind, reason, at);
  }

  lemma BookAgrees(a: Account, st: Bt, d: Data, cfg: Config, env: Env, p: Position, q: BtPos, price: real, fee: real,
                   kind: OrderKind, reason: Reason, at: int)
    requires Contiguous(d) && SameBooks(a, st, d) && SamePosition(p, q, d) && !st.dead
    requires 0 <= at < |d.bars| && env.K() == d.bars[at].openTime && env.intervalMs == d.intervalMs
    requires kind == KindOf(reason)
    ensures var b := Book(a, cfg, env, Some(d.strategy.dna), p, price, fee, kind, reason, false);
      var c := BtBook(st, d, cfg, q, price, fee, reason, at);
      && SameBooks(b, c, d) && b.position.None? && c.pos.None? && b.agent.equity == c.balance && c.balance >= 0.0
      && (c.dead || c.balance > 0.0)
      && (c.dead && !reason.Liquidation? ==> c.balance <= Max(0.0, d.start * cfg.bankruptcyFraction))
      && b.orders == a.orders && b.decided == a.decided
      && b.agent.dailyTradeCount == a.agent.dailyTradeCount && b.agent.dayStart == a.agent.dayStart
      && c.stopped == st.stopped && c.day == st.day && c.dailyTrades == st.dailyTrades
  {
    hide DrawdownAfter, MilestoneAfter, SameTrades;
    var pnl := ComputeTradePnL(p.side, p.quantity, p.entryPrice, price, p.entryFee, fee, p.fundingAccrued);
    Ledger.AfterCloseKeepsCash(AfterCosts(a.agent, SettleClose(a.agent.balance, pnl.gross, fee), pnl.net, fee), cfg,
                               reason);
    CooldownAgrees(d, at, CooldownBars(Some(d.strategy.dna), pnl.net));
    var b := Book(a, cfg, env, Some(d.strategy.dna), p, price, fee, kind, reason, false);
    var c := BtBook(st, d, cfg, q, price, fee, reason, at);
    assert d.bars[at].openTime == TimeOf(d, at);
    TradesAgree(a.trades, st.trades, b.trades[|a.trades|], c.trades[|st.trades|], d);
  }

  lemma TradesAgree(trades: seq<Trade>, bts: seq<BtTrade>, t: Trade, b: BtTrade, d: Data)
    requires SameTrades(trades, bts, d) && SameTrade(t, b, d)
    ensures SameTrades(trades + [t], bts + [b], d)
  {
    hide SameTrade;
  }

  // ---------------------------------------------------------------- managing agrees

  ghost predicate SameHolding(h: Holding, b: BtHolding) {
    && h.agent.balance == b.balance && h.agent.fundingPaid == b.total
    && h.position.side == b.pos.side && h.position.quantity == b.pos.quantity
    && h.position.lastFunding == b.pos.lastFunding && h.position.fundingAccrued == b.pos.funding
  }

  /** Against ascending events the moving mark admits the same settlement as the mark at the start. */
  lemma {:induction false} MovingMark(h: Holding, events: seq<Rate>, closeMs: int, mark: real, r: Rate)
    requires AscendingRates(events) && (forall i :: 0 <= i < |events| ==> events[i].time < r.time)
    ensures Charge(h, Due(events, h.position.lastFunding, closeMs), mark).position.lastFunding < r.time
      <==> h.position.lastFunding < r.time
  {
    var due := Due(events, h.position.lastFunding, closeMs);
    DueIsAscending(events, h.position.lastFunding, closeMs);
    Funding.ChargeAppendsRows(h, due, mark);
    if due != [] {
      assert due[|due| - 1] in events;
    }
  }

  lemma ChargeAppend(h: Holding, due: seq<Rate>, r: Rate, mark: real)
    ensures Charge(h, due + [r], mark) == ChargeOne(Charge(h, due, mark), r, mark)
  {}

  lemma OneChargeAgrees(h: Holding, b: BtHolding, r: Rate, mark: real)
    requires SameHolding(h, b)
    ensures SameHolding(ChargeOne(h, r, mark), BtChargeOne(b, r, mark))
  {}

  /** Testing every event against the moving mark charges exactly the settlements due at the start. */
  lemma {:induction false} ChargesAgree(h: Holding, b: BtHolding, events: seq<Rate>, closeMs: int, mark: real)
    requires AscendingRates(events) && SameHolding(h, b)
    ensures SameHolding(Charge(h, Due(events, h.position.lastFunding, closeMs), mark),
                        BtCharge(b, events, closeMs, mark))
  {
    hide ChargeOne, BtChargeOne;
    if events != [] {
      var init, r, last := events[..|events| - 1], events[|events| - 1], h.position.lastFunding;
      ChargesAgree(h, b, init, closeMs, mark);
      var due := Due(init, last, closeMs);
      MovingMark(h, init, closeMs, mark, r);
      if last < r.time <= closeMs {
        ChargeAppend(h, due, r, mark);
        OneChargeAgrees(Charge(h, due, mark), BtCharge(b, init, closeMs, mark), r, mark);
      } else {
        assert due + [] == due;
      }
    }
  }

  lemma AccrueAgrees(a: Account, st: Bt, d: Data, env: Env, i: nat)
    requires Contiguous(d) && AscendingRates(d.funding) && SameBooks(a, st, d) && i < |d.bars|
    requires a.position.Some? && st.pos.Some? && SamePosition(a.position.value, st.pos.value, d)
    requires env.bar == d.bars[i] && env.CloseMs() == d.CloseMs(i)
    requires Due(env.rates, st.pos.value.lastFunding, d.CloseMs(i))
        == Due(d.funding, st.pos.value.lastFunding, d.CloseMs(i))
    ensures var b := Accrue(a, env); var c := BtFunded(st, d, st.pos.value, i);
      && SameBooks(b, c, d) && b.position.Some? && c.pos.Some? && SamePosition(b.position.value, c.pos.value, d)
      && c.pos.value.entryIndex == st.pos.value.entryIndex
      && b == a.(agent := b.agent, position := b.position) && Protection.SameStanding(a.agent, b.agent)
      && b.position.value.pendingExit == a.position.value.pendingExit
      && c == st.(balance := c.balance, totalFunding := c.totalFunding, pos := c.pos)
  {
    var p, q := a.position.value, st.pos.value;
    ChargesAgree(Holding(a.agent, p), BtHolding(st.balance, st.totalFunding, q), d.funding, d.CloseMs(i),
                 d.bars[i].close);
    BtChargeKeepsRest(BtHolding(st.balance, st.totalFunding, q), d.funding, d.CloseMs(i), d.bars[i].close);
    Protection.ChargeKeepsRest(Holding(a.agent, p), Due(env.rates, p.lastFunding, env.CloseMs()), env.bar.close);
  }

  lemma LevelsAgree(p: Position, q: BtPos, d: Data, balance: real, cfg: Config)
    requires SamePosition(p, q, d)
    ensures LevelsOf(p, balance, cfg, Some(d.strategy.dna)) == BtLevels(q, balance, cfg, d.strategy.dna)
  {}

  /** After the management of a bar: both flat on the same books, or both holding the same position, marked above 0. */
  ghost predicate Managed(b: Account, c: Bt, a: Account, st: Bt, d: Data, i: nat)
    requires d.bars != [] && i < |d.bars|
  {
    && SameBooks(b, c, d) && b.orders == a.orders && c.stopped == st.stopped
    && b.agent.dailyTradeCount == a.agent.dailyTradeCount && b.agent.dayStart == a.agent.dayStart
    && c.day == st.day && c.dailyTrades == st.dailyTrades
    && (match c.pos
        case None => b.position.None? && b.agent.equity == c.balance && c.balance >= 0.0 && (c.dead || c.balance > 0.0)
                     && b.decided == a.decided + {d.bars[i].openTime}
        case Some(q) =>
          && b.position.Some? && SamePosition(b.position.value, q, d) && !c.dead && q.entryIndex <= i
          && b.position.value.pendingExit.None? && b.position.value.lastProcessed == Some(d.bars[i].openTime)
          && c.balance + BtUpnl(q, d.bars[i].close) > 0.0 && b.decided == a.decided)
  }

  /** On the same anchors the two machines ask the strategy for the same size. */
  lemma SameAnchorsSameSize(d: Data, i: nat, side: Side, a: Agent, r: Bt)
    requires i < |d.bars|
    requires a.balance == r.balance && a.peakEquity == r.peakEquity && a.dayStartEquity == r.dayStartEquity
    ensures SizeOf(d, i, side, a) == BtSize(r, d, i, side)
  {}

  lemma EngineAgrees(d: Data, cfg: Config, i: nat, loaded: seq<Rate>, p: Position, reference: real, kind: OrderKind)
    requires i < |d.bars|
    ensures var quote := ExitQuote(p.side, p.quantity, reference, kind, cfg.costs);
      var env := PaperEnv(d, cfg, i, loaded);
      env.fillExit(ExitOrder(p, env, reference, kind)) == ExitFilled(quote.price, quote.fee)
  {}

  lemma TriggerKinds(l: Levels, bar: Bar, sameBarExtreme: bool)
    ensures var t := EvaluateBar(l, bar, sameBarExtreme); t.Some? ==> t.value.kind == KindOf(t.value.reason)
  {}

  /** The evaluation of the bar, once funding is applied. */
  lemma ProtectAgrees(a: Account, st: Bt, d: Data, cfg: Config, i: nat, loaded: seq<Rate>)
    requires Contiguous(d) && NoFraction(cfg) && SameBooks(a, st, d) && !st.dead && i < |d.bars|
    requires a.position.Some? && st.pos.Some? && SamePosition(a.position.value, st.pos.value, d)
    requires st.pos.value.entryIndex <= i && a.position.value.pendingExit.None?
    ensures Managed(Protect(a, cfg, PaperEnv(d, cfg, i, loaded), Some(d.strategy.dna)), BtProtect(st, d, cfg, i), a,
                    st, d, i)
  {
    hide EvaluateBar, LiquidationPrice, ExitQuote, Settle, BtClose, Liquidatable, UpdateEquity, Mark;
    var p, q, env := a.position.value, st.pos.value, PaperEnv(d, cfg, i, loaded);
    var levels := LevelsOf(p, a.agent.balance, cfg, Some(d.strategy.dna));
    LevelsAgree(p, q, d, st.balance, cfg);
    var trigger := EvaluateBar(levels, env.bar, cfg.sameBarExtreme);
    if trigger.Some? {
      TriggerKinds(levels, env.bar, cfg.sameBarExtreme);
      var t, held := trigger.value, a.(position := Some(Evaluated(p, env.K())));
      EngineAgrees(d, cfg, i, loaded, Evaluated(p, env.K()), t.reference, t.kind);
      SettleAgrees(Decided(held, env), st, d, cfg, env, Evaluated(p, env.K()), q, t.reference, t.kind, t.reason, i);
    } else {
      SurvivedBarOnlyMarks(a, cfg, env, Some(d.strategy.dna));
      SurvivedBarHolds(a, st, d, cfg, i, loaded);
    }
  }

  lemma SurvivedBarHolds(a: Account, st: Bt, d: Data, cfg: Config, i: nat, loaded: seq<Rate>)
    requires Contiguous(d) && NoFraction(cfg) && SameBooks(a, st, d) && !st.dead && i < |d.bars|
    requires a.position.Some? && st.pos.Some? && SamePosition(a.position.value, st.pos.value, d)
    requires st.pos.value.entryIndex <= i && a.position.value.pendingExit.None?
    requires EvaluateBar(BtLevels(st.pos.value, st.balance, cfg, d.strategy.dna), d.bars[i], cfg.sameBarExtreme).None?
    ensures Managed(Protect(a, cfg, PaperEnv(d, cfg, i, loaded), Some(d.strategy.dna)), BtProtect(st, d, cfg, i), a,
                    st, d, i)
  {
    hide EvaluateBar, LiquidationPrice, BtClose, Liquidatable, ClosePosition, DrawdownAfter, MilestoneAfter, Mark;
    var p, q, env := a.position.value, st.pos.value, PaperEnv(d, cfg, i, loaded);
    LevelsAgree(p, q, d, st.balance, cfg);
    var levels := BtLevels(q, st.balance, cfg, d.strategy.dna);
    SurvivedBarOnlyMarks(a, cfg, env, Some(d.strategy.dna));
    SurvivorHoldsItsMargin(levels, d.bars[i], cfg.sameBarExtreme, q.quantity, st.balance, cfg.mmr);
    LevelFraction(a.agent.startingBalance, cfg);
  }

  lemma LevelFraction(start: real, cfg: Config)
    requires cfg.bankruptcyFraction == 0.0
    ensures start * cfg.bankruptcyFraction == 0.0
  {}

  lemma ManageAgrees(e: Account, st: Bt, d: Data, cfg: Config, i: nat, loaded: seq<Rate>)
    requires Contiguous(d) && NoFraction(cfg) && AscendingRates(d.funding) && i < |d.bars|
    requires Parallel(e, st, d, i) && st.pos.Some?
    requires Due(loaded, st.pos.value.lastFunding, d.CloseMs(i))
        == Due(d.funding, st.pos.value.lastFunding, d.CloseMs(i))
    ensures Managed(Manage(e, cfg, PaperEnv(d, cfg, i, loaded), Some(d.strategy.dna)),
                    BtManage(BtRollDay(st, d, i), d, cfg, i), e, BtRollDay(st, d, i), d, i)
  {
    hide Protect, Accrue, BtFunded, BtProtect, Parallel;
    var rolled, env := BtRollDay(st, d, i), PaperEnv(d, cfg, i, loaded);
    ParallelHolds(e, st, d, i);
    AccrueAgrees(e, rolled, d, env, i);
    ProtectAgrees(Accrue(e, env), BtFunded(rolled, d, rolled.pos.value, i), d, cfg, i, loaded);
  }

  lemma ParallelHolds(e: Account, st: Bt, d: Data, i: nat)
    requires i < |d.bars| && Parallel(e, st, d, i) && st.pos.Some?
    ensures var rolled := BtRollDay(st, d, i);
      && SameBooks(e, rolled, d) && e.position.Some? && rolled.pos == st.pos
        && SamePosition(e.position.value, rolled.pos.value, d)
      && rolled.pos.value.entryIndex <= i && !rolled.dead && e.position.value.pendingExit.None?
      && !Processed(e.position.value, d.bars[i].openTime) && rolled.stopped == st.stopped
  {}

  // ---------------------------------------------------------------- from one open to the next

  /** What the cycle of bar `i` left, with nothing more to do in it. */
  ghost predicate Settled(x: Account, k: int) {
    && (x.position.Some? ==> Processed(x.position.value, k))
    && (forall j :: 0 <= j < |x.orders| && x.orders[j].status.Pending? ==> x.orders[j].signalTime == k)
  }

  /** The rest of the cycle adds nothing to what the agent's processing did, but for retiring an account that is flat
      and too small to trade. */
  lemma CycleIsProcessing(p: Account, cfg: Config, env: Env, dna: Dna)
    requires p.agent.status.Active? && env.K() !in p.decided && env.intervalMs > 0
    requires Settled(ManageAndSignal(AtTheOpen(p, cfg, env, dna), cfg, env, dna), env.K())
    ensures var x, y := ManageAndSignal(AtTheOpen(p, cfg, env, dna), cfg, env, dna),
                        Cycle(p, cfg, env, Some(dna), true, Retry.NO_FAULTS);
      y == if x.agent.status.Active? && x.position.None? && x.agent.equity < cfg.minViableEquity && !StillHeld(p, x)
           then x.(agent := MarkDead(x.agent)) else x
  {}

  /** Nothing is pending: the next bar opens with the same account on a new day clock. */
  lemma OpensUnchanged(x: Account, cfg: Config, env: Env, dna: Dna)
    requires NonePending(x.orders) && (x.position.Some? ==> x.position.value.pendingExit.None?)
    ensures AtTheOpen(x, cfg, env, dna) == x.(agent := RollDay(x.agent, env))
  {
    Retry.NoPendingIndex(x.orders);
  }

  lemma NextBar(d: Data, i: nat)
    requires d.Valid() && Contiguous(d) && i + 1 < |d.bars|
    ensures d.bars[i + 1].openTime == d.bars[i].openTime + d.intervalMs
    ensures d.CloseMs(i) == d.bars[i + 1].openTime - 1
  {}

  lemma RollingKeepsBooks(x: Account, st: Bt, d: Data, env: Env)
    requires d.bars != [] && SameBooks(x, st, d)
    ensures SameBooks(x.(agent := RollDay(x.agent, env)), st, d)
  {}

  /** The backtest counts an entry on the bar that signalled it, paper on the bar that fills it: their daily counters
      stay equal over an entry exactly when the two bars are of one day. */
  lemma EntryCountsAgreeExactlyWhen(a: Agent, st: Bt, d: Data, cfg: Config, i: nat, env: Env, fee: real, side: Side,
                                    intent: Intent, quantity: Positive, quote: Quote)
    requires i + 1 < |d.bars| && env.K() == d.bars[i + 1].openTime
    requires a.dayStart == Day(d.bars[i].openTime) && st.day == Some(a.dayStart) && a.dailyTradeCount == st.dailyTrades
    ensures AfterEntry(RollDay(a, env), cfg, fee).dailyTradeCount
            == BtRollDay(BtOpen(st, d, cfg, i, side, intent, quantity, quote), d, i + 1).dailyTrades
            <==> Day(d.bars[i + 1].openTime) == Day(d.bars[i].openTime)
  {}

  /** A new day's risk anchor is the equity marked at the last close in paper and marked at the open in the backtest:
      over a held position they are equal exactly when the bar opens where the last one closed. */
  lemma DayAnchorsAgreeExactlyWhen(a: Agent, st: Bt, d: Data, i: nat, env: Env, lastClose: real)
    requires i < |d.bars| && env.K() == d.bars[i].openTime && st.pos.Some? && a.balance == st.balance
    requires a.dayStart != Day(env.K()) && st.day != Some(Day(env.K()))
    requires a.equity == st.balance + BtUpnl(st.pos.value, lastClose)
    ensures RollDay(a, env).dayStartEquity == BtRollDay(st, d, i).dayStartEquity <==> d.bars[i].open == lastClose
  {
    var q := st.pos.value;
    var move := (d.bars[i].open - lastClose) * q.quantity;
    assert BtUpnl(q, d.bars[i].open) - BtUpnl(q, lastClose) == move * Direction(q.side);
    NoProductVanishes(d.bars[i].open - lastClose, q.quantity);
  }

  lemma NoProductVanishes(a: real, b: real)
    requires b > 0.0
    ensures a * b == 0.0 <==> a == 0.0
  {}

  /** Both flat after bar `i`, nothing pending. */
  lemma FlatToFlat(x: Account, c: Bt, d: Data, cfg: Config, i: nat, loaded: seq<Rate>)
    requires d.Valid() && Contiguous(d) && i + 1 < |d.bars|
    requires SameBooks(x, c, d) && x.position.None? && c.pos.None? && x.agent.equity == c.balance
      && NonePending(x.orders)
    requires c.balance >= 0.0 && (c.dead || c.balance > 0.0) && c.stopped == c.dead
    ensures Parallel(AtTheOpen(x, cfg, PaperEnv(d, cfg, i + 1, loaded), d.strategy.dna), c, d, i + 1)
  {
    var env := PaperEnv(d, cfg, i + 1, loaded);
    OpensUnchanged(x, cfg, env, d.strategy.dna);
    RollingKeepsBooks(x, c, d, env);
  }

  /** Both hold the same position after bar `i`, no exit signalled. */
  lemma HeldToHeld(x: Account, c: Bt, d: Data, cfg: Config, i: nat, loaded: seq<Rate>)
    requires d.Valid() && Contiguous(d) && i + 1 < |d.bars|
    requires SameBooks(x, c, d) && !c.dead && !c.stopped && NonePending(x.orders)
    requires x.position.Some? && c.pos.Some? && SamePosition(x.position.value, c.pos.value, d)
      && c.pos.value.entryIndex <= i
    requires x.position.value.pendingExit.None? && x.position.value.lastProcessed == Some(d.bars[i].openTime)
    ensures Parallel(AtTheOpen(x, cfg, PaperEnv(d, cfg, i + 1, loaded), d.strategy.dna), c, d, i + 1)
  {}

  /** An exit signalled on bar `i` closes the paper position at the next open, where the backtest closed it. */
  lemma HeldToClosed(x: Account, c: Bt, d: Data, cfg: Config, i: nat, loaded: seq<Rate>)
    requires d.Valid() && Contiguous(d) && NoFraction(cfg) && i + 1 < |d.bars|
    requires SameBooks(x, c, d) && !c.dead && !c.stopped && NonePending(x.orders)
    requires x.position.Some? && c.pos.Some? && SamePosition(x.position.value, c.pos.value, d)
    requires x.position.value.pendingExit == Some(d.bars[i].openTime)
    ensures var b := BtClose(c, d, cfg, c.pos.value, NextOpen(d, i), MarketOrder, SignalExit, FillIndex(d, i));
      Parallel(AtTheOpen(x, cfg, PaperEnv(d, cfg, i + 1, loaded), d.strategy.dna), BtMark(b, d, i), d, i + 1)
  {
    hide Settle, BtClose, ExitQuote;
    var env, q := PaperEnv(d, cfg, i + 1, loaded), c.pos.value;
    var taken := x.(agent := RollDay(x.agent, env), position := Some(x.position.value.(pendingExit := None)));
    var p := taken.position.value;
    NextBar(d, i);
    RollingKeepsBooks(x, c, d, env);
    EngineAgrees(d, cfg, i + 1, loaded, p, NextOpen(d, i), MarketOrder);
    SettleAgrees(Decided(taken, env), c, d, cfg, env, p, q, NextOpen(d, i), MarketOrder, SignalExit, i + 1);
    LevelFraction(d.start, cfg);
  }

  // ---------------------------------------------------------------- entries

  /** The notional both machines approve for an entry signal of bar `i`. */
  function Notional(d: Data, i: nat, side: Side, a: Agent): real
    requires i < |d.bars|
  {
    ApproveAgainstMargin(SizeOf(d, i, side, a).notional, SizeOf(d, i, side, a).leverage, a.balance)
  }

  lemma ApprovalsAgree(e: Account, st: Bt, d: Data, cfg: Config, i: nat, side: Side, loaded: seq<Rate>)
    requires i < |d.bars| && SizeOf(d, i, side, e.agent) == BtSize(st, d, i, side)
    requires e.agent.balance == st.balance >= 0.0
    ensures var env := PaperEnv(d, cfg, i, loaded);
      var notional := Notional(d, i, side, e.agent);
      ApprovedNotional(e.agent, cfg, env, env.risk(side, e.agent))
        == (if cfg.belowMinimum(notional, d.bars[i].close) then 0.0 else notional) && notional >= 0.0
    ensures EntryQuantity(st, d, cfg, i, side, NextOpen(d, i))
         == cfg.quantityStep(if NextOpen(d, i) > 0.0 then Notional(d, i, side, e.agent) / NextOpen(d, i) else 0.0)
  {}

  /** Approving a notional a second time, with the same cash, changes nothing. */
  lemma ApprovedTwice(notional: real, leverage: Leverage, available: real)
    requires available >= 0.0
    ensures var once := ApproveAgainstMargin(notional, leverage, available);
      ApproveAgainstMargin(once, leverage, available) == once
  {}

  lemma ZeroQuantity(cfg: Config, notional: real, reference: real)
    requires NothingIsNoLot(cfg) && notional == 0.0
    ensures cfg.quantityStep(if reference > 0.0 then notional / reference else 0.0) <= 0.0
  {}

  /** The order an entry signal of bar `i` leaves behind. */
  function EntryOrder(d: Data, i: nat, side: Side, a: Agent): Order
    requires i < |d.bars|
  {
    Order(d.bars[i].openTime, side, Notional(d, i, side, a), SizeOf(d, i, side, a).leverage, IntentAt(d, i), Pending)
  }

  /** Whether bar `i` signals an entry past the cooldown. */
  predicate EntryDue(st: Bt, d: Data, i: nat)
    requires i < |d.bars|
  {
    d.strategy.signal(d.Prefix(i), None).matchedEntry && i >= st.cooldownUntil
  }

  /** The notional passes the tests at the close. */
  predicate Placeable(d: Data, cfg: Config, i: nat, side: Side, a: Agent)
    requires i < |d.bars|
  {
    Notional(d, i, side, a) > 0.0 && !cfg.belowMinimum(Notional(d, i, side, a), d.bars[i].close)
  }

  /** What the close refuses, the backtest does not trade at the next open. */
  lemma RefusedIsNotTraded(d: Data, cfg: Config, i: nat, side: Side, a: Agent)
    requires Contiguous(d) && NothingIsNoLot(cfg) && i + 1 < |d.bars|
      && RefusalStands(d, cfg, i, Notional(d, i, side, a))
    requires !Placeable(d, cfg, i, side, a) && Notional(d, i, side, a) >= 0.0
    ensures !Tradeable(cfg, cfg.quantityStep(Notional(d, i, side, a) / d.bars[i + 1].open), d.bars[i + 1].open)
  {
    hide ApproveAgainstMargin, Tradeable;
    if Notional(d, i, side, a) == 0.0 {
      ZeroQuantity(cfg, Notional(d, i, side, a), d.bars[i + 1].open);
      NothingToTrade(cfg, cfg.quantityStep(Notional(d, i, side, a) / d.bars[i + 1].open), d.bars[i + 1].open);
    }
  }

  lemma NothingToTrade(cfg: Config, quantity: real, reference: real)
    requires quantity <= 0.0
    ensures !Tradeable(cfg, quantity, reference)
  {}

  /** Below the cap, paper places the order that the backtest's entry stands for, if its size passes at the close. */
  lemma PlacementAgrees(e: Account, st: Bt, d: Data, cfg: Config, i: nat, loaded: seq<Rate>)
    requires d.Valid() && Contiguous(d) && i < |d.bars| && SameCooldown(e.agent, st, d) && e.agent.balance >= 0.0
    ensures var env := PaperEnv(d, cfg, i, loaded);
      var x := PlaceEntry(e, cfg, env, d.strategy.dna);
      var side := d.strategy.signal(d.Prefix(i), None).side;
      if EntryDue(st, d, i) && e.agent.dailyTradeCount < d.strategy.dna.maxTradesPerDay
         && Placeable(d, cfg, i, side, e.agent)
      then x == Decided(e, env).(orders := e.orders + [EntryOrder(d, i, side, e.agent)])
      else x == e || x == Decided(e, env)
  {
    hide ApproveAgainstMargin, SizeOf;
    CoolingAgrees(e.agent, st, d, i);
  }

  /** Cooldowns, in milliseconds and in bars, end together. */
  lemma CoolingAgrees(a: Agent, st: Bt, d: Data, i: nat)
    requires d.Valid() && Contiguous(d) && i < |d.bars| && SameCooldown(a, st, d)
    ensures CoolingDown(a, d.bars[i].openTime) <==> i < st.cooldownUntil
  {
    if a.cooldownUntil.Some? {
      LaterBarIsLater(d, i, st.cooldownUntil);
    }
  }

  lemma LaterBarIsLater(d: Data, i: int, j: int)
    requires d.bars != [] && d.intervalMs > 0
    ensures TimeOf(d, i) < TimeOf(d, j) <==> i < j
  {
    Scaled(i, j, d.intervalMs);
  }

  lemma Scaled(i: int, j: int, n: int)
    requires n > 0
    ensures i < j <==> i * n < j * n
  {
    if i < j {
      assert (j - i) * n > 0;
    } else {
      assert (i - j) * n >= 0;
    }
  }

  lemma ResolvedLast(orders: seq<Order>, o: Order, status: OrderStatus)
    requires NonePending(orders) && !status.Pending?
    ensures NonePending(WithStatus(orders + [o], |orders|, status))
  {}

  /** An order of bar `i` is executed at the open of the next bar, for the quantity the backtest computes. */
  lemma OrderExecutes(x: Account, d: Data, cfg: Config, i: nat, loaded: seq<Rate>, orders: seq<Order>, o: Order)
    requires d.Valid() && Contiguous(d) && NoFraction(cfg) && i + 1 < |d.bars|
    requires x.position.None? && x.agent.status.Active? && x.agent.balance >= 0.0
    requires x.orders == orders + [o] && o.status.Pending? && o.signalTime == d.bars[i].openTime
    requires ApproveAgainstMargin(o.notional, o.leverage, x.agent.balance) == o.notional
    ensures var env := PaperEnv(d, cfg, i + 1, loaded);
      var rolled := x.(agent := RollDay(x.agent, env));
      var quantity := cfg.quantityStep(o.notional / d.bars[i + 1].open);
      AtTheOpen(x, cfg, env, d.strategy.dna)
        == if !Tradeable(cfg, quantity, d.bars[i + 1].open)
          then Decided(rolled, env).(orders := WithStatus(x.orders, |orders|, Failed(env.K())))
           else
             var quote := EntryQuote(o.side, quantity, d.bars[i + 1].open, cfg.costs);
             rolled.(agent := AfterEntry(rolled.agent, cfg, quote.fee),
                     position := Some(Opened(o, env, d.strategy.dna, quote.price, quantity, quote.fee, false)),
                     orders := WithStatus(x.orders, |orders|, Filled(env.K())))
  {}

  /** The backtest after trying to enter with this quantity at the next open. */
  function Traded(st: Bt, d: Data, cfg: Config, i: nat, side: Side, quantity: real): Bt
    requires i + 1 < |d.bars|
  {
    var open := d.bars[i + 1].open;
    if !Tradeable(cfg, quantity, open) then st
    else BtOpen(st, d, cfg, i, side, IntentAt(d, i), quantity, EntryQuote(side, quantity, open, cfg.costs))
  }

  lemma BtOpensHere(st: Bt, d: Data, cfg: Config, i: nat, side: Side, quantity: real)
    requires Contiguous(d) && i + 1 < |d.bars|
    requires quantity == EntryQuantity(st, d, cfg, i, side, d.bars[i + 1].open)
    ensures BtEnter(st, d, cfg, i, side, IntentAt(d, i)) == Traded(st, d, cfg, i, side, quantity)
  {}

  /** Below the cap paper orders a due entry exactly when its notional reaches the threshold of the close, if there is
      one. */
  lemma PaperOrdersExactlyWhen(e: Account, st: Bt, d: Data, cfg: Config, i: nat, loaded: seq<Rate>, side: Side,
                               notional: real, step: real, minimum: real)
    requires d.Valid() && Contiguous(d) && i < |d.bars| && Follows(cfg, step, minimum)
    requires SameCooldown(e.agent, st, d) && e.agent.balance >= 0.0 && EntryDue(st, d, i)
    requires e.agent.dailyTradeCount < d.strategy.dna.maxTradesPerDay
    requires side == d.strategy.signal(d.Prefix(i), None).side && notional == Notional(d, i, side, e.agent) > 0.0
    ensures PlaceEntry(e, cfg, PaperEnv(d, cfg, i, loaded), d.strategy.dna).orders != e.orders
            <==> minimum == 0.0 || notional >= Threshold(step, minimum, d.bars[i].close)
  {
    hide PlaceEntry, Notional, Threshold, BelowMinOrderNotional, EntryDue, EntryOrder, PaperEnv, SameCooldown;
    PlacementAgrees(e, st, d, cfg, i, loaded);
    RefusedExactlyBelow(step, minimum, notional, d.bars[i].close);
    assert cfg.belowMinimum(notional, d.bars[i].close)
        == BelowMinOrderNotional(step, minimum, notional, d.bars[i].close);
    var x := PlaceEntry(e, cfg, PaperEnv(d, cfg, i, loaded), d.strategy.dna);
    if Placeable(d, cfg, i, side, e.agent) {
      assert |x.orders| == |e.orders| + 1;
    } else {
      assert x.orders == e.orders;
    }
  }

  /** With a minimum the backtest opens it exactly when its notional reaches the threshold of the next open. */
  lemma BacktestOpensExactlyWhen(e: Account, st: Bt, d: Data, cfg: Config, i: nat, loaded: seq<Rate>, side: Side,
                                 notional: real, step: real, minimum: real)
    requires Contiguous(d) && i + 1 < |d.bars| && Follows(cfg, step, minimum)
    requires e.agent.balance == st.balance >= 0.0 && st.pos.None?
    requires SizeOf(d, i, side, e.agent) == BtSize(st, d, i, side) && notional == Notional(d, i, side, e.agent)
    ensures minimum > 0.0 ==>
      (BtEnter(st, d, cfg, i, side, IntentAt(d, i)).pos.Some?
       <==> notional >= Threshold(step, minimum, d.bars[i + 1].open))
  {
    hide BtEnter, EntryQuantity, EntryQuote, Notional, Tradeable, Threshold, ApprovedNotional;
    ApprovalsAgree(e, st, d, cfg, i, side, loaded);
    BtOpensHere(st, d, cfg, i, side, EntryQuantity(st, d, cfg, i, side, d.bars[i + 1].open));
    TradedExactlyFrom(cfg, step, minimum, notional, d.bars[i + 1].open);
  }

  /** For an entry that is due and of the same size in both: the backtest opens one that paper never orders exactly when
      there is a minimum and the notional is below the threshold of the close and not below that of the next open. */
  lemma EntriesAgreeExactlyWhen(e: Account, st: Bt, d: Data, cfg: Config, i: nat, loaded: seq<Rate>, side: Side,
                                notional: real, step: real, minimum: real)
    requires d.Valid() && Contiguous(d) && i + 1 < |d.bars| && Follows(cfg, step, minimum)
    requires SameCooldown(e.agent, st, d) && e.agent.balance == st.balance >= 0.0 && st.pos.None? && EntryDue(st, d, i)
    requires e.agent.dailyTradeCount < d.strategy.dna.maxTradesPerDay
    requires side == d.strategy.signal(d.Prefix(i), None).side && notional == Notional(d, i, side, e.agent) > 0.0
    requires SizeOf(d, i, side, e.agent) == BtSize(st, d, i, side)
    ensures var placed := PlaceEntry(e, cfg, PaperEnv(d, cfg, i, loaded), d.strategy.dna).orders != e.orders;
      var opens := BtEnter(st, d, cfg, i, side, IntentAt(d, i)).pos.Some?;
      opens && !placed <==>
        && minimum > 0.0
        && Threshold(step, minimum, d.bars[i + 1].open) <= notional < Threshold(step, minimum, d.bars[i].close)
  {
    hide PlaceEntry, BtEnter, Notional, Threshold, SizeOf, BtSize;
    PaperOrdersExactlyWhen(e, st, d, cfg, i, loaded, side, notional, step, minimum);
    BacktestOpensExactlyWhen(e, st, d, cfg, i, loaded, side, notional, step, minimum);
  }

  /** The fill at the next open gives the position the backtest opened at this close. */
  lemma OpeningsAgree(x: Account, st: Bt, d: Data, cfg: Config, i: nat, loaded: seq<Rate>,
                      orders: seq<Order>, side: Side, quantity: Positive)
    requires d.Valid() && Contiguous(d) && NoFraction(cfg) && i + 1 < |d.bars| && SameBooks(x, st, d) && !st.dead
      && !st.stopped
    requires NonePending(orders) && x.orders == orders + [EntryOrder(d, i, side, x.agent)]
    ensures var quote := EntryQuote(side, quantity, d.bars[i + 1].open, cfg.costs);
      var env := PaperEnv(d, cfg, i + 1, loaded);
      var rolled := x.(agent := RollDay(x.agent, env));
      var m := BtMark(BtOpen(st, d, cfg, i, side, IntentAt(d, i), quantity, quote), d, i);
      !m.dead ==>
        Parallel(rolled.(agent := AfterEntry(rolled.agent, cfg, quote.fee),
                         position := Some(Opened(EntryOrder(d, i, side, x.agent), env, d.strategy.dna, quote.price,
                                                 quantity, quote.fee, false)),
                         orders := WithStatus(x.orders, |orders|, Filled(env.K()))), m, d, i + 1)
  {
    hide EntryQuote, Notional, DrawdownAfter, MilestoneAfter, SizeOf, IntentAt;
    NextBar(d, i);
    LevelFraction(d.start, cfg);
    ResolvedLast(orders, EntryOrder(d, i, side, x.agent), Filled(d.bars[i + 1].openTime));
  }

  /** What the step from one open to the next needs of bar `i`. */
  ghost predicate StepSetting(d: Data, cfg: Config, i: nat) {
    && d.Valid() && Contiguous(d) && NoFraction(cfg) && AscendingRates(d.funding)
    && i + 1 < |d.bars| && d.strategy.context(d.Prefix(i)).Some?
  }

  /** Where paper is left flat and alive after bar `i`, its equity is the backtest's cash. */
  ghost predicate LeftFlat(x: Account, c: Bt) {
    x.position.None? && x.agent.status.Active? ==> x.agent.equity == c.balance && !c.dead && c.pos.None?
  }

  /** A bar both machines began flat. */
  lemma FlatStep(e: Account, st: Bt, d: Data, cfg: Config, i: nat, now: seq<Rate>, next: seq<Rate>)
    requires StepSetting(d, cfg, i) && NothingIsNoLot(cfg) && d.start > 0.0 && i + 1 < d.last
    requires Parallel(e, st, d, i) && st.pos.None? && !st.dead && EntryAgrees(e.agent, BtRollDay(st, d, i), d, cfg, i)
    requires SameCount(e.agent, st, d, i)
    requires var m := BtIterate(st, d, cfg, i); !(m.dead && m.pos.Some?)
    ensures var x := ManageAndSignal(e, cfg, PaperEnv(d, cfg, i, now), d.strategy.dna);
      && Settled(x, d.bars[i].openTime) && x.decided <= e.decided + {d.bars[i].openTime}
      && x.agent == e.agent && x.position.None? && x.agent.status.Active? && LeftFlat(x, BtRollDay(st, d, i))
      && Parallel(AtTheOpen(x, cfg, PaperEnv(d, cfg, i + 1, next), d.strategy.dna), BtIterate(st, d, cfg, i), d, i + 1)
  {
    hide BtEnter, PlaceEntry, EntryQuantity, Notional, BtOpen, AtTheOpen, EntryQuote, AfterEntry, Opened,
      ApproveAgainstMargin, SizeOf, BtSize, RefusalStands, Placeable;
    var env, r := PaperEnv(d, cfg, i, now), BtRollDay(st, d, i);
    var side := d.strategy.signal(d.Prefix(i), None).side;
    var x := PlaceEntry(e, cfg, env, d.strategy.dna);
    PlacementAgrees(e, r, d, cfg, i, now);
    if EntryDue(r, d, i) && r.dailyTrades < d.strategy.dna.maxTradesPerDay {
      ApprovalsAgree(e, r, d, cfg, i, side, now);
      var quantity := EntryQuantity(r, d, cfg, i, side, d.bars[i + 1].open);
      BtOpensHere(r, d, cfg, i, side, quantity);
      if Placeable(d, cfg, i, side, e.agent) {
        OrderStep(e, r, x, d, cfg, i, now, next, side, quantity);
      } else {
        RefusedIsNotTraded(d, cfg, i, side, e.agent);
        FlatToFlat(x, BtMark(r, d, i), d, cfg, i, next);
      }
    } else {
      FlatToFlat(x, BtMark(r, d, i), d, cfg, i, next);
    }
  }

  lemma OrderStep(e: Account, r: Bt, x: Account, d: Data, cfg: Config, i: nat, now: seq<Rate>, next: seq<Rate>,
                  side: Side, quantity: real)
    requires StepSetting(d, cfg, i) && d.start > 0.0
    requires SameBooks(e, r, d) && r.stopped == r.dead == false && r.pos.None? && e.position.None?
    requires e.agent.equity == r.balance > 0.0 && NonePending(e.orders)
    requires x == Decided(e, PaperEnv(d, cfg, i, now)).(orders := e.orders + [EntryOrder(d, i, side, e.agent)])
    requires quantity == cfg.quantityStep(Notional(d, i, side, e.agent) / d.bars[i + 1].open)
    requires var m := BtMark(Traded(r, d, cfg, i, side, quantity), d, i); !(m.dead && m.pos.Some?)
    ensures Settled(x, d.bars[i].openTime) && x.decided <= e.decided + {d.bars[i].openTime} && !x.agent.status.Dead?
    ensures Parallel(AtTheOpen(x, cfg, PaperEnv(d, cfg, i + 1, next), d.strategy.dna),
                     BtMark(Traded(r, d, cfg, i, side, quantity), d, i), d, i + 1)
  {
    hide EntryQuote, AfterEntry, Opened, AtTheOpen, ApproveAgainstMargin, IntentAt;
    var o, env := EntryOrder(d, i, side, e.agent), PaperEnv(d, cfg, i + 1, next);
    ApprovedTwice(SizeOf(d, i, side, e.agent).notional, SizeOf(d, i, side, e.agent).leverage, e.agent.balance);
    OrderExecutes(x, d, cfg, i, next, e.orders, o);
    if !Tradeable(cfg, quantity, d.bars[i + 1].open) {
      RollingKeepsBooks(x, BtMark(r, d, i), d, env);
      ResolvedLast(e.orders, o, Failed(d.bars[i + 1].openTime));
    } else {
      OpeningsAgree(x, r, d, cfg, i, next, e.orders, side, quantity);
    }
  }

  /** A bar both machines began with the same position. */
  lemma HeldStep(e: Account, st: Bt, d: Data, cfg: Config, i: nat, now: seq<Rate>, next: seq<Rate>)
    requires StepSetting(d, cfg, i) && Parallel(e, st, d, i) && st.pos.Some? && Loaded(st, d, i, now)
    ensures var x := ManageAndSignal(e, cfg, PaperEnv(d, cfg, i, now), d.strategy.dna);
      && Settled(x, d.bars[i].openTime) && x.decided <= e.decided + {d.bars[i].openTime}
      && (x.agent.status.Active? || (x.agent.status.Dead? && x.position.None? && NonePending(x.orders)))
      && LeftFlat(x, BtManage(BtRollDay(st, d, i), d, cfg, i))
      && (x.position.Some? <==> BtManage(BtRollDay(st, d, i), d, cfg, i).pos.Some?)
      && x.agent.dailyTradeCount == e.agent.dailyTradeCount && x.agent.dayStart == e.agent.dayStart
      && Parallel(AtTheOpen(x, cfg, PaperEnv(d, cfg, i + 1, next), d.strategy.dna), BtIterate(st, d, cfg, i), d, i + 1)
  {
    hide Manage, BtManage, BtClose, AtTheOpen, ClosePosition, BtMark, PlaceEntry;
    var env, r := PaperEnv(d, cfg, i, now), BtRollDay(st, d, i);
    ManageAgrees(e, st, d, cfg, i, now);
    var b, c := Manage(e, cfg, env, Some(d.strategy.dna)), BtManage(r, d, cfg, i);
    if c.pos.None? {
      ClosedStep(e, r, b, c, d, cfg, i, next);
    } else {
      OpenStep(e, r, b, c, d, cfg, i, now, next);
    }
  }

  /** The position was closed on bar `i` itself. */
  lemma ClosedStep(e: Account, r: Bt, b: Account, c: Bt, d: Data, cfg: Config, i: nat, next: seq<Rate>)
    requires StepSetting(d, cfg, i)
    requires Managed(b, c, e, r, d, i) && c.pos.None? && NonePending(e.orders) && !r.stopped
    ensures Settled(b, d.bars[i].openTime) && b.decided <= e.decided + {d.bars[i].openTime}
    ensures NonePending(b.orders) && b.position.None?
    ensures !c.dead ==>
      Parallel(AtTheOpen(b, cfg, PaperEnv(d, cfg, i + 1, next), d.strategy.dna), BtMark(c, d, i), d, i + 1)
    ensures c.dead ==>
      Parallel(AtTheOpen(b, cfg, PaperEnv(d, cfg, i + 1, next), d.strategy.dna),
               c.(curve := c.curve + [Max(0.0, c.balance)], stopped := true), d, i + 1)
  {
    hide AtTheOpen;
    if c.dead {
      FlatToFlat(b, c.(curve := c.curve + [Max(0.0, c.balance)], stopped := true), d, cfg, i, next);
    } else {
      FlatToFlat(b, BtMark(c, d, i), d, cfg, i, next);
    }
  }

  /** The position survived bar `i`: it is held on, or closed at the next open. */
  lemma OpenStep(e: Account, r: Bt, b: Account, c: Bt, d: Data, cfg: Config, i: nat, now: seq<Rate>, next: seq<Rate>)
    requires StepSetting(d, cfg, i)
    requires Managed(b, c, e, r, d, i) && c.pos.Some? && NonePending(e.orders) && !r.stopped
    ensures var x := HoldOrExit(b, cfg, PaperEnv(d, cfg, i, now), d.strategy.dna);
      && Settled(x, d.bars[i].openTime) && x.decided <= e.decided + {d.bars[i].openTime}
      && x.agent.status.Active? && x.position.Some?
      && Parallel(AtTheOpen(x, cfg, PaperEnv(d, cfg, i + 1, next), d.strategy.dna),
                  BtMark(BtSignal(c, d, cfg, i, false, IntentAt(d, i)), d, i), d, i + 1)
  {
    hide AtTheOpen, BtClose;
    var x := HoldOrExit(b, cfg, PaperEnv(d, cfg, i, now), d.strategy.dna);
    if d.strategy.signal(d.Prefix(i), Some(c.pos.value.side)).matchedExit {
      HeldToClosed(x, c, d, cfg, i, next);
    } else {
      HeldToHeld(x, BtMark(c, d, i), d, cfg, i, next);
    }
  }

  // ---------------------------------------------------------------- the daily counters

  lemma ClosingKeepsCount(acct: Account, cfg: Config, env: Env, dna: Option<Dna>, reference: real, reason: Reason)
    requires acct.position.Some?
    ensures var b := ClosePosition(acct, cfg, env, dna, reference, MarketOrder, reason);
      b.agent.dailyTradeCount == acct.agent.dailyTradeCount
  {
    hide Book, ExitQuote, LiquidationPenalty;
    var p := acct.position.value;
    match env.fillExit(ExitOrder(p, env, reference, MarketOrder))
    case ExitFilled(price, fee) =>
      BookKeepsCount(Decided(acct, env), cfg, env, dna, p, price,
                     fee + LiquidationPenalty(MarketOrder, price, p.quantity, cfg.costs), MarketOrder, reason, false);
    case ExitRefused =>
      var q := ExitQuote(p.side, p.quantity, reference, MarketOrder, cfg.costs);
      BookKeepsCount(Decided(acct, env).(position := Some(Tried(p))), cfg, env, dna, Tried(p), q.price,
                     q.fee + LiquidationPenalty(MarketOrder, q.price, p.quantity, cfg.costs), MarketOrder, reason,
                     true);
  }

  lemma BookKeepsCount(acct: Account, cfg: Config, env: Env, dna: Option<Dna>, p: Position, price: real, fee: real,
                       kind: OrderKind, reason: Reason, forced: bool)
    ensures Book(acct, cfg, env, dna, p, price, fee, kind, reason, forced).agent.dailyTradeCount
         == acct.agent.dailyTradeCount
  {
    hide ComputeTradePnL, SettleClose, DrawdownAfter, MilestoneAfter, BankruptcyLevel;
  }

  lemma EntryCounts(a: Agent, cfg: Config, fee: real)
    ensures AfterEntry(a, cfg, fee).dailyTradeCount == a.dailyTradeCount + 1
  {
    hide DrawdownAfter, MilestoneAfter, BankruptcyLevel;
  }

  /** At the open paper counts exactly the entry it fills. */
  lemma OpenCounts(x: Account, cfg: Config, env: Env, dna: Dna)
    ensures var b := AtTheOpen(x, cfg, env, dna);
      b.agent.dailyTradeCount
        == RollDay(x.agent, env).dailyTradeCount + (if x.position.None? && b.position.Some? then 1 else 0)
  {
    hide ClosePosition, AfterEntry, Opened, ApproveAgainstMargin;
    var rolled := x.(agent := RollDay(x.agent, env));
    if x.position.Some? {
      var taken := rolled.(position := Some(x.position.value.(pendingExit := None)));
      ClosingKeepsCount(taken, cfg, env, Some(dna), env.bar.open, SignalExit);
    } else {
      PendingIndexBound(x.orders);
      forall fee: real
        ensures AfterEntry(rolled.agent, cfg, fee).dailyTradeCount == rolled.agent.dailyTradeCount + 1
      {
        EntryCounts(rolled.agent, cfg, fee);
      }
    }
  }

  /** An iteration counts exactly the entry it makes. */
  lemma IterationCounts(st: Bt, d: Data, cfg: Config, i: nat)
    requires i < |d.bars| && !st.stopped && d.strategy.context(d.Prefix(i)).Some?
    requires st.pos.Some? ==> st.pos.value.entryIndex <= i
    ensures var m := BtIterate(st, d, cfg, i);
      && m.day == Some(Day(d.bars[i].openTime))
      && m.dailyTrades == BtRollDay(st, d, i).dailyTrades + (if st.pos.None? && m.pos.Some? then 1 else 0)
  {
    hide BtProtect, EntryQuantity, EntryQuote, BtFunded, ExitQuote, LiquidationPenalty, ComputeTradePnL, SettleClose;
    var r := BtRollDay(st, d, i);
    if st.pos.Some? {
      FundedCounts(r, d, i);
      ProtectCounts(BtFunded(r, d, r.pos.value, i), d, cfg, i);
    }
  }

  lemma FundedCounts(r: Bt, d: Data, i: nat)
    requires i < |d.bars| && r.pos.Some?
    ensures var f := BtFunded(r, d, r.pos.value, i);
      && f.pos.Some? && f.pos.value.entryIndex == r.pos.value.entryIndex
      && f.day == r.day && f.dailyTrades == r.dailyTrades
  {
    BtChargeKeepsRest(BtHolding(r.balance, r.totalFunding, r.pos.value), d.funding, d.CloseMs(i), d.bars[i].close);
  }

  lemma ProtectCounts(f: Bt, d: Data, cfg: Config, i: nat)
    requires i < |d.bars| && f.pos.Some?
    ensures var c := BtProtect(f, d, cfg, i);
      && c.day == f.day && c.dailyTrades == f.dailyTrades
      && (c.pos.Some? ==> c.pos.value.entryIndex == f.pos.value.entryIndex)
  {
    hide EvaluateBar, Liquidatable, BtLevels, AdvanceExtremes, ExitQuote, LiquidationPenalty, ComputeTradePnL,
      SettleClose;
  }

  /** The counters stay equal over a bar, if no entry fills past midnight. */
  lemma CountsStayEqual(e: Account, st: Bt, x: Account, d: Data, cfg: Config, i: nat, next: seq<Rate>)
    requires StepSetting(d, cfg, i) && Parallel(e, st, d, i) && !st.dead && SameCount(e.agent, st, d, i)
    requires x.agent.dailyTradeCount == e.agent.dailyTradeCount && x.agent.dayStart == e.agent.dayStart
    requires
      Parallel(AtTheOpen(x, cfg, PaperEnv(d, cfg, i + 1, next), d.strategy.dna), BtIterate(st, d, cfg, i), d, i + 1)
    requires x.position.Some? ==> st.pos.Some?
    requires x.position.None? && BtIterate(st, d, cfg, i).pos.Some? ==>
      st.pos.None? && Day(d.bars[i + 1].openTime) == Day(d.bars[i].openTime)
    ensures SameCount(AtTheOpen(x, cfg, PaperEnv(d, cfg, i + 1, next), d.strategy.dna).agent, BtIterate(st, d, cfg, i),
                      d, i + 1)
  {
    hide AtTheOpen, BtIterate, SameBooks, SamePosition, NonePending;
    OpenCounts(x, cfg, PaperEnv(d, cfg, i + 1, next), d.strategy.dna);
    IterationCounts(st, d, cfg, i);
  }

  /** A position closed by the management of its bar is not replaced in the same iteration. */
  lemma ClosedStaysFlat(st: Bt, d: Data, cfg: Config, i: nat)
    requires i < |d.bars| && st.pos.Some? && st.pos.value.entryIndex <= i && !st.stopped
    requires d.strategy.context(d.Prefix(i)).Some? && BtManage(BtRollDay(st, d, i), d, cfg, i).pos.None?
    ensures BtIterate(st, d, cfg, i).pos.None?
  {
    hide BtManage, BtClose;
  }

  // ---------------------------------------------------------------- the run

  /** The paper account before the cycle of bar `i` is ready to be processed, or dead for good. */
  ghost predicate Ready(p: Account, d: Data, i: nat)
    requires i < |d.bars|
  {
    && (forall t :: t in p.decided ==> t < d.bars[i].openTime)
    && (p.agent.status.Active? || (p.agent.status.Dead? && p.position.None? && NonePending(p.orders)))
  }

  lemma DeadStep(p: Account, st: Bt, d: Data, cfg: Config, i: nat, now: seq<Rate>, next: seq<Rate>)
    requires StepSetting(d, cfg, i)
    requires p.agent.status.Dead? && Ready(p, d, i)
    requires Parallel(AtTheOpen(p, cfg, PaperEnv(d, cfg, i, now), d.strategy.dna), st, d, i)
    ensures Cycle(p, cfg, PaperEnv(d, cfg, i, now), Some(d.strategy.dna), true, Retry.NO_FAULTS) == p
    ensures BtIterate(st, d, cfg, i) == st && st.dead
    ensures Parallel(AtTheOpen(p, cfg, PaperEnv(d, cfg, i + 1, next), d.strategy.dna), st, d, i + 1)
  {
    hide AtTheOpen, ProcessAgent, ProtectOne, BtManage, BtSignal;
    Retry.NothingStale(p.orders, d.bars[i].openTime - d.intervalMs);
    OpensUnchanged(p, cfg, PaperEnv(d, cfg, i, now), d.strategy.dna);
    OpensUnchanged(p, cfg, PaperEnv(d, cfg, i + 1, next), d.strategy.dna);
  }

  /** The owner died at the open of bar `i`: with no cash there is nothing left to trade. */
  lemma DiesAtOpenStep(e: Account, st: Bt, d: Data, cfg: Config, i: nat, now: seq<Rate>, next: seq<Rate>)
    requires StepSetting(d, cfg, i) && Parallel(e, st, d, i) && st.dead && st.balance <= 0.0
    ensures var x := ManageAndSignal(e, cfg, PaperEnv(d, cfg, i, now), d.strategy.dna);
      && Settled(x, d.bars[i].openTime) && x.decided <= e.decided + {d.bars[i].openTime}
      && x.agent.status.Dead? && x.position.None? && NonePending(x.orders)
      && BtIterate(st, d, cfg, i) == st
      && Parallel(AtTheOpen(x, cfg, PaperEnv(d, cfg, i + 1, next), d.strategy.dna), st, d, i + 1)
  {
    hide AtTheOpen, BtManage, BtSignal, FillEntry;
    var env := PaperEnv(d, cfg, i, now);
    var x := PlaceEntry(e, cfg, env, d.strategy.dna);
    var side := d.strategy.signal(d.Prefix(i), None).side;
    NoCashNoNotional(e.agent, cfg, env, env.risk(side, e.agent));
    assert x == e || x == Decided(e, env);
    FlatToFlat(x, st, d, cfg, i, next);
  }

  lemma NoCashNoNotional(a: Agent, cfg: Config, env: Env, verdict: Verdict)
    requires a.balance == 0.0
    ensures ApprovedNotional(a, cfg, env, verdict) <= 0.0
  {}

  /** An owner that is alive before the open and dead after it has no more than the bankruptcy level left. */
  lemma DeathAtTheOpen(p: Account, cfg: Config, env: Env, dna: Dna)
    requires p.agent.status.Active? && AtTheOpen(p, cfg, env, dna).agent.status.Dead?
    ensures AtTheOpen(p, cfg, env, dna).agent.balance <= Max(0.0, p.agent.startingBalance * cfg.bankruptcyFraction)
  {
    hide ClosePosition, AfterEntry, Opened, ApproveAgainstMargin;
    var rolled := p.(agent := RollDay(p.agent, env));
    if rolled.position.Some? {
      var taken := rolled.(position := Some(rolled.position.value.(pendingExit := None)));
      DeathOnClose(taken, cfg, env, Some(dna), env.bar.open);
    } else {
      PendingIndexBound(rolled.orders);
      forall fee: real ensures var b := AfterEntry(rolled.agent, cfg, fee);
        b.status.Dead? ==> b.balance <= Max(0.0, p.agent.startingBalance * cfg.bankruptcyFraction)
      {
        DeathOnEntry(rolled.agent, cfg, fee);
      }
    }
  }

  lemma DeathOnEntry(a: Agent, cfg: Config, fee: real)
    requires a.status.Active?
    ensures var b := AfterEntry(a, cfg, fee);
      b.status.Dead? ==> b.balance <= Max(0.0, a.startingBalance * cfg.bankruptcyFraction)
  {}

  lemma DeathOnBook(a: Account, cfg: Config, env: Env, dna: Option<Dna>, p: Position, price: real, fee: real,
                    kind: OrderKind, forced: bool)
    requires a.agent.status.Active?
    ensures var b := Book(a, cfg, env, dna, p, price, fee, kind, SignalExit, forced);
      b.agent.status.Dead? ==> b.agent.balance <= Max(0.0, a.agent.startingBalance * cfg.bankruptcyFraction)
  {}

  lemma DeathOnClose(a: Account, cfg: Config, env: Env, dna: Option<Dna>, reference: real)
    requires a.position.Some? && a.agent.status.Active?
    ensures var b := ClosePosition(a, cfg, env, dna, reference, MarketOrder, SignalExit);
      b.agent.status.Dead? ==> b.agent.balance <= Max(0.0, a.agent.startingBalance * cfg.bankruptcyFraction)
  {
    hide Book, ExitQuote;
    var p := a.position.value;
    match env.fillExit(ExitOrder(p, env, reference, MarketOrder))
    case ExitFilled(price, fee) =>
      DeathOnBook(Decided(a, env), cfg, env, dna, p, price,
                  fee + LiquidationPenalty(MarketOrder, price, p.quantity, cfg.costs), MarketOrder, false);
    case ExitRefused =>
      var q := ExitQuote(p.side, p.quantity, reference, MarketOrder, cfg.costs);
      DeathOnBook(Decided(a, env).(position := Some(Tried(p))), cfg, env, dna, Tried(p), q.price,
                  q.fee + LiquidationPenalty(MarketOrder, q.price, p.quantity, cfg.costs), MarketOrder, true);
  }

  lemma ParallelStart(d: Data, cfg: Config, loads: nat -> seq<Rate>, day: int)
    requires Comparable(d, cfg) && d.first < d.last
    ensures InStep(d, cfg, loads, day, d.first)
  {}

  /** One cycle against one iteration. */
  lemma StepInParallel(p: Account, st: Bt, d: Data, cfg: Config, i: nat, now: seq<Rate>, next: seq<Rate>)
    requires StepSetting(d, cfg, i) && NothingIsNoLot(cfg) && d.start > 0.0 && i + 1 < d.last && Ready(p, d, i)
    requires var e := AtTheOpen(p, cfg, PaperEnv(d, cfg, i, now), d.strategy.dna);
      && Parallel(e, st, d, i) && SameCount(e.agent, st, d, i) && Steady(e, st, d, cfg, i)
      && e.decided <= p.decided + {d.bars[i].openTime}
    requires !(st.dead && st.pos.Some?) && Loaded(st, d, i, now)
    requires var m := BtIterate(st, d, cfg, i); !(m.dead && m.pos.Some?)
    ensures var x := Cycle(p, cfg, PaperEnv(d, cfg, i, now), Some(d.strategy.dna), true, Retry.NO_FAULTS);
      var e := AtTheOpen(x, cfg, PaperEnv(d, cfg, i + 1, next), d.strategy.dna);
      Ready(x, d, i + 1)
      && Parallel(e, BtIterate(st, d, cfg, i), d, i + 1) && SameCount(e.agent, BtIterate(st, d, cfg, i), d, i + 1)
  {
    hide AtTheOpen, ManageAndSignal, BtIterate, Cycle, Parallel, BtManage, SameCount;
    var env := PaperEnv(d, cfg, i, now);
    var e := AtTheOpen(p, cfg, env, d.strategy.dna);
    NextBar(d, i);
    if p.agent.status.Dead? {
      DeadStep(p, st, d, cfg, i, now, next);
      DeadCountNothing(AtTheOpen(p, cfg, PaperEnv(d, cfg, i + 1, next), d.strategy.dna).agent, st, d, i + 1);
    } else {
      AliveStep(p, e, st, d, cfg, i, now, next);
      CycleIsProcessing(p, cfg, env, d.strategy.dna);
    }
  }

  lemma AliveStep(p: Account, e: Account, st: Bt, d: Data, cfg: Config, i: nat, now: seq<Rate>, next: seq<Rate>)
    requires StepSetting(d, cfg, i) && NothingIsNoLot(cfg) && d.start > 0.0 && i + 1 < d.last && p.agent.status.Active?
    requires e == AtTheOpen(p, cfg, PaperEnv(d, cfg, i, now), d.strategy.dna) && Parallel(e, st, d, i)
    requires SameCount(e.agent, st, d, i)
    requires Steady(e, st, d, cfg, i) && !(st.dead && st.pos.Some?) && Loaded(st, d, i, now)
    requires var m := BtIterate(st, d, cfg, i); !(m.dead && m.pos.Some?)
    ensures var x := ManageAndSignal(e, cfg, PaperEnv(d, cfg, i, now), d.strategy.dna);
      && Settled(x, d.bars[i].openTime) && x.decided <= e.decided + {d.bars[i].openTime}
      && (x.agent.status.Active? || (x.agent.status.Dead? && x.position.None? && NonePending(x.orders)))
      && (x.agent.status.Active? && x.position.None? ==> x.agent.equity >= cfg.minViableEquity)
      && Parallel(AtTheOpen(x, cfg, PaperEnv(d, cfg, i + 1, next), d.strategy.dna), BtIterate(st, d, cfg, i), d, i + 1)
      && SameCount(AtTheOpen(x, cfg, PaperEnv(d, cfg, i + 1, next), d.strategy.dna).agent, BtIterate(st, d, cfg, i), d,
                   i + 1)
  {
    hide AtTheOpen, ManageAndSignal, BtIterate, EntryAgrees, BtProtect, BtFunded, SameCount;
    var x := ManageAndSignal(e, cfg, PaperEnv(d, cfg, i, now), d.strategy.dna);
    if st.dead {
      DeathAtTheOpen(p, cfg, PaperEnv(d, cfg, i, now), d.strategy.dna);
      LevelFraction(p.agent.startingBalance, cfg);
      DiesAtOpenStep(e, st, d, cfg, i, now, next);
      DeadCountNothing(AtTheOpen(x, cfg, PaperEnv(d, cfg, i + 1, next), d.strategy.dna).agent, st, d, i + 1);
    } else if st.pos.Some? {
      HeldStep(e, st, d, cfg, i, now, next);
      if x.position.None? {
        ClosedStaysFlat(st, d, cfg, i);
      }
      CountsStayEqual(e, st, x, d, cfg, i, next);
    } else {
      FlatStep(e, st, d, cfg, i, now, next);
      EnteredBeforeMidnight(e.agent, st, d, cfg, i);
      CountsStayEqual(e, st, x, d, cfg, i, next);
    }
  }

  lemma DeadCountNothing(a: Agent, st: Bt, d: Data, i: nat)
    requires i < |d.bars| && st.dead
    ensures SameCount(a, st, d, i)
  {}

  /** An entry of this bar fills on the same day. */
  lemma EnteredBeforeMidnight(a: Agent, st: Bt, d: Data, cfg: Config, i: nat)
    requires StepSetting(d, cfg, i) && i + 1 < d.last && st.pos.None? && !st.dead && !st.stopped
    requires EntryAgrees(a, BtRollDay(st, d, i), d, cfg, i)
    ensures BtIterate(st, d, cfg, i).pos.Some? ==> Day(d.bars[i + 1].openTime) == Day(d.bars[i].openTime)
  {
    hide BtEnter, RefusalStands, SizeOf, BtSize;
  }

  lemma OpenDecides(p: Account, cfg: Config, env: Env, dna: Dna)
    ensures AtTheOpen(p, cfg, env, dna).decided <= p.decided + {env.K()}
  {}

  /** At the open of bar `i` the two are in step, and paper is ready for its cycle. */
  ghost predicate InStep(d: Data, cfg: Config, loads: nat -> seq<Rate>, day: int, i: nat)
    requires i < |d.bars|
  {
    var e, st := PaperAtOpen(d, cfg, loads, day, i), BtRun(d, cfg, i);
    Parallel(e, st, d, i) && SameCount(e.agent, st, d, i) && Ready(PaperRun(d, cfg, loads, day, i), d, i)
  }

  lemma OneMoreBar(d: Data, cfg: Config, loads: nat -> seq<Rate>, day: int, i: nat)
    requires Comparable(d, cfg) && d.first <= i && i + 1 < d.last && InStep(d, cfg, loads, day, i)
    requires Undisturbed(d, cfg, loads, day, i) && NotEmptied(BtRun(d, cfg, i + 1))
    ensures InStep(d, cfg, loads, day, i + 1)
  {
    hide AtTheOpen, Cycle, BtIterate, Due, Steady, Parallel, SameCount;
    var p, st := PaperRun(d, cfg, loads, day, i), BtRun(d, cfg, i);
    OpenDecides(p, cfg, PaperEnv(d, cfg, i, loads(i)), d.strategy.dna);
    StepInParallel(p, st, d, cfg, i, loads(i), loads(i + 1));
  }

  /** On every bar of the window, once the open is executed, paper holds exactly what the backtest holds: the same
      cash, bad debt, funding, position and trades - same bars, order kinds, prices, fees and results - the same number
      of entries that day and the same death; and the management of that bar, the last one included, does the same to
      both. */
  lemma {:induction false} PaperMatchesBacktest(d: Data, cfg: Config, loads: nat -> seq<Rate>, day: int, i: nat)
    requires Comparable(d, cfg) && d.first <= i < d.last && NotEmptied(BtRun(d, cfg, i))
    requires forall j :: d.first <= j < i ==> Undisturbed(d, cfg, loads, day, j)
    ensures InStep(d, cfg, loads, day, i)
    ensures var e, st := PaperAtOpen(d, cfg, loads, day, i), BtRun(d, cfg, i);
      st.pos.Some? && Loaded(st, d, i, loads(i)) ==>
        Managed(Manage(e, cfg, PaperEnv(d, cfg, i, loads(i)), Some(d.strategy.dna)),
                BtManage(BtRollDay(st, d, i), d, cfg, i), e, BtRollDay(st, d, i), d, i)
  {
    hide PaperAtOpen, BtRun, PaperRun, Steady, Parallel, Managed, SameCount, Ready;
    if i == d.first {
      ParallelStart(d, cfg, loads, day);
    } else {
      assert Undisturbed(d, cfg, loads, day, i - 1);
      PaperMatchesBacktest(d, cfg, loads, day, i - 1);
      OneMoreBar(d, cfg, loads, day, i - 1);
    }
    if BtRun(d, cfg, i).pos.Some? && Loaded(BtRun(d, cfg, i), d, i, loads(i)) {
      ManageAgrees(PaperAtOpen(d, cfg, loads, day, i), BtRun(d, cfg, i), d, cfg, i, loads(i));
    }
  }
}
