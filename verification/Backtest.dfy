/** The backtester as functions on values: one iteration of its bar loop, and the run of the loop. */
module Backtest {
  import opened Market
  import opened PnlEngine
  import opened PositionManager
  import opened Accounting
  import opened PaperLoop

  datatype BtTrade = BtTrade(side: Side, entryIndex: int, exitIndex: int, entryPrice: real, exitPrice: real,
                             quantity: real, net: real, reason: Reason, fee: real, funding: real, badDebt: real)

  datatype BtPos = BtPos(side: Side, entryIndex: int, entryPrice: real, quantity: Positive, entryFee: real,
                         stop: Option<real>, tp: Option<real>, trailDistance: Option<real>, trailingActive: bool,
                         peak: real, trough: real, lastFunding: int, funding: real)

  /** What the size of an entry may depend on besides the bars. */
  datatype SizingView = SizingView(balance: real, peakEquity: real, dayStartEquity: real)

  datatype Sizing = Sizing(notional: real, leverage: Leverage)

  /** Features, signals and sizes are functions of the bars up to the one being decided on. */
  datatype Strategy = Strategy(
    dna: Dna,
    context: seq<Bar> -> Option<Intent>,
    signal: (seq<Bar>, Option<Side>) -> Signal,
    size: (seq<Bar>, Side, SizingView) -> Sizing)

  /** A run: bars `first` to `last` of `bars`, the published funding, the strategy and the starting equity. */
  datatype Data = Data(bars: seq<Bar>, funding: seq<Rate>, intervalMs: int, strategy: Strategy, first: nat, last: nat,
                       start: real)
  {
    ghost predicate Valid() { last <= |bars| && intervalMs > 0 }

    function Prefix(i: nat): seq<Bar>
      requires i < |bars|
    {
      bars[..i + 1]
    }

    function CloseMs(i: nat): int
      requires i < |bars|
    {
      bars[i].openTime + intervalMs - 1
    }
  }

  /** The local variables of the loop. `stopped`: the loop has been left by its `break`. */
  datatype Bt = Bt(balance: real, pos: Option<BtPos>, cooldownUntil: int, dead: bool, stopped: bool,
                   totalFunding: real, totalBadDebt: real, trades: seq<BtTrade>, curve: seq<real>,
                   peakEquity: real, dayStartEquity: real, day: Option<int>, dailyTrades: nat)

  function Init(d: Data): Bt {
    Bt(d.start, None, -1, false, false, 0.0, 0.0, [], [], d.start, d.start, None, 0)
  }

  function BtUpnl(p: BtPos, price: real): real { UnrealizedPnL(p.side, p.quantity, p.entryPrice, price) }

  // ---------------------------------------------------------------- closing

  function BtBankruptcyLevel(d: Data, cfg: Config): real { Max(0.0, d.start * cfg.bankruptcyFraction) }

  function BtClose(st: Bt, d: Data, cfg: Config, p: BtPos, reference: real, kind: OrderKind, reason: Reason,
                   at: int): Bt {
    var quote := ExitQuote(p.side, p.quantity, reference, kind, cfg.costs);
    BtBook(st, d, cfg, p, quote.price, quote.fee + LiquidationPenalty(kind, quote.price, p.quantity, cfg.costs),
           reason, at)
  }

  function BtBook(st: Bt, d: Data, cfg: Config, p: BtPos, price: real, fee: real, reason: Reason, at: int): Bt {
    var pnl := ComputeTradePnL(p.side, p.quantity, p.entryPrice, price, p.entryFee, fee, p.funding);
    var settled := SettleClose(st.balance, pnl.gross, fee);
    var bars := CooldownBars(Some(d.strategy.dna), pnl.net);
    st.(balance := settled.newBalance, pos := None,
        cooldownUntil := if bars > 0 then at + bars else st.cooldownUntil,
        dead := st.dead || (reason.Liquidation? && cfg.liquidationIsFatal)
                || settled.newBalance <= BtBankruptcyLevel(d, cfg),
        totalBadDebt := st.totalBadDebt + settled.badDebt,
        trades := st.trades + [BtTrade(p.side, p.entryIndex, at, p.entryPrice, price, p.quantity, pnl.net, reason,
                                       p.entryFee + fee, p.funding, settled.badDebt)])
  }

  // ---------------------------------------------------------------- managing

  datatype BtHolding = BtHolding(balance: real, total: real, pos: BtPos)

  /** The funding loop: every event of the list is tested against the position as it is by then. */
  function BtCharge(h: BtHolding, events: seq<Rate>, closeMs: int, mark: real): BtHolding {
    if events == [] then h
    else
      var c, r := BtCharge(h, events[..|events| - 1], closeMs, mark), events[|events| - 1];
      if c.pos.lastFunding < r.time <= closeMs then BtChargeOne(c, r, mark) else c
  }

  function BtChargeOne(h: BtHolding, r: Rate, mark: real): BtHolding {
    var amount := FundingPayment(h.pos.side, h.pos.quantity, mark, r.rate);
    BtHolding(h.balance - amount, h.total + amount, h.pos.(funding := h.pos.funding + amount, lastFunding := r.time))
  }

  lemma {:induction false} BtChargeKeepsRest(b: BtHolding, events: seq<Rate>, closeMs: int, mark: real)
    ensures var c := BtCharge(b, events, closeMs, mark);
      c.pos == b.pos.(funding := c.pos.funding, lastFunding := c.pos.lastFunding)
  {
    if events != [] {
      BtChargeKeepsRest(b, events[..|events| - 1], closeMs, mark);
    }
  }

  function BtFunded(st: Bt, d: Data, p: BtPos, i: nat): Bt
    requires i < |d.bars|
  {
    var h := BtCharge(BtHolding(st.balance, st.totalFunding, p), d.funding, d.CloseMs(i), d.bars[i].close);
    st.(balance := h.balance, totalFunding := h.total, pos := Some(h.pos))
  }

  function BtLevels(p: BtPos, balance: real, cfg: Config, dna: Dna): Levels {
    Levels(p.side, p.entryPrice, p.stop, p.tp, p.trailDistance, dna.activationPct, p.trailingActive,
           Some(p.peak), Some(p.trough), LiquidationPrice(p.side, p.entryPrice, p.quantity, balance, cfg.mmr))
  }

  function BtSurvived(p: BtPos, levels: Levels, bar: Bar): BtPos {
    var (peak, trough, active) := AdvanceExtremes(levels, bar);
    p.(peak := peak, trough := trough, trailingActive := active)
  }

  function BtProtect(st: Bt, d: Data, cfg: Config, i: nat): Bt
    requires st.pos.Some? && i < |d.bars|
  {
    var p, bar := st.pos.value, d.bars[i];
    var levels := BtLevels(p, st.balance, cfg, d.strategy.dna);
    var trigger := EvaluateBar(levels, bar, cfg.sameBarExtreme);
    if trigger.Some? then
      BtClose(st, d, cfg, p, trigger.value.reference, trigger.value.kind, trigger.value.reason, i)
    else
      var q := BtSurvived(p, levels, bar);
      if Liquidatable(q.side, q.entryPrice, q.quantity, st.balance, cfg.mmr, bar.close)
      then BtClose(st.(pos := Some(q)), d, cfg, q, bar.close, LiquidationOrder, Liquidation, i)
      else st.(pos := Some(q))
  }

  predicate Held(st: Bt, i: nat) { st.pos.Some? && st.pos.value.entryIndex <= i }

  function BtManage(st: Bt, d: Data, cfg: Config, i: nat): Bt
    requires i < |d.bars|
  {
    if Held(st, i) then BtProtect(BtFunded(st, d, st.pos.value, i), d, cfg, i) else st
  }

  function BtRollDay(st: Bt, d: Data, i: nat): Bt
    requires i < |d.bars|
  {
    var today := Day(d.bars[i].openTime);
    if st.day == Some(today) then st
    else st.(day := Some(today), dailyTrades := 0,
             dayStartEquity := if st.pos.None? then st.balance else st.balance + BtUpnl(st.pos.value, d.bars[i].open))
  }

  // ---------------------------------------------------------------- the signal at the close

  function FillIndex(d: Data, i: nat): int { if i + 1 < |d.bars| then i + 1 else |d.bars| - 1 }

  function NextOpen(d: Data, i: nat): real
    requires i < |d.bars|
  {
    if i + 1 < |d.bars| then d.bars[i + 1].open else d.bars[i].close
  }

  /** What the strategy and its risk checks grant an entry on this bar. */
  function BtSize(st: Bt, d: Data, i: nat, side: Side): Sizing
    requires i < |d.bars|
  {
    d.strategy.size(d.Prefix(i), side, SizingView(st.balance, st.peakEquity, st.dayStartEquity))
  }

  function EntryQuantity(st: Bt, d: Data, cfg: Config, i: nat, side: Side, reference: real): real
    requires i < |d.bars|
  {
    var sizing := BtSize(st, d, i, side);
    var notional := ApproveAgainstMargin(sizing.notional, sizing.leverage, st.balance);
    cfg.quantityStep(if reference > 0.0 then notional / reference else 0.0)
  }

  function BtEnter(st: Bt, d: Data, cfg: Config, i: nat, side: Side, intent: Intent): Bt
    requires i < |d.bars|
  {
    BtEnterAt(st, d, cfg, i, side, intent, NextOpen(d, i), EntryQuantity(st, d, cfg, i, side, NextOpen(d, i)))
  }

  function BtEnterAt(st: Bt, d: Data, cfg: Config, i: nat, side: Side, intent: Intent, reference: real,
                     quantity: real): Bt
    requires i < |d.bars|
  {
    if Tradeable(cfg, quantity, reference)
    then BtOpen(st, d, cfg, i, side, intent, quantity, EntryQuote(side, quantity, reference, cfg.costs))
    else st
  }

  function BtOpen(st: Bt, d: Data, cfg: Config, i: nat, side: Side, intent: Intent, quantity: Positive,
                  quote: Quote): Bt
    requires i < |d.bars|
  {
    var lv := d.strategy.dna.levels(side, quote.price, intent);
    st.(balance := st.balance - quote.fee, dailyTrades := st.dailyTrades + 1,
        pos := Some(BtPos(side, FillIndex(d, i), quote.price, quantity, quote.fee, lv.stopLoss, lv.takeProfit,
                          lv.trailingDistance, lv.trailingActive, quote.price, quote.price, d.CloseMs(i), 0.0)))
  }

  /** `exited`: the position was closed by the management of this very bar. */
  function BtSignal(st: Bt, d: Data, cfg: Config, i: nat, exited: bool, intent: Intent): Bt
    requires i < |d.bars|
  {
    var signal := d.strategy.signal(d.Prefix(i), if st.pos.Some? then Some(st.pos.value.side) else None);
    if Held(st, i) && !exited && signal.matchedExit then
      BtClose(st, d, cfg, st.pos.value, NextOpen(d, i), MarketOrder, SignalExit, FillIndex(d, i))
    else if st.pos.None? && !exited && signal.matchedEntry && i + 1 < d.last && !st.dead
            && i >= st.cooldownUntil && st.dailyTrades < d.strategy.dna.maxTradesPerDay then
      BtEnter(st, d, cfg, i, signal.side, intent)
    else st
  }

  function BtMark(st: Bt, d: Data, i: nat): Bt
    requires i < |d.bars|
  {
    var equity := st.balance + (if Held(st, i) then BtUpnl(st.pos.value, d.bars[i].close) else 0.0);
    st.(curve := st.curve + [equity], peakEquity := Max(st.peakEquity, equity),
        dead := st.dead || equity <= 0.0, stopped := equity <= 0.0)
  }

  // ---------------------------------------------------------------- the loop

  function BtIterate(st: Bt, d: Data, cfg: Config, i: nat): Bt
    requires i < |d.bars|
  {
    var context := d.strategy.context(d.Prefix(i));
    if st.stopped || context.None? then st
    else
      var rolled := BtRollDay(st, d, i);
      var managed := BtManage(rolled, d, cfg, i);
      if managed.dead then managed.(curve := managed.curve + [Max(0.0, managed.balance)], stopped := true)
      else BtMark(BtSignal(managed, d, cfg, i, Held(rolled, i) && managed.pos.None?, context.value), d, i)
  }

  /** The state before iteration `i`. */
  function BtRun(d: Data, cfg: Config, i: nat): Bt
    requires i <= |d.bars|
  {
    if i <= d.first then Init(d) else BtIterate(BtRun(d, cfg, i - 1), d, cfg, i - 1)
  }

  /** A position still open after the last bar is closed at that bar's close. */
  function BtFinish(st: Bt, d: Data, cfg: Config): Bt
    requires d.last <= |d.bars|
  {
    if st.pos.Some? && !st.dead && d.last > 0 then
      var closed := BtClose(st, d, cfg, st.pos.value, d.bars[d.last - 1].close, MarketOrder, EndOfData, d.last - 1);
      if closed.curve != [] then closed.(curve := closed.curve[|closed.curve| - 1 := closed.balance]) else closed
    else st
  }

  lemma {:induction false} StoppedStays(d: Data, cfg: Config, i: nat, j: nat)
    requires i <= j <= |d.bars| && BtRun(d, cfg, i).stopped
    ensures BtRun(d, cfg, j) == BtRun(d, cfg, i)
  {
    if i < j && d.first < j {
      StoppedStays(d, cfg, i, j - 1);
    }
  }
}
