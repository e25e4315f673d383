/** What one bar does to one agent's account, as functions on values: the specification of the per-candle loop. */
module PaperLoop {
  import opened Market
  import opened PnlEngine
  import opened PositionManager
  import opened Accounting

  datatype Status = Active | Paused | Dead | Retired

  /** An agent's row. One history variable: `marks`, its starting equity and every equity it was marked at while alive;
      the figures a death or a rollover freezes are not among them. */
  datatype Agent = Agent(
    startingBalance: real, balance: real, equity: real, peakEquity: real, maxDrawdown: real, bestMilestone: real,
    realizedPnl: real, feesPaid: real, fundingPaid: real, badDebt: real, status: Status,
    tradeCount: nat, dayStart: int, dayStartEquity: real, dailyTradeCount: nat, cooldownUntil: Option<int>,
    finalEquity: Option<real>, finalPnl: Option<real>, marks: seq<real>)

  datatype Rate = Rate(time: int, rate: real)

  /** A row of the funding table: one settlement charged to one position. */
  datatype Payment = Payment(time: int, amount: real)

  /** An open position. `payments` are its rows of the funding table. Three history variables: `evaluations`, the bars
      whose prices were held against the protective levels, `exitSignals`, the bars that signalled an exit, and
      `fundingFrom`, the last funding time the position was opened with. */
  datatype Position = Position(
    side: Side, quantity: Positive, entryPrice: real, entryFee: real,
    stopLoss: Option<real>, takeProfit: Option<real>, trailingDistance: Option<real>, trailingActive: bool,
    peak: real, trough: real, lastFunding: int, fundingAccrued: real, payments: seq<Payment>,
    lastProcessed: Option<int>, pendingExit: Option<int>, exitAttempts: nat,
    entryBar: int, openedAt: int, evaluations: seq<int>, exitSignals: seq<int>, fundingFrom: int)

  datatype OrderStatus = Pending | Filled(at: int) | Failed(at: int) | Cancelled

  /** An entry order, decided on the close of the bar `signalTime`. */
  datatype Order = Order(signalTime: int, side: Side, notional: real, leverage: Leverage, intent: Intent,
                         status: OrderStatus)

  datatype Trade = Trade(position: Position, kind: OrderKind, reason: Reason, forced: bool, exitPrice: real,
                         exitBar: int, closedAt: int, gross: real, fees: real, funding: real, net: real, badDebt: real)

  /** The rows of one agent. `decided` holds the open times of the bars that have a decision row. */
  datatype Account = Account(agent: Agent, position: Option<Position>, orders: seq<Order>, trades: seq<Trade>,
                             decided: set<int>)

  datatype Signal = Signal(matchedEntry: bool, matchedExit: bool, side: Side)

  datatype Verdict = Vetoed | Approved(notional: real, leverage: Leverage)

  datatype EntryRequest = EntryRequest(side: Side, quantity: real, reference: real)

  datatype EntryResult = EntryFilled(price: real, quantity: Positive, fee: real) | EntryRefused

  /** `bar` and `attempt` make up the client order id. */
  datatype ExitRequest = ExitRequest(bar: int, attempt: nat, side: Side, quantity: real, reference: real,
                                     kind: OrderKind)

  datatype ExitResult = ExitFilled(price: real, fee: real) | ExitRefused

  /** One confirmed candle with everything the loop is given for it. */
  datatype Env = Env(
    bar: Bar, intervalMs: int, rates: seq<Rate>, halted: bool, nextOpen: bool, paper: bool, live: bool,
    capAudited: bool, intent: Intent,
    signal: Option<Side> -> Signal,
    risk: (Side, Agent) -> Verdict,
    fillEntry: EntryRequest -> EntryResult,
    fillExit: ExitRequest -> ExitResult)
  {
    function K(): int { bar.openTime }

    function CloseMs(): int { bar.openTime + intervalMs - 1 }
  }

  // ---------------------------------------------------------------- equity, death, milestones

  const MILESTONES: seq<real> := [2.0, 3.0, 5.0, 10.0, 25.0, 50.0, 100.0]

  function BankruptcyLevel(a: Agent, cfg: Config): real { Max(0.0, a.startingBalance * cfg.bankruptcyFraction) }

  function MarkDead(a: Agent): Agent {
    if a.status.Dead? then a
    else a.(status := Dead, finalEquity := Some(a.equity), finalPnl := Some(a.equity - a.startingBalance))
  }

  function RelativeFall(peak: real, equity: real): real
    requires peak > 0.0
  {
    (peak - equity) / peak
  }

  function DrawdownAfter(worst: real, peak: real, equity: real): real {
    if peak > 0.0 then Max(worst, Max(0.0, RelativeFall(peak, equity))) else worst
  }

  /** The best of `best` and the first `n` milestones that `multiple` reaches. */
  function MilestoneAfter(best: real, multiple: real, n: nat): real
    requires n <= |MILESTONES|
  {
    if n == 0 then best
    else
      var b := MilestoneAfter(best, multiple, n - 1);
      if multiple >= MILESTONES[n - 1] && b < MILESTONES[n - 1] then MILESTONES[n - 1] else b
  }

  function UpdateEquity(a: Agent, equity: real, cfg: Config): Agent {
    var peak := Max(a.peakEquity, equity);
    var updated := a.(
      equity := equity, peakEquity := peak, maxDrawdown := DrawdownAfter(a.maxDrawdown, peak, equity),
      marks := a.marks + [equity],
      bestMilestone := if a.startingBalance > 0.0
        then MilestoneAfter(a.bestMilestone, equity / a.startingBalance, |MILESTONES|) else a.bestMilestone);
    if equity <= BankruptcyLevel(a, cfg) then MarkDead(updated) else updated
  }

  /** A dead agent's account is frozen. */
  function SetEquity(a: Agent, equity: real, cfg: Config): Agent {
    if a.status.Dead? then a else UpdateEquity(a, equity, cfg)
  }

  function Refrozen(a: Agent): Agent {
    a.(equity := a.balance, finalEquity := Some(a.balance), finalPnl := Some(a.balance - a.startingBalance))
  }

  function RollDay(a: Agent, env: Env): Agent {
    if a.dayStart != Day(env.K())
    then a.(dayStart := Day(env.K()), dayStartEquity := a.equity, dailyTradeCount := 0) else a
  }

  // ---------------------------------------------------------------- closing

  function AfterCosts(a: Agent, st: Settlement, net: real, exitFee: real): Agent {
    a.(balance := st.newBalance, badDebt := a.badDebt + st.badDebt, realizedPnl := a.realizedPnl + net,
       feesPaid := a.feesPaid + exitFee)
  }

  function AfterClose(a: Agent, cfg: Config, reason: Reason): Agent {
    var marked := SetEquity(a, a.balance, cfg);
    var judged := if reason.Liquidation? && cfg.liquidationIsFatal then MarkDead(marked) else marked;
    if judged.status.Dead? then Refrozen(judged) else judged
  }

  function WithCooldown(a: Agent, env: Env, bars: nat): Agent {
    if bars > 0 then a.(cooldownUntil := Some(env.K() + bars * env.intervalMs)) else a
  }

  /** Books the close of `p` at `price`; `exitFee` includes any liquidation penalty. */
  function Book(acct: Account, cfg: Config, env: Env, dna: Option<Dna>, p: Position, price: real, exitFee: real,
                kind: OrderKind, reason: Reason, forced: bool): Account
  {
    var pnl := ComputeTradePnL(p.side, p.quantity, p.entryPrice, price, p.entryFee, exitFee, p.fundingAccrued);
    var st := SettleClose(acct.agent.balance, pnl.gross, exitFee);
    var agent := AfterClose(AfterCosts(acct.agent, st, pnl.net, exitFee), cfg, reason);
    Account(WithCooldown(agent, env, CooldownBars(dna, pnl.net)), None, acct.orders,
            acct.trades + [Trade(p, kind, reason, forced, price, env.K(), env.CloseMs(),
                                 pnl.gross, pnl.fees, pnl.funding, pnl.net, st.badDebt)],
            acct.decided)
  }

  /** Books a filled exit; a liquidation also pays the exchange penalty. */
  function Settle(acct: Account, cfg: Config, env: Env, dna: Option<Dna>, p: Position, price: real, fee: real,
                  kind: OrderKind, reason: Reason, forced: bool): Account
  {
    Book(acct, cfg, env, dna, p, price, fee + LiquidationPenalty(kind, price, p.quantity, cfg.costs), kind, reason,
         forced)
  }

  /** Settlement at the modelled price, for an exit the engine keeps refusing. */
  function ForceSettle(acct: Account, cfg: Config, env: Env, dna: Option<Dna>, p: Position, reference: real,
                       kind: OrderKind, reason: Reason): Account
  {
    var quote := ExitQuote(p.side, p.quantity, reference, kind, cfg.costs);
    Settle(acct, cfg, env, dna, p, quote.price, quote.fee, kind, reason, true)
  }

  function ExitOrder(p: Position, env: Env, reference: real, kind: OrderKind): ExitRequest {
    ExitRequest(env.K(), p.exitAttempts, p.side, p.quantity, reference, kind)
  }

  function Tried(p: Position): Position { p.(exitAttempts := p.exitAttempts + 1) }

  function Decided(acct: Account, env: Env): Account { acct.(decided := acct.decided + {env.K()}) }

  /** Asks the engine for a reduce-only fill. A refusal leaves the position open and counts an attempt; off the live
      venue the last allowed attempt settles at the modelled price instead. */
  function ClosePosition(acct: Account, cfg: Config, env: Env, dna: Option<Dna>, reference: real, kind: OrderKind,
                         reason: Reason): Account
    requires acct.position.Some?
  {
    var p := acct.position.value;
    match env.fillExit(ExitOrder(p, env, reference, kind))
    case ExitFilled(price, fee) => Settle(Decided(acct, env), cfg, env, dna, p, price, fee, kind, reason, false)
    case ExitRefused =>
      var refused := Decided(acct, env).(position := Some(Tried(p)));
      if env.live || Tried(p).exitAttempts < cfg.forceSettleAfter then refused
      else ForceSettle(refused, cfg, env, dna, Tried(p), reference, kind, reason)
  }

  // ---------------------------------------------------------------- funding

  /** The settlements in (last, closeMs], in order. */
  function Due(rates: seq<Rate>, last: int, closeMs: int): seq<Rate> {
    if rates == [] then []
    else
      var r := rates[|rates| - 1];
      Due(rates[..|rates| - 1], last, closeMs) + (if last < r.time <= closeMs then [r] else [])
  }

  datatype Holding = Holding(agent: Agent, position: Position)

  function ChargeOne(h: Holding, r: Rate, mark: real): Holding {
    var amount := FundingPayment(h.position.side, h.position.quantity, mark, r.rate);
    Holding(h.agent.(balance := h.agent.balance - amount, fundingPaid := h.agent.fundingPaid + amount),
            h.position.(fundingAccrued := h.position.fundingAccrued + amount, lastFunding := r.time,
                        payments := h.position.payments + [Payment(r.time, amount)]))
  }

  function Charge(h: Holding, due: seq<Rate>, mark: real): Holding {
    if due == [] then h else ChargeOne(Charge(h, due[..|due| - 1], mark), due[|due| - 1], mark)
  }

  function Accrue(acct: Account, env: Env): Account
    requires acct.position.Some?
  {
    var p := acct.position.value;
    var h := Charge(Holding(acct.agent, p), Due(env.rates, p.lastFunding, env.CloseMs()), env.bar.close);
    acct.(agent := h.agent, position := Some(h.position))
  }

  // ---------------------------------------------------------------- managing the open position

  function LevelsOf(p: Position, balance: real, cfg: Config, dna: Option<Dna>): Levels {
    Levels(p.side, p.entryPrice, p.stopLoss, p.takeProfit, p.trailingDistance, Activation(dna), p.trailingActive,
           Some(p.peak), Some(p.trough), LiquidationPrice(p.side, p.entryPrice, p.quantity, balance, cfg.mmr))
  }

  predicate Processed(p: Position, k: int) { p.lastProcessed.Some? && p.lastProcessed.value >= k }

  /** The position after a bar it survived. */
  function Survived(p: Position, levels: Levels, bar: Bar): Position {
    var (peak, trough, active) := AdvanceExtremes(levels, bar);
    p.(peak := peak, trough := trough, trailingActive := active)
  }

  function Evaluated(p: Position, k: int): Position {
    p.(lastProcessed := Some(k), evaluations := p.evaluations + [k])
  }

  /** The protective evaluation, once funding is applied. */
  function Protect(acct: Account, cfg: Config, env: Env, dna: Option<Dna>): Account
    requires acct.position.Some?
  {
    var p := acct.position.value;
    var levels := LevelsOf(p, acct.agent.balance, cfg, dna);
    var held := acct.(position := Some(Evaluated(p, env.K())));
    var trigger := EvaluateBar(levels, env.bar, cfg.sameBarExtreme);
    if trigger.Some? then
      ClosePosition(held, cfg, env, dna, trigger.value.reference, trigger.value.kind, trigger.value.reason)
    else
      Mark(held.(position := Some(Survived(Evaluated(p, env.K()), levels, env.bar))), cfg, env, dna)
  }

  /** The margin test at the close of a bar that no level ended, and the mark to market. */
  function Mark(acct: Account, cfg: Config, env: Env, dna: Option<Dna>): Account
    requires acct.position.Some?
  {
    var p, balance := acct.position.value, acct.agent.balance;
    if Liquidatable(p.side, p.entryPrice, p.quantity, balance, cfg.mmr, env.bar.close) then
      ClosePosition(acct, cfg, env, dna, env.bar.close, LiquidationOrder, Liquidation)
    else
      acct.(agent := SetEquity(acct.agent, Equity(p.side, p.entryPrice, p.quantity, balance, env.bar.close), cfg))
  }

  /** Funding, protective exit, mark. A bar that was already processed is left alone. */
  function Manage(acct: Account, cfg: Config, env: Env, dna: Option<Dna>): Account
    requires acct.position.Some?
  {
    if Processed(acct.position.value, env.K()) then acct else Protect(Accrue(acct, env), cfg, env, dna)
  }

  // ---------------------------------------------------------------- orders

  /** The PENDING entry the loop finds for the agent: the last one in the table. */
  function PendingIndex(orders: seq<Order>): Option<nat> {
    if orders == [] then None
    else if orders[|orders| - 1].status.Pending? then Some(|orders| - 1)
    else PendingIndex(orders[..|orders| - 1])
  }

  lemma {:induction false} PendingIndexBound(orders: seq<Order>)
    ensures PendingIndex(orders).Some? ==>
      PendingIndex(orders).value < |orders| && orders[PendingIndex(orders).value].status.Pending?
    ensures PendingIndex(orders).None? <==> forall i :: 0 <= i < |orders| ==> !orders[i].status.Pending?
  {
    if orders != [] && !orders[|orders| - 1].status.Pending? {
      PendingIndexBound(orders[..|orders| - 1]);
    }
  }

  function WithStatus(orders: seq<Order>, i: nat, status: OrderStatus): seq<Order>
    requires i < |orders|
  {
    orders[i := orders[i].(status := status)]
  }

  /** A pending entry older than one bar is cancelled, never filled late. */
  function CancelStale(orders: seq<Order>, cutoff: int): seq<Order> {
    seq(|orders|, i requires 0 <= i < |orders| =>
      if orders[i].status.Pending? && orders[i].signalTime < cutoff then orders[i].(status := Cancelled) else orders[i])
  }

  function CancelPending(orders: seq<Order>): seq<Order> {
    seq(|orders|, i requires 0 <= i < |orders| =>
      if orders[i].status.Pending? then orders[i].(status := Cancelled) else orders[i])
  }

  function Opened(o: Order, env: Env, dna: Dna, price: real, quantity: Positive, fee: real, immediate: bool): Position {
    var lv := dna.levels(o.side, price, o.intent);
    var lastFunding := if immediate then env.CloseMs() else env.K() - 1;
    Position(o.side, quantity, price, fee, lv.stopLoss, lv.takeProfit, lv.trailingDistance, lv.trailingActive,
             price, price, lastFunding, 0.0, [], if immediate then Some(env.K()) else None, None, 0,
             env.K(), if immediate then env.CloseMs() else env.K(), [], [], lastFunding)
  }

  function AfterEntry(a: Agent, cfg: Config, fee: real): Agent {
    var paid := a.(balance := a.balance - fee, feesPaid := a.feesPaid + fee, tradeCount := a.tradeCount + 1,
                   dailyTradeCount := a.dailyTradeCount + 1);
    SetEquity(paid, paid.balance, cfg)
  }

  /** Submits order `i` and opens the position from its fill. */
  function FillEntry(acct: Account, cfg: Config, env: Env, dna: Dna, i: nat, reference: real, immediate: bool): Account
    requires i < |acct.orders|
  {
    var o := acct.orders[i];
    var notional := ApproveAgainstMargin(o.notional, o.leverage, Max(0.0, acct.agent.balance));
    var quantity := if reference > 0.0 then notional / reference else 0.0;
    match env.fillEntry(EntryRequest(o.side, quantity, reference))
    case EntryRefused =>
      Decided(acct, env).(orders := WithStatus(acct.orders, i, Failed(env.K())))
    case EntryFilled(price, filled, fee) =>
      acct.(agent := AfterEntry(acct.agent, cfg, fee),
            position := Some(Opened(o, env, dna, price, filled, fee, immediate)),
            orders := WithStatus(acct.orders, i, Filled(env.K())))
  }

  function ExecutePendingEntry(acct: Account, cfg: Config, env: Env, dna: Dna, i: nat): Account
    requires i < |acct.orders|
  {
    if acct.orders[i].signalTime != env.K() - env.intervalMs || env.halted || !acct.agent.status.Active? then
      acct.(orders := WithStatus(acct.orders, i, Cancelled))
    else FillEntry(acct, cfg, env, dna, i, env.bar.open, false)
  }

  /** A signal exit executes at the open of the bar after its signal; a stale one is dropped. */
  function ExecutePendingExit(acct: Account, cfg: Config, env: Env, dna: Option<Dna>): Account
    requires acct.position.Some?
  {
    var p := acct.position.value;
    var taken := acct.(position := Some(p.(pendingExit := None)));
    if p.pendingExit != Some(env.K() - env.intervalMs) then taken
    else ClosePosition(taken, cfg, env, dna, env.bar.open, MarketOrder, SignalExit)
  }

  /** What the close of the previous bar decided. */
  function ExecuteNextOpen(acct: Account, cfg: Config, env: Env, dna: Dna): Account {
    if acct.position.Some? then
      if acct.position.value.pendingExit.Some? then ExecutePendingExit(acct, cfg, env, Some(dna)) else acct
    else
      PendingIndexBound(acct.orders);
      var i := PendingIndex(acct.orders);
      if i.Some? then ExecutePendingEntry(acct, cfg, env, dna, i.value) else acct
  }

  // ---------------------------------------------------------------- the signal at the close

  function Signalled(p: Position, k: int): Position { p.(exitSignals := p.exitSignals + [k]) }

  function HoldOrExit(acct: Account, cfg: Config, env: Env, dna: Dna): Account
    requires acct.position.Some?
  {
    var p := acct.position.value;
    if !env.signal(Some(p.side)).matchedExit then acct
    else if env.nextOpen then
      Decided(acct, env).(position := Some(Signalled(p, env.K()).(pendingExit := Some(env.K()))))
    else
      ClosePosition(acct.(position := Some(Signalled(p, env.K()))), cfg, env, Some(dna), env.bar.close, MarketOrder,
                    SignalExit)
  }

  predicate CoolingDown(a: Agent, k: int) { a.cooldownUntil.Some? && k < a.cooldownUntil.value }

  /** The notional an entry signal may trade, after the Risk Engine, the margin cap and the exchange minimum. */
  function ApprovedNotional(a: Agent, cfg: Config, env: Env, verdict: Verdict): real {
    if verdict.Vetoed? then 0.0
    else
      var approved := ApproveAgainstMargin(verdict.notional, verdict.leverage, Max(0.0, a.balance));
      if env.paper && cfg.belowMinimum(approved, env.bar.close) then 0.0 else approved
  }

  function PlaceEntry(acct: Account, cfg: Config, env: Env, dna: Dna): Account {
    var signal := env.signal(None);
    var kept := Decided(acct, env);
    if !signal.matchedEntry then acct
    else if CoolingDown(acct.agent, env.K()) then kept
    else if acct.agent.dailyTradeCount >= dna.maxTradesPerDay then (if env.capAudited then acct else kept)
    else
      var verdict := env.risk(signal.side, acct.agent);
      var notional := ApprovedNotional(acct.agent, cfg, env, verdict);
      if notional <= 0.0 then kept
      else
        var order := Order(env.K(), signal.side, notional, verdict.leverage, env.intent, Pending);
        var placed := kept.(orders := acct.orders + [order]);
        if env.nextOpen then placed else FillEntry(placed, cfg, env, dna, |acct.orders|, env.bar.close, true)
  }

  // ---------------------------------------------------------------- one agent, one bar

  /** From the management of the bar on: everything after the next-open executions. */
  function ManageAndSignal(acct: Account, cfg: Config, env: Env, dna: Dna): Account {
    if acct.position.None? then PlaceEntry(acct, cfg, env, dna)
    else
      var managed := Manage(acct, cfg, env, Some(dna));
      if managed.position.None? then managed
      else if managed.agent.status.Dead? then
        ClosePosition(managed, cfg, env, Some(dna), env.bar.close, LiquidationOrder, AgentDeath)
      else HoldOrExit(managed, cfg, env, dna)
  }

  function AtTheOpen(acct: Account, cfg: Config, env: Env, dna: Dna): Account {
    ExecuteNextOpen(acct.(agent := RollDay(acct.agent, env)), cfg, env, dna)
  }

  /** An entry order the cycle loaded and has not executed; only a position at the start of the bar can leave one. */
  predicate StillHeld(before: Account, after: Account) {
    PendingIndexBound(before.orders);
    var i := PendingIndex(before.orders);
    before.position.Some? && i.Some? && i.value < |after.orders| && after.orders[i.value].status.Pending?
  }

  function ProcessAgent(acct: Account, cfg: Config, env: Env, dna: Dna): Account {
    var after := ManageAndSignal(AtTheOpen(acct, cfg, env, dna), cfg, env, dna);
    if after.agent.status.Active? && after.position.None? && after.agent.equity < cfg.minViableEquity
       && !StillHeld(acct, after)
    then after.(agent := MarkDead(after.agent)) else after
  }

  /** The protective pass for one position; an owner that is not active cannot keep it. */
  function ProtectOne(acct: Account, cfg: Config, env: Env, dna: Option<Dna>): Account
    requires acct.position.Some?
  {
    var managed := Manage(acct, cfg, env, dna);
    if managed.position.Some? && !managed.agent.status.Active? then
      ClosePosition(managed, cfg, env, dna, env.bar.close,
                    if managed.agent.status.Dead? then LiquidationOrder else MarketOrder,
                    if managed.agent.status.Dead? then AgentDeath else OrphanResolution)
    else managed
  }

  // ---------------------------------------------------------------- cycles, sweeps, rollover

  /** What goes wrong in one pass: the agent's savepoint, its protective savepoint, the commit (a lost lease). */
  datatype Faults = Faults(process: bool, protect: bool, commit: bool)

  function Sweep(acct: Account, cfg: Config, env: Env, dna: Option<Dna>, faults: Faults): Account {
    if acct.position.None? || Processed(acct.position.value, env.K()) || faults.protect then acct
    else ProtectOne(acct, cfg, env, dna)
  }

  function Decide(acct: Account, cfg: Config, env: Env, dna: Option<Dna>, cycled: bool, faults: Faults): Account {
    if !cycled || !acct.agent.status.Active? || env.K() in acct.decided then acct
    else if dna.None? then
      (if acct.position.None? then acct.(agent := acct.agent.(status := Paused)) else acct)
    else if faults.process then acct
    else ProcessAgent(acct, cfg, env, dna.value)
  }

  /** One decision cycle. `cycled`: the agent belongs to the generation this cycle runs. */
  function Cycle(acct: Account, cfg: Config, env: Env, dna: Option<Dna>, cycled: bool, faults: Faults): Account {
    if faults.commit then acct
    else
      var swept := Sweep(Decide(acct, cfg, env, dna, cycled, faults), cfg, env, dna, faults);
      swept.(orders := CancelStale(swept.orders, env.K() - env.intervalMs))
  }

  function ProtectivePass(acct: Account, cfg: Config, env: Env, dna: Option<Dna>, faults: Faults): Account {
    if faults.commit then acct else Sweep(acct, cfg, env, dna, faults)
  }

  function RolloverFee(p: Position, mark: real, feeRate: real): real { mark * p.quantity * feeRate }

  function RolledOver(acct: Account, mark: real, feeRate: real, at: int): Account
    requires acct.position.Some?
  {
    var p := acct.position.value;
    var exitFee := RolloverFee(p, mark, feeRate);
    var pnl := ComputeTradePnL(p.side, p.quantity, p.entryPrice, mark, p.entryFee, exitFee, p.fundingAccrued);
    var st := SettleClose(acct.agent.balance, pnl.gross, exitFee);
    var paid := AfterCosts(acct.agent, st, pnl.net, exitFee);
    var agent := if paid.status.Dead? then Refrozen(paid) else paid.(equity := paid.balance);
    var closedAt := if at >= p.openedAt then at else p.openedAt;
    acct.(agent := agent, position := None,
          trades := acct.trades + [Trade(p, MarketOrder, GenerationRollover, false, mark, closedAt, closedAt,
                                         pnl.gross, pnl.fees, pnl.funding, pnl.net, st.badDebt)])
  }

  /** The end of a generation: the position is closed at the mark, pending entries are cancelled, the agent retires. */
  function Rollover(acct: Account, mark: real, feeRate: real, at: int): Account {
    var closed := if acct.position.Some? then RolledOver(acct, mark, feeRate, at) else acct;
    var a := closed.agent;
    closed.(orders := CancelPending(closed.orders),
            agent := if acct.agent.status.Active?
              then a.(status := Retired, finalEquity := Some(a.equity),
                      finalPnl := Some(a.equity - a.startingBalance)) else a)
  }

  // ---------------------------------------------------------------- runs

  datatype Event =
    | Candle(env: Env, dna: Option<Dna>, cycled: bool, faults: Faults)
    | ProtectBar(env: Env, dna: Option<Dna>, faults: Faults)
    | EndOfGeneration(mark: real, feeRate: real, at: int)

  function Step(acct: Account, cfg: Config, e: Event): Account {
    match e
    case Candle(env, dna, cycled, faults) => Cycle(acct, cfg, env, dna, cycled, faults)
    case ProtectBar(env, dna, faults) => ProtectivePass(acct, cfg, env, dna, faults)
    case EndOfGeneration(mark, feeRate, at) => Rollover(acct, mark, feeRate, at)
  }

  /** Any interleaving of cycles, retries, failed and rolled-back passes and rollovers, over bars in any order. */
  function Run(acct: Account, cfg: Config, events: seq<Event>): Account {
    if events == [] then acct else Step(Run(acct, cfg, events[..|events| - 1]), cfg, events[|events| - 1])
  }

  function NewAgent(start: real, day: int): Agent {
    Agent(start, start, start, start, 0.0, 1.0, 0.0, 0.0, 0.0, 0.0, Active, 0, day, start, 0, None, None, None,
          [start])
  }

  function NewAccount(start: real, day: int): Account { Account(NewAgent(start, day), None, [], [], {}) }
}
