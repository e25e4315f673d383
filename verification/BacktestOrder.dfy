/** The order of a backtest's trades: disjoint in time, past the cooldown, within the daily cap. */
module BacktestOrder {
  import opened Market
  import opened PnlEngine
  import opened PositionManager
  import opened Accounting
  import opened PaperLoop
  import opened Backtest

  /** The bars a trade blocks: after a win, a break-even counting as one, or after a loss. */
  function Cooldown(d: Data, t: BtTrade): nat {
    if t.net >= 0.0 then d.strategy.dna.cooldownAfterWin else d.strategy.dna.cooldownAfterLoss
  }

  /** Entries whose signal bar - the bar before the entry - falls on a UTC day. */
  function SignalDay(d: Data, entryIndex: int): Option<int> {
    if 0 < entryIndex <= |d.bars| then Some(Day(d.bars[entryIndex - 1].openTime)) else None
  }

  function CountTrades(trades: seq<BtTrade>, d: Data, day: int): nat {
    if trades == [] then 0
    else CountTrades(trades[..|trades| - 1], d, day)
         + (if SignalDay(d, trades[|trades| - 1].entryIndex) == Some(day) then 1 else 0)
  }

  function EntriesOn(st: Bt, d: Data, day: int): nat {
    CountTrades(st.trades, d, day)
    + (if st.pos.Some? && SignalDay(d, st.pos.value.entryIndex) == Some(day) then 1 else 0)
  }

  ghost predicate ClockAscends(d: Data) {
    forall i, j :: 0 <= i < j < |d.bars| ==> d.bars[i].openTime <= d.bars[j].openTime
  }

  /** Trades ordered and disjoint; each entry signalled only once the previous trade's cooldown was over. */
  ghost predicate TradesOrdered(trades: seq<BtTrade>, d: Data) {
    && (forall k :: 0 <= k < |trades| ==> 0 < trades[k].entryIndex <= trades[k].exitIndex)
    && (forall k :: 0 <= k < |trades| - 1 ==>
          && trades[k].exitIndex < trades[k + 1].entryIndex
          && trades[k].exitIndex + Cooldown(d, trades[k]) <= trades[k + 1].entryIndex - 1)
  }

  /** `i` is the next iteration. */
  ghost predicate Ordered(st: Bt, d: Data, i: nat) {
    && TradesOrdered(st.trades, d)
    && (st.pos.Some? ==> 0 < st.pos.value.entryIndex <= i && st.pos.value.entryIndex < d.last)
    && (st.trades != [] ==>
          var t := st.trades[|st.trades| - 1];
          && t.exitIndex <= i
          && (t.exitIndex + Cooldown(d, t) <= i || t.exitIndex + Cooldown(d, t) <= st.cooldownUntil)
          && (st.pos.Some? ==> t.exitIndex < st.pos.value.entryIndex
                               && t.exitIndex + Cooldown(d, t) <= st.pos.value.entryIndex - 1))
  }

  lemma CloseKeepsOrder(st: Bt, d: Data, cfg: Config, reference: real, kind: OrderKind, reason: Reason, at: int,
                        i: nat, p: BtPos)
    requires Ordered(st, d, i) && st.pos.Some? && st.pos.value.entryIndex <= at <= i + 1
    requires p.entryIndex == st.pos.value.entryIndex
    ensures var b := BtClose(st, d, cfg, p, reference, kind, reason, at);
      Ordered(b, d, i + 1) && b.pos.None? && SameDay(st, b) && SameEntries(st, b)
  {
    hide ExitQuote, LiquidationPenalty, ComputeTradePnL, SettleClose;
    var b := BtClose(st, d, cfg, p, reference, kind, reason, at);
    forall k | 0 <= k < |b.trades| - 1
      ensures b.trades[k].exitIndex < b.trades[k + 1].entryIndex
      ensures b.trades[k].exitIndex + Cooldown(d, b.trades[k]) <= b.trades[k + 1].entryIndex - 1
    {
      assert b.trades[k] == st.trades[k];
    }
  }

  lemma FundedKeepsEntry(h: BtHolding, events: seq<Rate>, closeMs: int, mark: real)
    ensures BtCharge(h, events, closeMs, mark).pos.entryIndex == h.pos.entryIndex
  {}

  lemma ManageKeepsOrder(st: Bt, d: Data, cfg: Config, i: nat)
    requires Ordered(st, d, i) && i < |d.bars|
    ensures var b := BtManage(st, d, cfg, i);
      && (if b.pos.Some? then Ordered(b, d, i) else Ordered(b, d, if Held(st, i) then i + 1 else i))
      && SameDay(st, b) && SameEntries(st, b)
  {
    hide EvaluateBar, BtClose, Liquidatable, BtLevels;
    if Held(st, i) {
      var p, bar := st.pos.value, d.bars[i];
      FundedKeepsEntry(BtHolding(st.balance, st.totalFunding, p), d.funding, d.CloseMs(i), bar.close);
      var funded := BtFunded(st, d, p, i);
      ProtectKeepsOrder(funded, d, cfg, i);
    }
  }

  ghost predicate SameDay(a: Bt, b: Bt) { a.day == b.day && a.dailyTrades == b.dailyTrades }

  /** The same entries, of which the open one may have become the last trade. */
  ghost predicate SameEntries(a: Bt, b: Bt) {
    match a.pos
    case None => b.pos.None? && b.trades == a.trades
    case Some(p) =>
      if b.pos.Some? then b.trades == a.trades && b.pos.value.entryIndex == p.entryIndex
      else
        && |b.trades| == |a.trades| + 1 && b.trades[..|a.trades|] == a.trades
        && b.trades[|a.trades|].entryIndex == p.entryIndex
  }

  lemma ProtectKeepsOrder(st: Bt, d: Data, cfg: Config, i: nat)
    requires Ordered(st, d, i) && st.pos.Some? && i < |d.bars|
    ensures var b := BtProtect(st, d, cfg, i);
      (if b.pos.Some? then Ordered(b, d, i) else Ordered(b, d, i + 1)) && SameDay(st, b) && SameEntries(st, b)
  {
    hide EvaluateBar, BtClose, Liquidatable, AdvanceExtremes;
    var p, bar := st.pos.value, d.bars[i];
    var levels := BtLevels(p, st.balance, cfg, d.strategy.dna);
    var t := EvaluateBar(levels, bar, cfg.sameBarExtreme);
    if t.Some? {
      CloseKeepsOrder(st, d, cfg, t.value.reference, t.value.kind, t.value.reason, i, i, p);
    } else {
      var q := BtSurvived(p, levels, bar);
      CloseKeepsOrder(st.(pos := Some(q)), d, cfg, bar.close, LiquidationOrder, Liquidation, i, i, q);
    }
  }

  lemma SignalKeepsOrder(st: Bt, d: Data, cfg: Config, i: nat, exited: bool, intent: Intent)
    requires d.Valid() && i < d.last
    requires if exited then st.pos.None? && Ordered(st, d, i + 1) else Ordered(st, d, i)
    ensures var b := BtSignal(st, d, cfg, i, exited, intent);
      && Ordered(b, d, i + 1) && b.day == st.day
      && (if st.pos.None? && b.pos.Some?
          then b.trades == st.trades && b.pos.value.entryIndex == i + 1
               && b.dailyTrades == st.dailyTrades + 1 && st.dailyTrades < d.strategy.dna.maxTradesPerDay
          else SameDay(st, b) && SameEntries(st, b))
  {
    hide BtClose, EntryQuantity, EntryQuote;
    if Held(st, i) {
      CloseKeepsOrder(st, d, cfg, NextOpen(d, i), MarketOrder, SignalExit, FillIndex(d, i), i, st.pos.value);
    }
  }

  lemma RollKeepsOrder(st: Bt, d: Data, i: nat)
    requires i < |d.bars| && Ordered(st, d, i)
    ensures var b := BtRollDay(st, d, i);
      Ordered(b, d, i) && b.pos == st.pos && b.trades == st.trades
  {}

  lemma MarkKeepsOrder(st: Bt, d: Data, i: nat)
    requires i < |d.bars| && Ordered(st, d, i + 1)
    ensures var b := BtMark(st, d, i);
      Ordered(b, d, i + 1) && SameDay(st, b) && b.pos == st.pos && b.trades == st.trades
  {}

  lemma DeadKeepsOrder(st: Bt, d: Data, now: nat, i: nat)
    requires Ordered(st, d, now) && i <= now <= i + 1
    ensures Ordered(st.(curve := st.curve + [Max(0.0, st.balance)], stopped := true), d, i + 1)
  {}

  lemma WaitingKeepsOrder(st: Bt, d: Data, i: nat)
    requires Ordered(st, d, i)
    ensures Ordered(st, d, i + 1)
  {}

  lemma IterationKeepsOrder(st: Bt, d: Data, cfg: Config, i: nat)
    requires d.Valid() && i < d.last && Ordered(st, d, i)
    ensures Ordered(BtIterate(st, d, cfg, i), d, i + 1)
  {
    hide BtRollDay, BtManage, BtSignal, BtMark, Held;
    WaitingKeepsOrder(st, d, i);
    var context := d.strategy.context(d.Prefix(i));
    if context.Some? {
      var rolled := BtRollDay(st, d, i);
      RollKeepsOrder(st, d, i);
      ManageKeepsOrder(rolled, d, cfg, i);
      var managed := BtManage(rolled, d, cfg, i);
      var exited := Held(rolled, i) && managed.pos.None?;
      if managed.dead {
        DeadKeepsOrder(managed, d, if exited then i + 1 else i, i);
      } else {
        SignalKeepsOrder(managed, d, cfg, i, exited, context.value);
        MarkKeepsOrder(BtSignal(managed, d, cfg, i, exited, context.value), d, i);
      }
    }
  }

  lemma {:induction false} RunIsOrdered(d: Data, cfg: Config, i: nat)
    requires d.Valid() && i <= d.last
    ensures Ordered(BtRun(d, cfg, i), d, i)
  {
    hide BtIterate;
    if i > d.first {
      RunIsOrdered(d, cfg, i - 1);
      IterationKeepsOrder(BtRun(d, cfg, i - 1), d, cfg, i - 1);
    }
  }

  /** The trades of a backtest are ordered and disjoint, and every entry was signalled past the previous cooldown. */
  lemma TradesAreOrderedAndDisjoint(d: Data, cfg: Config)
    requires d.Valid()
    ensures TradesOrdered(BtFinish(BtRun(d, cfg, d.last), d, cfg).trades, d)
  {
    hide BtClose;
    RunIsOrdered(d, cfg, d.last);
    var st := BtRun(d, cfg, d.last);
    if st.pos.Some? && !st.dead {
      CloseKeepsOrder(st, d, cfg, d.bars[d.last - 1].close, MarketOrder, EndOfData, d.last - 1, d.last, st.pos.value);
    }
  }

  // ---------------------------------------------------------------- the daily cap

  /** Closing a position does not change how many entries a day has. */
  lemma SameEntriesSameCount(a: Bt, b: Bt, d: Data, day: int)
    requires SameEntries(a, b)
    ensures EntriesOn(a, d, day) == EntriesOn(b, d, day)
  {}

  /** `dailyTrades` counts the entries signalled today, there are none on later days, and no day exceeds the cap. */
  ghost predicate Capped(st: Bt, d: Data, i: nat) {
    && (forall day :: EntriesOn(st, d, day) <= d.strategy.dna.maxTradesPerDay)
    && (st.day.None? ==> forall day :: EntriesOn(st, d, day) == 0)
    && (st.day.Some? ==>
          && EntriesOn(st, d, st.day.value) == st.dailyTrades
          && (forall day :: st.day.value < day ==> EntriesOn(st, d, day) == 0)
          && (forall j :: i <= j < |d.bars| ==> st.day.value <= Day(d.bars[j].openTime)))
  }

  lemma SameEntriesKeepCap(a: Bt, b: Bt, d: Data, i: nat)
    requires Capped(a, d, i) && SameEntries(a, b) && SameDay(a, b)
    ensures Capped(b, d, i)
  {
    forall day ensures EntriesOn(b, d, day) == EntriesOn(a, d, day) {
      SameEntriesSameCount(a, b, d, day);
    }
  }

  lemma DayIsMonotone(a: int, b: int)
    requires a <= b
    ensures Day(a) <= Day(b)
  {}

  lemma RollKeepsCap(st: Bt, d: Data, i: nat)
    requires ClockAscends(d) && Capped(st, d, i) && i < |d.bars|
    ensures var b := BtRollDay(st, d, i); Capped(b, d, i) && b.day == Some(Day(d.bars[i].openTime))
  {
    var b := BtRollDay(st, d, i);
    forall day ensures EntriesOn(b, d, day) == EntriesOn(st, d, day) {}
    forall j | i <= j < |d.bars| ensures Day(d.bars[i].openTime) <= Day(d.bars[j].openTime) {
      DayIsMonotone(d.bars[i].openTime, d.bars[j].openTime);
    }
  }

  /** Opening a position adds one entry to today and none to any other day. */
  lemma EntryKeepsCap(a: Bt, b: Bt, d: Data, i: nat)
    requires Capped(a, d, i) && i < |d.bars| && a.day == Some(Day(d.bars[i].openTime)) && a.pos.None?
    requires b.day == a.day && b.pos.Some? && b.pos.value.entryIndex == i + 1 && b.trades == a.trades
    requires b.dailyTrades == a.dailyTrades + 1 && a.dailyTrades < d.strategy.dna.maxTradesPerDay
    ensures Capped(b, d, i)
  {
    var today := a.day.value;
    forall day ensures EntriesOn(b, d, day) == EntriesOn(a, d, day) + (if day == today then 1 else 0) {}
  }

  lemma NextBarKeepsCap(st: Bt, d: Data, i: nat)
    requires Capped(st, d, i)
    ensures Capped(st, d, i + 1)
  {}

  lemma SignalKeepsCap(a: Bt, b: Bt, d: Data, i: nat)
    requires Capped(a, d, i) && i < |d.bars| && a.day == Some(Day(d.bars[i].openTime)) && b.day == a.day
    requires if a.pos.None? && b.pos.Some?
             then b.trades == a.trades && b.pos.value.entryIndex == i + 1
                  && b.dailyTrades == a.dailyTrades + 1 && a.dailyTrades < d.strategy.dna.maxTradesPerDay
             else SameDay(a, b) && SameEntries(a, b)
    ensures Capped(b, d, i)
  {
    if a.pos.None? && b.pos.Some? {
      EntryKeepsCap(a, b, d, i);
    } else {
      SameEntriesKeepCap(a, b, d, i);
    }
  }

  lemma IterationKeepsCap(st: Bt, d: Data, cfg: Config, i: nat)
    requires d.Valid() && ClockAscends(d) && i < d.last && Ordered(st, d, i) && Capped(st, d, i)
    ensures Capped(BtIterate(st, d, cfg, i), d, i + 1)
  {
    hide BtRollDay, BtManage, BtSignal, BtMark, Held;
    NextBarKeepsCap(st, d, i);
    var context := d.strategy.context(d.Prefix(i));
    if context.Some? {
      var rolled := BtRollDay(st, d, i);
      RollKeepsCap(st, d, i);
      RollKeepsOrder(st, d, i);
      ManageKeepsOrder(rolled, d, cfg, i);
      var managed := BtManage(rolled, d, cfg, i);
      SameEntriesKeepCap(rolled, managed, d, i);
      var exited := Held(rolled, i) && managed.pos.None?;
      if managed.dead {
        var stopped := managed.(curve := managed.curve + [Max(0.0, managed.balance)], stopped := true);
        SameEntriesKeepCap(managed, stopped, d, i);
        NextBarKeepsCap(stopped, d, i);
      } else {
        SignalKeepsOrder(managed, d, cfg, i, exited, context.value);
        var signalled := BtSignal(managed, d, cfg, i, exited, context.value);
        SignalKeepsCap(managed, signalled, d, i);
        MarkKeepsOrder(signalled, d, i);
        SameEntriesKeepCap(signalled, BtMark(signalled, d, i), d, i);
        NextBarKeepsCap(BtMark(signalled, d, i), d, i);
      }
    }
  }

  lemma {:induction false} RunIsCapped(d: Data, cfg: Config, i: nat)
    requires d.Valid() && ClockAscends(d) && i <= d.last
    ensures Capped(BtRun(d, cfg, i), d, i)
  {
    hide BtIterate;
    if i > d.first {
      RunIsCapped(d, cfg, i - 1);
      RunIsOrdered(d, cfg, i - 1);
      IterationKeepsCap(BtRun(d, cfg, i - 1), d, cfg, i - 1);
    }
  }

  /** No UTC day has more entry signals taken than the DNA's cap, in the finished backtest. */
  lemma DailyCapHolds(d: Data, cfg: Config, day: int)
    requires d.Valid() && ClockAscends(d)
    ensures EntriesOn(BtFinish(BtRun(d, cfg, d.last), d, cfg), d, day) <= d.strategy.dna.maxTradesPerDay
  {
    hide BtClose;
    RunIsOrdered(d, cfg, d.last);
    RunIsCapped(d, cfg, d.last);
    var st := BtRun(d, cfg, d.last);
    if st.pos.Some? && !st.dead {
      CloseKeepsOrder(st, d, cfg, d.bars[d.last - 1].close, MarketOrder, EndOfData, d.last - 1, d.last, st.pos.value);
      SameEntriesSameCount(st, BtFinish(st, d, cfg), d, day);
    }
  }
}
