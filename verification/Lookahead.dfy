/** No look-ahead: the future cannot change what the backtest has already done. */
module Lookahead {
  import opened Market
  import opened PnlEngine
  import opened Accounting
  import opened PositionManager
  import opened PaperLoop
  import opened Backtest

  /** The settlements published up to a moment. */
  function UpTo(events: seq<Rate>, ms: int): seq<Rate> {
    if events == [] then []
    else
      var r := events[|events| - 1];
      UpTo(events[..|events| - 1], ms) + (if r.time <= ms then [r] else [])
  }

  /** Later settlements do not take part in a bar's funding. */
  lemma {:induction false} ChargeReadsOnlyThePast(h: BtHolding, events: seq<Rate>, closeMs: int, mark: real)
    ensures BtCharge(h, events, closeMs, mark) == BtCharge(h, UpTo(events, closeMs), closeMs, mark)
  {
    if events != [] {
      var init, r := events[..|events| - 1], events[|events| - 1];
      ChargeReadsOnlyThePast(h, init, closeMs, mark);
      if r.time <= closeMs {
        assert UpTo(events, closeMs)[..|UpTo(init, closeMs)|] == UpTo(init, closeMs);
      } else {
        assert UpTo(events, closeMs) == UpTo(init, closeMs);
      }
    }
  }

  /** The two runs share the strategy, the start, bars 0..k - 1, the OPEN of bar k and every settlement up to the close
      of bar k - 1; both windows extend past bar k. Everything else of bar k and everything later may differ. */
  ghost predicate AgreeUpTo(d: Data, e: Data, k: nat) {
    && d.Valid() && e.Valid() && d.strategy == e.strategy && d.intervalMs == e.intervalMs
    && d.first == e.first && d.start == e.start
    && k < d.last && k < e.last && d.bars[..k] == e.bars[..k] && d.bars[k].open == e.bars[k].open
    && (forall i: nat :: i < k ==> UpTo(d.funding, d.CloseMs(i)) == UpTo(e.funding, d.CloseMs(i)))
  }

  lemma SameBars(d: Data, e: Data, k: nat, i: nat)
    requires AgreeUpTo(d, e, k) && i < k
    ensures d.Prefix(i) == e.Prefix(i) && d.bars[i] == e.bars[i] && d.bars[i + 1].open == e.bars[i + 1].open
    ensures d.CloseMs(i) == e.CloseMs(i) && NextOpen(d, i) == NextOpen(e, i) && FillIndex(d, i) == FillIndex(e, i)
  {
    assert d.bars[i] == d.bars[..k][i] && e.bars[i] == e.bars[..k][i];
    assert i + 1 < k ==> d.bars[i + 1] == d.bars[..k][i + 1] && e.bars[i + 1] == e.bars[..k][i + 1];
    assert d.Prefix(i) == d.bars[..k][..i + 1] && e.Prefix(i) == e.bars[..k][..i + 1];
  }

  lemma SameManagement(st: Bt, d: Data, e: Data, cfg: Config, k: nat, i: nat)
    requires AgreeUpTo(d, e, k) && i < k
    ensures BtManage(st, d, cfg, i) == BtManage(st, e, cfg, i)
  {
    hide EvaluateBar, BtClose, Liquidatable, BtLevels;
    SameBars(d, e, k, i);
    if Held(st, i) {
      var h := BtHolding(st.balance, st.totalFunding, st.pos.value);
      ChargeReadsOnlyThePast(h, d.funding, d.CloseMs(i), d.bars[i].close);
      ChargeReadsOnlyThePast(h, e.funding, d.CloseMs(i), d.bars[i].close);
      SameProtection(BtFunded(st, d, st.pos.value, i), d, e, cfg, k, i);
    }
  }

  lemma SameClose(st: Bt, d: Data, e: Data, cfg: Config, p: BtPos, reference: real, kind: OrderKind, reason: Reason,
                  at: int)
    requires d.strategy == e.strategy && d.start == e.start
    ensures BtClose(st, d, cfg, p, reference, kind, reason, at) == BtClose(st, e, cfg, p, reference, kind, reason, at)
  {}

  lemma SameProtection(st: Bt, d: Data, e: Data, cfg: Config, k: nat, i: nat)
    requires AgreeUpTo(d, e, k) && i < k && st.pos.Some?
    ensures BtProtect(st, d, cfg, i) == BtProtect(st, e, cfg, i)
  {
    hide EvaluateBar, BtClose, Liquidatable;
    SameBars(d, e, k, i);
    var p, bar := st.pos.value, d.bars[i];
    var levels := BtLevels(p, st.balance, cfg, d.strategy.dna);
    var t := EvaluateBar(levels, bar, cfg.sameBarExtreme);
    if t.Some? {
      SameClose(st, d, e, cfg, p, t.value.reference, t.value.kind, t.value.reason, i);
    } else {
      var q := BtSurvived(p, levels, bar);
      SameClose(st.(pos := Some(q)), d, e, cfg, q, bar.close, LiquidationOrder, Liquidation, i);
    }
  }

  lemma SameEntry(st: Bt, d: Data, e: Data, cfg: Config, k: nat, i: nat, side: Side, intent: Intent)
    requires AgreeUpTo(d, e, k) && i < k
    ensures BtEnter(st, d, cfg, i, side, intent) == BtEnter(st, e, cfg, i, side, intent)
  {
    SameBars(d, e, k, i);
    hide EntryQuote;
    var reference := NextOpen(d, i);
    var quantity := EntryQuantity(st, d, cfg, i, side, reference);
    assert quantity == EntryQuantity(st, e, cfg, i, side, reference);
    assert BtEnterAt(st, d, cfg, i, side, intent, reference, quantity)
        == BtEnterAt(st, e, cfg, i, side, intent, reference, quantity);
  }

  lemma SameSignal(st: Bt, d: Data, e: Data, cfg: Config, k: nat, i: nat, exited: bool, intent: Intent)
    requires AgreeUpTo(d, e, k) && i < k
    ensures BtSignal(st, d, cfg, i, exited, intent) == BtSignal(st, e, cfg, i, exited, intent)
  {
    hide BtClose, BtEnter;
    SameBars(d, e, k, i);
    var signal := d.strategy.signal(d.Prefix(i), if st.pos.Some? then Some(st.pos.value.side) else None);
    SameEntry(st, d, e, cfg, k, i, signal.side, intent);
    if st.pos.Some? {
      SameClose(st, d, e, cfg, st.pos.value, NextOpen(d, i), MarketOrder, SignalExit, FillIndex(d, i));
    }
  }

  lemma SameIteration(st: Bt, d: Data, e: Data, cfg: Config, k: nat, i: nat)
    requires AgreeUpTo(d, e, k) && i < k
    ensures BtIterate(st, d, cfg, i) == BtIterate(st, e, cfg, i)
  {
    hide BtManage, BtSignal;
    SameBars(d, e, k, i);
    var context := d.strategy.context(d.Prefix(i));
    if context.Some? {
      var rolled := BtRollDay(st, d, i);
      SameManagement(rolled, d, e, cfg, k, i);
      var managed := BtManage(rolled, d, cfg, i);
      SameSignal(managed, d, e, cfg, k, i, Held(rolled, i) && managed.pos.None?, context.value);
    }
  }

  /** Two runs that agree on bars 0..k - 1 and on the open of bar k are in the same state before iteration k: same cash,
      position, trades, equity curve and flags. Iteration i reads bars up to i and of bar i + 1 nothing but its open. */
  lemma {:induction false} NoLookAhead(d: Data, e: Data, cfg: Config, k: nat, i: nat)
    requires AgreeUpTo(d, e, k) && i <= k
    ensures BtRun(d, cfg, i) == BtRun(e, cfg, i)
  {
    hide BtIterate, UpTo;
    if i > d.first {
      NoLookAhead(d, e, cfg, k, i - 1);
      SameIteration(BtRun(d, cfg, i - 1), d, e, cfg, k, i - 1);
    }
  }
}
