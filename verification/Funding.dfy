/** Funding over a position's life: which settlements a cycle loads, and when each is charged exactly once. */
module Funding {
  import opened Market
  import opened Accounting
  import opened PaperLoop
  import opened Discipline

  function Earliest(lasts: seq<int>): int
    requires lasts != []
  {
    if |lasts| == 1 then lasts[0]
    else
      var e, last := Earliest(lasts[..|lasts| - 1]), lasts[|lasts| - 1];
      if last < e then last else e
  }

  /** The settlements a cycle loads: those after the oldest last-charged time of the positions that are open when the
      cycle starts, and none at all when no position is. */
  function LoadFunding(all: seq<Rate>, lasts: seq<int>, closeMs: int): seq<Rate> {
    if lasts == [] then [] else Due(all, Earliest(lasts), closeMs)
  }

  lemma {:induction false} DueAppend(rates: seq<Rate>, r: Rate, last: int, closeMs: int)
    ensures Due(rates + [r], last, closeMs)
        == Due(rates, last, closeMs) + (if last < r.time <= closeMs then [r] else [])
  {}

  /** Filtering by two windows is filtering by their intersection. */
  lemma {:induction false} DueOfDue(rates: seq<Rate>, earliest: int, last: int, closeMs: int)
    ensures Due(Due(rates, earliest, closeMs), last, closeMs)
         == Due(rates, if earliest >= last then earliest else last, closeMs)
  {
    if rates != [] {
      var init, r := rates[..|rates| - 1], rates[|rates| - 1];
      DueOfDue(init, earliest, last, closeMs);
      if earliest < r.time <= closeMs {
        DueAppend(Due(init, earliest, closeMs), r, last, closeMs);
      } else {
        assert Due(rates, earliest, closeMs) == Due(init, earliest, closeMs);
      }
    }
  }

  /** Two windows with the same members have the same settlements. */
  lemma {:induction false} DueSameWindow(rates: seq<Rate>, a: int, b: int, closeMs: int)
    requires forall r :: r in rates ==> (a < r.time <= closeMs <==> b < r.time <= closeMs)
    ensures Due(rates, a, closeMs) == Due(rates, b, closeMs)
  {
    if rates != [] {
      assert rates[|rates| - 1] in rates;
      forall r | r in rates[..|rates| - 1] ensures r in rates {}
      DueSameWindow(rates[..|rates| - 1], a, b, closeMs);
    }
  }

  /** A cycle charges a position exactly what is due if and only if every settlement it owes is later than the oldest
      last-charged time the load started from. */
  lemma LoadedCoversExactlyWhen(all: seq<Rate>, lasts: seq<int>, last: int, closeMs: int)
    ensures Due(LoadFunding(all, lasts, closeMs), last, closeMs) == Due(all, last, closeMs)
      <==> (forall r :: r in all && last < r.time <= closeMs ==> lasts != [] && Earliest(lasts) < r.time)
  {
    var loaded := LoadFunding(all, lasts, closeMs);
    if Due(loaded, last, closeMs) == Due(all, last, closeMs) {
      forall r | r in all && last < r.time <= closeMs ensures lasts != [] && Earliest(lasts) < r.time {
        DueMembers(all, last, closeMs, r);
        DueMembers(loaded, last, closeMs, r);
        if lasts != [] {
          DueMembers(all, Earliest(lasts), closeMs, r);
        }
      }
    }
    if forall r :: r in all && last < r.time <= closeMs ==> lasts != [] && Earliest(lasts) < r.time {
      if lasts != [] {
        DueOfDue(all, Earliest(lasts), last, closeMs);
        DueSameWindow(all, if Earliest(lasts) >= last then Earliest(lasts) else last, last, closeMs);
      } else {
        NothingDue(all, last, closeMs);
      }
    }
  }

  lemma {:induction false} NothingDue(rates: seq<Rate>, last: int, closeMs: int)
    requires forall r :: r in rates ==> !(last < r.time <= closeMs)
    ensures Due(rates, last, closeMs) == []
  {
    if rates != [] {
      assert rates[|rates| - 1] in rates;
      forall r | r in rates[..|rates| - 1] ensures r in rates {}
      NothingDue(rates[..|rates| - 1], last, closeMs);
    }
  }

  lemma {:induction false} EarliestIsLeast(lasts: seq<int>, last: int)
    requires last in lasts
    ensures Earliest(lasts) <= last
  {
    if |lasts| > 1 && last != lasts[|lasts| - 1] {
      EarliestIsLeast(lasts[..|lasts| - 1], last);
    } else if |lasts| > 1 {
      var e := Earliest(lasts[..|lasts| - 1]);
    }
  }

  /** A position that was open when the cycle started is always covered. */
  lemma OpenPositionsAreCovered(all: seq<Rate>, lasts: seq<int>, last: int, closeMs: int)
    requires last in lasts
    ensures Due(LoadFunding(all, lasts, closeMs), last, closeMs) == Due(all, last, closeMs)
  {
    EarliestIsLeast(lasts, last);
    LoadedCoversExactlyWhen(all, lasts, last, closeMs);
  }

  /** A settlement inside the bar an entry fills on is not loaded when nothing was open before, so that bar does not
      charge it; the load of any later bar the position is still open on brings it. */
  lemma FillBarSettlementComesLate(all: seq<Rate>, r: Rate, k: int, closeMs: int, laterCloseMs: int)
    requires r in all && k <= r.time <= closeMs < laterCloseMs
    ensures r in Due(all, k - 1, closeMs) && r !in Due(LoadFunding(all, [], closeMs), k - 1, closeMs)
    ensures r in Due(LoadFunding(all, [k - 1], laterCloseMs), k - 1, laterCloseMs)
  {
    DueMembers(all, k - 1, closeMs, r);
    DueMembers(all, k - 1, laterCloseMs, r);
    OpenPositionsAreCovered(all, [k - 1], k - 1, laterCloseMs);
  }

  // ---------------------------------------------------------------- exactly once

  function Times(payments: seq<Payment>): (ts: seq<int>)
    ensures |ts| == |payments| && forall i :: 0 <= i < |ts| ==> ts[i] == payments[i].time
  {
    seq(|payments|, i requires 0 <= i < |payments| => payments[i].time)
  }

  function TimesOf(rates: seq<Rate>): (ts: seq<int>)
    ensures |ts| == |rates| && forall i :: 0 <= i < |ts| ==> ts[i] == rates[i].time
  {
    seq(|rates|, i requires 0 <= i < |rates| => rates[i].time)
  }

  /** Every settlement published after the position's opening up to `upTo` has exactly one row, and no other has. */
  ghost predicate FullyCharged(p: Position, all: seq<Rate>, upTo: int) {
    && Times(p.payments) == TimesOf(Due(all, p.fundingFrom, upTo))
    && p.fundingFrom <= p.lastFunding
    && (forall r :: r in all && p.fundingFrom < r.time <= upTo ==> r.time <= p.lastFunding)
    && (p.lastFunding <= upTo || p.lastFunding == p.fundingFrom)
  }

  lemma NothingLaterDue(rates: seq<Rate>, b: int, c: int)
    requires AscendingRates(rates) && rates != [] && rates[|rates| - 1].time <= b
    ensures Due(rates[..|rates| - 1], b, c) == []
  {
    var init := rates[..|rates| - 1];
    forall q | q in init ensures !(b < q.time <= c) {
      var i :| 0 <= i < |init| && init[i] == q;
      assert rates[i].time < rates[|rates| - 1].time;
    }
    NothingDue(init, b, c);
  }

  lemma {:induction false} DueSplit(rates: seq<Rate>, a: int, b: int, c: int)
    requires AscendingRates(rates) && a <= b <= c
    ensures Due(rates, a, c) == Due(rates, a, b) + Due(rates, b, c)
  {
    if rates != [] {
      var init, r := rates[..|rates| - 1], rates[|rates| - 1];
      DueSplit(init, a, b, c);
      if a < r.time <= b {
        NothingLaterDue(rates, b, c);
        assert Due(rates, b, c) == [];
      } else {
        assert Due(rates, a, b) == Due(init, a, b);
      }
    }
  }

  lemma SameDebtFromEitherMark(p: Position, all: seq<Rate>, upTo: int, closeMs: int)
    requires FullyCharged(p, all, upTo) && p.fundingFrom <= upTo <= closeMs
    ensures Due(all, p.lastFunding, closeMs) == Due(all, upTo, closeMs)
  {
    DueSameWindow(all, p.lastFunding, upTo, closeMs);
  }

  lemma LastChargedIsLatest(p: Position, all: seq<Rate>, due: seq<Rate>, closeMs: int, r: Rate)
    requires AscendingRates(all) && due == Due(all, p.lastFunding, closeMs) && due != []
    requires r in all && p.lastFunding < r.time <= closeMs
    ensures r.time <= due[|due| - 1].time
  {}

  lemma CoverageExtends(p: Position, all: seq<Rate>, upTo: int, closeMs: int, lastFunding: int)
    requires AscendingRates(all) && FullyCharged(p, all, upTo) && p.fundingFrom <= upTo <= closeMs
    requires var due := Due(all, p.lastFunding, closeMs);
      lastFunding == (if due == [] then p.lastFunding else due[|due| - 1].time)
    ensures p.lastFunding <= lastFunding && (lastFunding <= closeMs || lastFunding == p.fundingFrom)
    ensures forall r :: r in all && p.fundingFrom < r.time <= closeMs ==> r.time <= lastFunding
  {
    var due := Due(all, p.lastFunding, closeMs);
    DueIsAscending(all, p.lastFunding, closeMs);
    if due != [] {
      assert p.lastFunding < due[|due| - 1].time <= closeMs;
    }
    forall r | r in all && p.fundingFrom < r.time <= closeMs ensures r.time <= lastFunding {
      if p.lastFunding < r.time {
        DueMembers(all, p.lastFunding, closeMs, r);
        LastChargedIsLatest(p, all, due, closeMs, r);
      }
    }
  }

  lemma TimesExtend(p: Position, all: seq<Rate>, upTo: int, closeMs: int)
    requires AscendingRates(all) && FullyCharged(p, all, upTo) && p.fundingFrom <= upTo <= closeMs
    ensures Times(p.payments) + TimesOf(Due(all, p.lastFunding, closeMs)) == TimesOf(Due(all, p.fundingFrom, closeMs))
  {
    DueSplit(all, p.fundingFrom, upTo, closeMs);
    SameDebtFromEitherMark(p, all, upTo, closeMs);
  }

  lemma {:induction false} ChargeAppendsRows(h: Holding, due: seq<Rate>, mark: real)
    ensures var c := Charge(h, due, mark).position;
      && Times(c.payments) == Times(h.position.payments) + TimesOf(due)
      && c.lastFunding == (if due == [] then h.position.lastFunding else due[|due| - 1].time)
      && c.fundingFrom == h.position.fundingFrom
  {
    if due != [] {
      ChargeAppendsRows(h, due[..|due| - 1], mark);
      assert due == due[..|due| - 1] + [due[|due| - 1]];
    }
  }

  lemma ChargedOnward(p: Position, q: Position, all: seq<Rate>, upTo: int, closeMs: int)
    requires AscendingRates(all) && FullyCharged(p, all, upTo) && p.fundingFrom <= upTo <= closeMs
    requires q.fundingFrom == p.fundingFrom
    requires var due := Due(all, p.lastFunding, closeMs);
      && Times(q.payments) == Times(p.payments) + TimesOf(due)
      && q.lastFunding == (if due == [] then p.lastFunding else due[|due| - 1].time)
    ensures FullyCharged(q, all, closeMs)
  {
    TimesExtend(p, all, upTo, closeMs);
    CoverageExtends(p, all, upTo, closeMs, q.lastFunding);
  }

  /** If what was loaded covers what is due, accrual brings a fully charged position up to this bar's close, however
      many bars went by without processing. */
  lemma AccrualChargesExactlyOnce(acct: Account, env: Env, all: seq<Rate>, upTo: int)
    requires acct.position.Some? && AscendingRates(all)
    requires FullyCharged(acct.position.value, all, upTo)
    requires acct.position.value.fundingFrom <= upTo <= env.CloseMs()
    requires Due(env.rates, acct.position.value.lastFunding, env.CloseMs())
        == Due(all, acct.position.value.lastFunding, env.CloseMs())
    ensures FullyCharged(Accrue(acct, env).position.value, all, env.CloseMs())
  {
    var p := acct.position.value;
    ChargeAppendsRows(Holding(acct.agent, p), Due(env.rates, p.lastFunding, env.CloseMs()), env.bar.close);
    ChargedOnward(p, Accrue(acct, env).position.value, all, upTo, env.CloseMs());
  }

  // ---------------------------------------------------------------- who pays whom, and how much

  function RateSum(due: seq<Rate>): real {
    if due == [] then 0.0 else RateSum(due[..|due| - 1]) + due[|due| - 1].rate
  }

  /** What settlements of these rates take from a position at one mark: a positive rate makes a long pay and a short
      receive. */
  function Paid(side: Side, quantity: real, mark: real, due: seq<Rate>): real {
    if side.Long? then quantity * mark * RateSum(due) else -(quantity * mark * RateSum(due))
  }

  lemma PaidAppend(side: Side, quantity: real, mark: real, due: seq<Rate>, r: Rate)
    ensures Paid(side, quantity, mark, due + [r])
         == Paid(side, quantity, mark, due) + FundingPayment(side, quantity, mark, r.rate)
  {
    assert (due + [r])[..|due|] == due;
    assert quantity * mark * (RateSum(due) + r.rate) == quantity * mark * RateSum(due) + quantity * mark * r.rate;
  }

  lemma {:induction false} ChargeTakes(h: Holding, due: seq<Rate>, mark: real)
    ensures var c, p := Charge(h, due, mark), h.position; var paid := Paid(p.side, p.quantity, mark, due);
      && c.agent.balance == h.agent.balance - paid && c.agent.fundingPaid == h.agent.fundingPaid + paid
      && c.position.fundingAccrued == p.fundingAccrued + paid
      && c.position.side == p.side && c.position.quantity == p.quantity
  {
    hide FundingPayment, Paid;
    if due == [] {
      PaidNothing(h.position.side, h.position.quantity, mark);
    } else {
      var init, r := due[..|due| - 1], due[|due| - 1];
      ChargeTakes(h, init, mark);
      PaidAppend(h.position.side, h.position.quantity, mark, init, r);
      assert init + [r] == due;
    }
  }

  lemma PaidNothing(side: Side, quantity: real, mark: real)
    ensures Paid(side, quantity, mark, []) == 0.0
  {}

  /** Accrual takes quantity times close times the sum of the due rates from a long, and gives it to a short. */
  lemma AccrualTakes(acct: Account, env: Env)
    requires acct.position.Some?
    ensures var b, p := Accrue(acct, env), acct.position.value;
      var amount := p.quantity * env.bar.close * RateSum(Due(env.rates, p.lastFunding, env.CloseMs()));
      && (p.side.Long? ==> b.agent.balance == acct.agent.balance - amount)
      && (p.side.Short? ==> b.agent.balance == acct.agent.balance + amount)
      && b.agent.fundingPaid - acct.agent.fundingPaid == acct.agent.balance - b.agent.balance
      && b.position.value.fundingAccrued - p.fundingAccrued == acct.agent.balance - b.agent.balance
  {
    hide Charge, RateSum;
    var p := acct.position.value;
    ChargeTakes(Holding(acct.agent, p), Due(env.rates, p.lastFunding, env.CloseMs()), env.bar.close);
  }

  lemma {:induction false} PositiveRates(due: seq<Rate>)
    requires due != [] && forall k :: 0 <= k < |due| ==> due[k].rate > 0.0
    ensures RateSum(due) > 0.0
  {
    if |due| > 1 {
      PositiveRates(due[..|due| - 1]);
    }
  }

  /** At positive rates a long loses cash and a short gains it. */
  lemma LongsPayShorts(acct: Account, env: Env)
    requires acct.position.Some? && env.bar.close > 0.0
    requires var due := Due(env.rates, acct.position.value.lastFunding, env.CloseMs());
      due != [] && forall k :: 0 <= k < |due| ==> due[k].rate > 0.0
    ensures var b := Accrue(acct, env);
      if acct.position.value.side.Long? then b.agent.balance < acct.agent.balance
      else b.agent.balance > acct.agent.balance
  {
    hide Accrue, RateSum;
    var p := acct.position.value;
    var due := Due(env.rates, p.lastFunding, env.CloseMs());
    AccrualTakes(acct, env);
    PositiveRates(due);
    assert p.quantity * env.bar.close > 0.0;
    assert p.quantity * env.bar.close * RateSum(due) > 0.0;
  }

  /** What a long pays a short of the same size receives: charged the same settlements they net to zero. */
  lemma FundingIsZeroSum(long: Account, short: Account, env: Env)
    requires long.position.Some? && long.position.value.side.Long?
    requires short.position.Some? && short.position.value.side.Short?
    requires long.position.value.quantity == short.position.value.quantity
    requires long.position.value.lastFunding == short.position.value.lastFunding
    ensures Accrue(long, env).agent.balance + Accrue(short, env).agent.balance
         == long.agent.balance + short.agent.balance
  {
    hide Accrue, RateSum;
    AccrualTakes(long, env);
    AccrualTakes(short, env);
    SameAmount(long.position.value.quantity, short.position.value.quantity, env.bar.close,
               RateSum(Due(env.rates, long.position.value.lastFunding, env.CloseMs())));
  }

  lemma SameAmount(a: real, b: real, mark: real, rates: real)
    requires a == b
    ensures a * mark * rates == b * mark * rates
  {}
}
