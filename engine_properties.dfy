/** What the execution engine promises, stated over the bars of a session: the entry and
    exit rules with the stop's priority, the running peak and drawdown, the forced close
    at the end of the day, and the summary figures. */
module EngineProperties {
  import opened Wrappers
  import Rounding
  import Oscillator
  import opened Engine

  /** The loop's state after bar `i` is one step from its state before it. */
  lemma RunStep(ticks: seq<Tick>, i: nat)
    requires i < |ticks|
    ensures Run(ticks[..i + 1]) == Step(Run(ticks[..i]), ticks[i])
  {
    assert ticks[..i + 1][..i] == ticks[..i];
  }

  /** Entry rule: while flat, a BUY is appended exactly when the oscillator is under the
      buy threshold, the fill price is positive and the cash exceeds the fee; it then
      puts all the cash (less the fee) into shares at the fill price. Otherwise the
      position, the cash and the ledger stay as they were. */
  lemma EntryRule(ticks: seq<Tick>, i: nat)
    requires i < |ticks| && Run(ticks[..i]).shares == 0.0
    ensures var s, s', t := Run(ticks[..i]), Run(ticks[..i + 1]), ticks[i];
            var px := BuyFill(t.price);
            var enters := t.rsi < BuyRsi && px > 0.0 && s.cash > FeePerTrade;
            && (enters ==>
                  && s'.trades == s.trades + [Buy(t.time, px, t.rsi)]
                  && s'.shares == SharesFor(s.cash, px) && s'.shares > 0.0 && s'.cash == 0.0
                  && s'.entryPrice == Some(px) && s'.entryTime == Some(t.time))
            && (!enters ==>
                  && s'.trades == s.trades && s'.shares == 0.0 && s'.cash == s.cash
                  && s'.entryPrice == None && s'.entryTime == None)
  {
    RunStep(ticks, i);
  }

  /** Exit rules: while long, the bar's price at or under the stop level sells whatever the
      holding time, with reason STOP even when the signal also holds; otherwise a SELL
      needs the oscillator above the sell threshold and at least the minimum holding time
      in whole minutes. A SELL turns all shares into cash at the fill price less the fee,
      records the return from the entry price and clears the entry; without one nothing
      but the running peak and drawdown changes. */
  lemma ExitRule(ticks: seq<Tick>, i: nat)
    requires i < |ticks| && Run(ticks[..i]).shares != 0.0
    ensures var s, s', t := Run(ticks[..i]), Run(ticks[..i + 1]), ticks[i];
            var entry := s.entryPrice.value;
            var stopHit := t.price <= StopLevel(entry);
            var signal := t.rsi > SellRsi && HeldMinutes(t.time, s.entryTime.value) >= MinHoldMinutes;
            var px := SellFill(t.price);
            && (stopHit ==>
                  s'.trades == s.trades + [Sell(t.time, px, t.rsi, Stop, Return(px, entry))])
            && (!stopHit && signal ==>
                  s'.trades == s.trades + [Sell(t.time, px, t.rsi, Signal, Return(px, entry))])
            && (stopHit || signal ==>
                  && s'.cash == Proceeds(s.shares, px) && s'.shares == 0.0
                  && s'.entryPrice == None && s'.entryTime == None)
            && (!stopHit && !signal ==>
                  && s'.trades == s.trades && s'.shares == s.shares && s'.cash == s.cash
                  && s'.entryPrice == s.entryPrice && s'.entryTime == s.entryTime)
  {
    RunStep(ticks, i);
  }

  /** All prices of the bars are positive, as the closes of a traded stock are. */
  predicate PositivePrices(ticks: seq<Tick>)
  {
    forall i :: 0 <= i < |ticks| ==> ticks[i].price > 0.0
  }

  lemma PositivePrefix(ticks: seq<Tick>, k: nat)
    requires k <= |ticks| && PositivePrices(ticks)
    ensures PositivePrices(ticks[..k])
  {
    assert forall i :: 0 <= i < k ==> ticks[..k][i] == ticks[i];
  }

  /** A positive position sold at a positive price yields positive cash. */
  lemma PositiveProceeds(shares: real, price: real)
    requires shares > 0.0 && price > 0.0
    ensures Proceeds(shares, SellFill(price)) > 0.0
  {
    assert SellFill(price) > 0.0;
  }

  /** On positive prices exactly one of cash and shares is zero after every bar: a flat
      engine always holds positive cash, a long one a positive number of shares. */
  lemma {:induction false} PositiveRunExclusive(ticks: seq<Tick>)
    requires PositivePrices(ticks)
    ensures (Run(ticks).shares == 0.0) != (Run(ticks).cash == 0.0)
    ensures Run(ticks).shares == 0.0 ==> Run(ticks).cash > 0.0
    decreases |ticks|
  {
    if |ticks| > 0 {
      var n := |ticks|;
      var t := ticks[n - 1];
      PositivePrefix(ticks, n - 1);
      PositiveRunExclusive(ticks[..n - 1]);
      var m := Track(Run(ticks[..n - 1]), t.price);
      if m.shares != 0.0 {
        PositiveProceeds(m.shares, t.price);
      } else {
        assert BuyFill(t.price) > 0.0;
      }
    }
  }

  /** On positive prices the entry guard always passes: a flat engine buys at every bar
      whose oscillator value is under the buy threshold. */
  lemma FlatAlwaysBuys(ticks: seq<Tick>, k: nat)
    requires k < |ticks| && PositivePrices(ticks)
    requires Run(ticks[..k]).shares == 0.0 && ticks[k].rsi < BuyRsi
    ensures Run(ticks[..k + 1]).trades
            == Run(ticks[..k]).trades + [Buy(ticks[k].time, BuyFill(ticks[k].price), ticks[k].rsi)]
    ensures Run(ticks[..k + 1]).shares > 0.0 && Run(ticks[..k + 1]).cash == 0.0
  {
    PositivePrefix(ticks, k);
    PositiveRunExclusive(ticks[..k]);
    RunStep(ticks, k);
    assert BuyFill(ticks[k].price) > 0.0;
  }

  /** On positive closes the day ends flat with positive cash. */
  lemma PositiveDayEndsInCash(bars: seq<Bar>)
    requires |bars| > 0
    requires forall i :: 0 <= i < |bars| ==> bars[i].close > 0.0
    ensures var ticks := Annotate(bars);
            var closed := Finish(Run(ticks), ticks);
            closed.shares == 0.0 && closed.cash > 0.0
  {
    var ticks := Annotate(bars);
    assert PositivePrices(ticks);
    PositiveRunExclusive(ticks);
    var done := Run(ticks);
    if done.shares > 0.0 {
      PositiveProceeds(done.shares, ticks[|ticks| - 1].price);
    }
  }

  /** The peak never decreases and the maximum drawdown never increases from bar to bar. */
  lemma {:induction false} PeakAndDrawdownMonotone(ticks: seq<Tick>, i: nat, j: nat)
    requires i <= j <= |ticks|
    ensures Run(ticks[..i]).peak <= Run(ticks[..j]).peak
    ensures Run(ticks[..j]).maxDrawdown <= Run(ticks[..i]).maxDrawdown
    decreases j - i
  {
    if i < j {
      PeakAndDrawdownMonotone(ticks, i, j - 1);
      RunStep(ticks, j - 1);
    }
  }

  /** At every bar the peak covers the equity marked at that bar's price (with the
      position held before the bar's decision), and the maximum drawdown is at most that
      equity's decline from the peak; each is either kept or replaced by the bar's value. */
  lemma PeakCoversEquity(ticks: seq<Tick>, i: nat)
    requires i < |ticks|
    ensures var s, s' := Run(ticks[..i]), Run(ticks[..i + 1]);
            var equity := Equity(s.cash, s.shares, ticks[i].price);
            && s'.peak >= StartCash
            && s'.peak >= equity
            && (s'.peak == s.peak || s'.peak == equity)
            && s'.maxDrawdown <= Drawdown(equity, s'.peak)
            && (s'.maxDrawdown == s.maxDrawdown || s'.maxDrawdown == Drawdown(equity, s'.peak))
  {
    RunStep(ticks, i);
    RunInvariant(ticks[..i]);
  }

  /** A ledger with BUYs at the even positions and SELLs at the odd ones has one BUY
      more than SELLs while a position is open, and as many otherwise. */
  lemma {:induction false} ParityCounts(trades: seq<Trade>)
    requires BuysAtEven(trades)
    ensures BuyCount(trades) == (|trades| + 1) / 2 && SellCount(trades) == |trades| / 2
    decreases |trades|
  {
    if |trades| > 0 {
      var front := trades[..|trades| - 1];
      assert BuysAtEven(front) by {
        forall k | 0 <= k < |front|
          ensures front[k].Buy? <==> k % 2 == 0
        {
          assert front[k] == trades[k];
        }
      }
      ParityCounts(front);
    }
  }

  /** A ledger that alternates and ends flat has as many BUYs as SELLs. */
  lemma BalancedLedger(trades: seq<Trade>)
    requires Alternating(trades) && |trades| % 2 == 0
    ensures BuyCount(trades) == SellCount(trades) == |trades| / 2
  {
    ParityCounts(trades);
  }

  /** The end-of-day block closes every day: the final ledger alternates, ends flat with
      as many BUYs as SELLs, and EOD is the reason of the last SELL at most. A position
      still open after the last bar is sold in exactly one EOD SELL, stamped with the last
      bar's time and priced from its close; otherwise the ledger is the loop's. */
  lemma DayClosed(bars: seq<Bar>)
    requires |bars| > 0
    ensures var ticks := Annotate(bars);
            var open, closed := Run(ticks), Finish(Run(ticks), ticks);
            var last := ticks[|ticks| - 1];
            var px := SellFill(last.price);
            && closed.trades == Simulate(bars).trades
            && closed.shares == 0.0
            && Alternating(closed.trades)
            && |closed.trades| % 2 == 0
            && BuyCount(closed.trades) == SellCount(closed.trades)
            && (forall k :: 0 <= k < |closed.trades| - 1 && closed.trades[k].Sell? ==>
                  closed.trades[k].reason != EndOfDay)
            && (open.shares > 0.0 ==>
                  closed.trades == open.trades + [Sell(last.time, px, last.rsi, EndOfDay,
                                                       Return(px, open.entryPrice.value))])
            && (open.shares == 0.0 ==> closed.trades == open.trades)
  {
    var ticks := Annotate(bars);
    RunInvariant(ticks);
    FinishCloses(Run(ticks), ticks);
  }

  /** The forced close, from any state the loop can leave. */
  lemma FinishCloses(open: EngineState, ticks: seq<Tick>)
    requires Invariant(open) && |ticks| > 0
    ensures var closed := Finish(open, ticks);
            var last := ticks[|ticks| - 1];
            var px := SellFill(last.price);
            && closed.shares == 0.0
            && Alternating(closed.trades)
            && |closed.trades| % 2 == 0
            && BuyCount(closed.trades) == SellCount(closed.trades)
            && (forall k :: 0 <= k < |closed.trades| - 1 && closed.trades[k].Sell? ==>
                  closed.trades[k].reason != EndOfDay)
            && (open.shares > 0.0 ==>
                  closed.trades == open.trades + [Sell(last.time, px, last.rsi, EndOfDay,
                                                       Return(px, open.entryPrice.value))])
            && (open.shares == 0.0 ==> closed.trades == open.trades)
  {
    var closed := Finish(open, ticks);
    if open.shares > 0.0 {
      var last := ticks[|ticks| - 1];
      var px := SellFill(last.price);
      var sale := Sell(last.time, px, last.rsi, EndOfDay, Return(px, open.entryPrice.value));
      SellKeepsAlternating(open.trades, sale);
      assert closed.trades == open.trades + [sale];
      assert forall k :: 0 <= k < |closed.trades| - 1 ==> closed.trades[k] == open.trades[k];
    }
    BalancedLedger(closed.trades);
  }

  /** A SELL whose `PnL_%`, rounded to three decimals, is positive: a return above
      0.0005 percent (an exact 0.0005 percent rounds to zero, half to even). */
  predicate ClearGain(t: Trade)
  {
    t.Sell? && t.pnl > 0.000005
  }

  function ClearGains(trades: seq<Trade>): nat
  {
    if |trades| == 0 then 0
    else ClearGains(trades[..|trades| - 1]) + (if ClearGain(trades[|trades| - 1]) then 1 else 0)
  }

  /** The win count taken over the rounded `PnL_%` values is the number of SELLs with a
      return above 0.0005 percent: rounding turns smaller gains into non-wins. */
  lemma {:induction false} RoundedWins(trades: seq<Trade>)
    ensures CountPositive(PnlPercents(trades)) == ClearGains(trades)
    decreases |trades|
  {
    if |trades| > 0 {
      var n := |trades|;
      RoundedWins(trades[..n - 1]);
      var t := trades[n - 1];
      var rest := PnlPercents(trades[..n - 1]);
      if t.Sell? {
        var pct := Rounding.RoundHalfEven(t.pnl * 100.0, 3);
        RoundedGain(t);
        assert (rest + [pct])[..|rest|] == rest;
      }
    }
  }

  /** A SELL's `PnL_%` rounds to a positive value exactly when it is a clear gain. */
  lemma RoundedGain(t: Trade)
    requires t.Sell?
    ensures Rounding.RoundHalfEven(t.pnl * 100.0, 3) > 0.0 <==> ClearGain(t)
  {
    Rounding.RoundedPositive(t.pnl * 100.0, 3);
    assert Rounding.Pow10(3) == 1000;
  }

  /** The day summary: its trade count is the SELL count (and the BUY count), the total
      return is the final equity over the starting cash less one, the win rate is absent
      exactly when there was no SELL and otherwise the share of SELLs with a rounded
      positive `PnL_%`, and the maximum drawdown is reported as a non-negative size. */
  lemma SummaryFigures(bars: seq<Bar>)
    requires |bars| > 0
    ensures var r := Simulate(bars);
            && r.summary.Some?
            && var sum := r.summary.value;
            && sum.trades == SellCount(r.trades) == BuyCount(r.trades)
            && sum.finalEquity == Finish(Run(Annotate(bars)), Annotate(bars)).cash
            && sum.totalReturnPct == (sum.finalEquity / StartCash - 1.0) * 100.0
            && (sum.winRatePct.None? <==> sum.trades == 0)
            && (sum.winRatePct.Some? ==>
                  && ClearGains(r.trades) <= sum.trades
                  && sum.winRatePct.value == Percentage(ClearGains(r.trades), sum.trades)
                  && 0.0 <= sum.winRatePct.value <= 100.0)
            && sum.maxDrawdownPct == -Run(Annotate(bars)).maxDrawdown * 100.0
            && sum.maxDrawdownPct >= 0.0
  {
    var ticks := Annotate(bars);
    DayClosed(bars);
    RunInvariant(ticks);
    RoundedWins(Simulate(bars).trades);
  }

  // ---------------------------------------------------------------------------------
  // Compounding: the final equity is the starting cash grown by every round trip

  /** The growth factor of a ledger: the product of 1 + return over its SELLs. */
  function Growth(trades: seq<Trade>): real
  {
    if |trades| == 0 then 1.0
    else
      var last := trades[|trades| - 1];
      Growth(trades[..|trades| - 1]) * (if last.Sell? then 1.0 + last.pnl else 1.0)
  }

  /** All money is always at work: while flat the cash, and while long the shares valued
      at the entry fill, equal the starting cash grown by the ledger's round trips. */
  predicate Compounded(s: EngineState)
  {
    && (s.shares == 0.0 ==> s.cash == StartCash * Growth(s.trades))
    && (s.entryPrice.Some? ==> s.shares * s.entryPrice.value == StartCash * Growth(s.trades))
  }

  lemma GrowthAppend(trades: seq<Trade>, t: Trade)
    ensures Growth(trades + [t]) == Growth(trades) * (if t.Sell? then 1.0 + t.pnl else 1.0)
  {
    assert (trades + [t])[..|trades|] == trades;
  }

  /** Buying with all the cash, without a fee, puts exactly the cash into the position. */
  lemma AllInPurchase(cash: real, px: real)
    requires px > 0.0
    ensures SharesFor(cash, px) * px == cash
  {
  }

  /** Selling a position worth `g` at the entry fill yields `g` times the trade's
      growth factor 1 + (px - entry)/entry. */
  lemma ReinvestedSale(shares: real, entry: real, px: real, g: real)
    requires entry > 0.0 && shares * entry == g
    ensures Proceeds(shares, px) == g * (1.0 + Return(px, entry))
  {
    var q := 1.0 + Return(px, entry);
    assert (q - 1.0) * entry == px - entry;
    assert q * entry == px;
    assert g * q == shares * (entry * q);
  }

  /** An entry puts the whole cash into shares at the entry fill. */
  lemma EnterCompounds(m: EngineState, t: Tick)
    requires Consistent(m) && Compounded(m) && m.shares == 0.0
    requires t.rsi < BuyRsi && BuyFill(t.price) > 0.0 && m.cash > FeePerTrade
    ensures Compounded(Decide(m, t))
  {
    var px := BuyFill(t.price);
    AllInPurchase(m.cash, px);
    GrowthAppend(m.trades, Buy(t.time, px, t.rsi));
  }

  /** An exit turns the position into cash grown by the trade's return. */
  lemma ExitCompounds(m: EngineState, t: Tick)
    requires Consistent(m) && Compounded(m) && m.shares != 0.0
    requires t.price <= StopLevel(m.entryPrice.value)
             || (t.rsi > SellRsi && HeldMinutes(t.time, m.entryTime.value) >= MinHoldMinutes)
    ensures Compounded(Decide(m, t))
  {
    var entry := m.entryPrice.value;
    var stopHit := t.price <= StopLevel(entry);
    var px := SellFill(t.price);
    var sale := Sell(t.time, px, t.rsi, if stopHit then Stop else Signal, Return(px, entry));
    ReinvestedSale(m.shares, entry, px, StartCash * Growth(m.trades));
    GrowthAppend(m.trades, sale);
    assert Decide(m, t).trades == m.trades + [sale];
  }

  lemma StepCompounds(s: EngineState, t: Tick)
    requires Consistent(s) && Compounded(s)
    ensures Compounded(Step(s, t))
  {
    var m := Track(s, t.price);
    if m.shares == 0.0 {
      if t.rsi < BuyRsi && BuyFill(t.price) > 0.0 && m.cash > FeePerTrade {
        EnterCompounds(m, t);
      }
    } else {
      if t.price <= StopLevel(m.entryPrice.value)
         || (t.rsi > SellRsi && HeldMinutes(t.time, m.entryTime.value) >= MinHoldMinutes) {
        ExitCompounds(m, t);
      }
    }
  }

  lemma {:induction false} RunCompounds(ticks: seq<Tick>)
    ensures Compounded(Run(ticks))
    decreases |ticks|
  {
    if |ticks| > 0 {
      RunCompounds(ticks[..|ticks| - 1]);
      StepCompounds(Run(ticks[..|ticks| - 1]), ticks[|ticks| - 1]);
    }
  }

  /** After the forced close the cash is the starting cash grown by every round trip. */
  lemma FinishCompounds(s: EngineState, ticks: seq<Tick>)
    requires Consistent(s) && Compounded(s) && |ticks| > 0
    ensures Finish(s, ticks).cash == StartCash * Growth(Finish(s, ticks).trades)
  {
    if s.shares > 0.0 {
      var last := ticks[|ticks| - 1];
      var px := SellFill(last.price);
      var entry := s.entryPrice.value;
      ReinvestedSale(s.shares, entry, px, StartCash * Growth(s.trades));
      GrowthAppend(s.trades, Sell(last.time, px, last.rsi, EndOfDay, Return(px, entry)));
    }
  }

  /** With no fee, the day's final equity is the starting cash compounded over the
      returns of its SELLs, and the total return is that growth less one, in percent. */
  lemma FinalEquityCompounds(bars: seq<Bar>)
    requires |bars| > 0
    ensures var r := Simulate(bars);
            && r.summary.Some?
            && r.summary.value.finalEquity == StartCash * Growth(r.trades)
            && r.summary.value.totalReturnPct == (Growth(r.trades) - 1.0) * 100.0
  {
    var ticks := Annotate(bars);
    var done := Run(ticks);
    RunCompounds(ticks);
    FinishCompounds(done, ticks);
    var closed := Finish(done, ticks);
    assert Simulate(bars) == DayResult(closed.trades, Some(Summarize(closed)));
  }

  /** While the oscillator never drops under the buy threshold, the loop leaves the
      engine exactly as it started. */
  lemma {:induction false} QuietRun(ticks: seq<Tick>, k: nat)
    requires k <= |ticks|
    requires forall i :: 0 <= i < |ticks| ==> ticks[i].rsi >= BuyRsi
    ensures Run(ticks[..k]) == Fresh()
  {
    if k > 0 {
      QuietRun(ticks, k - 1);
      RunStep(ticks, k - 1);
    }
  }

  /** A session on which the oscillator never drops under the buy threshold: no trades,
      final equity equal to the starting cash, no win rate, no drawdown. */
  lemma QuietDay(bars: seq<Bar>)
    requires |bars| > 0
    requires forall i :: 0 <= i < |bars| ==> Oscillator.ComputeRsi(Closes(bars))[i] >= BuyRsi
    ensures Simulate(bars) == DayResult([], Some(Summary(0, StartCash, 0.0, None, 0.0)))
  {
    var ticks := Annotate(bars);
    assert forall i :: 0 <= i < |ticks| ==> ticks[i].rsi >= BuyRsi;
    QuietRun(ticks, |ticks|);
    assert ticks[..|ticks|] == ticks;
    assert Run(ticks) == Fresh();
    assert Finish(Fresh(), ticks) == Fresh();
    FreshSummary();
  }

  /** An engine that never traded reports its starting cash and nothing else. */
  lemma FreshSummary()
    ensures Summarize(Fresh()) == Summary(0, StartCash, 0.0, None, 0.0)
  {
    var s := Fresh();
    assert s.trades == [];
    assert |PnlPercents(s.trades)| == 0;
    assert s.cash / StartCash == 1.0;
  }

  /** A session whose closes never fall never trades: its oscillator stays at 50. */
  lemma RisingDayNoTrades(bars: seq<Bar>)
    requires |bars| > 0
    requires forall j :: 1 <= j < |bars| ==> bars[j - 1].close <= bars[j].close
    ensures Simulate(bars) == DayResult([], Some(Summary(0, StartCash, 0.0, None, 0.0)))
  {
    var closes := Closes(bars);
    assert forall j :: 1 <= j < |closes| ==> closes[j - 1] <= closes[j];
    Oscillator.RisingSeriesNeutral(closes);
    QuietDay(bars);
  }

  /** On a strictly falling session with positive prices the oscillator is 0 from the
      second bar on, so the engine buys at the second bar with all its cash. */
  lemma FallingDayBuysAtSecondBar(bars: seq<Bar>)
    requires |bars| >= 2 && bars[1].close > 0.0
    requires forall j :: 1 <= j < |bars| ==> bars[j - 1].close > bars[j].close
    ensures var ticks := Annotate(bars);
            var px := BuyFill(bars[1].close);
            && Run(ticks[..2]).trades == [Buy(bars[1].time, px, 0.0)]
            && Run(ticks[..2]).shares == SharesFor(StartCash, px)
            && Run(ticks[..2]).cash == 0.0
  {
    var closes := Closes(bars);
    assert forall j :: 1 <= j < |closes| ==> closes[j - 1] > closes[j];
    Oscillator.FallingSeriesZero(closes);
    var ticks := Annotate(bars);
    RunStep(ticks, 0);
    RunStep(ticks, 1);
    assert ticks[..1] == [ticks[0]] && ticks[0].rsi == 50.0;
    assert Run(ticks[..0]) == Fresh() by { assert ticks[..0] == []; }
  }
}
