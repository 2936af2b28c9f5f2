/** The single-position execution engine of `backtest_day`: a FLAT/LONG state machine run
    over the one-minute bars of one session, with a final forced close and a day summary.
    The functions below state what one bar does (`Step`), what the whole loop leaves
    (`Run`), the end-of-day block (`Finish`) and the summary (`Summarize`). The method
    `BacktestDay` runs the imperative loop `ReplayBars` over the bars, then the forced
    close and the summary, and is proved to compute exactly `Simulate`. */
module Engine {
  import opened Wrappers
  import Rounding
  import Oscillator

  const BuyRsi: real := 20.0
  const SellRsi: real := 65.0
  const StopLossPct: real := 0.02
  const MinHoldMinutes: int := 5
  const SlippageBps: real := 2.0
  const FeePerTrade: real := 0.0
  const StartCash: real := 10000.0

  /** One bar of a session: its time in whole seconds and its close. */
  datatype Bar = Bar(time: int, close: real)

  /** A bar together with the oscillator value computed for it. */
  datatype Tick = Tick(time: int, price: real, rsi: real)

  /** Why a position was closed: "STOP", "RSI>65" or "EOD" in the ledger. */
  datatype Reason = Stop | Signal | EndOfDay

  /** One ledger row. Prices are after slippage; `pnl` is the realised return as a
      fraction of the entry price. */
  datatype Trade =
    | Buy(time: int, price: real, rsi: real)
    | Sell(time: int, price: real, rsi: real, reason: Reason, pnl: real)

  /** The day summary: SELL count, final equity, total return in percent, win rate in
      percent (absent without SELLs) and the size of the maximum drawdown in percent. */
  datatype Summary = Summary(trades: nat, finalEquity: real, totalReturnPct: real,
                             winRatePct: Option<real>, maxDrawdownPct: real)

  /** What `backtest_day` returns: the ledger, and the summary (absent for no bars). */
  datatype DayResult = DayResult(trades: seq<Trade>, summary: Option<Summary>)

  /** The engine's variables between two bars. */
  datatype EngineState = EngineState(cash: real, shares: real, entryPrice: Option<real>,
                                     entryTime: Option<int>, peak: real, maxDrawdown: real,
                                     trades: seq<Trade>)

  /** The state a session starts from. */
  function Fresh(): EngineState
  {
    EngineState(StartCash, 0.0, None, None, StartCash, 0.0, [])
  }

  /** Fill price of a purchase: slippage against the buyer. */
  function BuyFill(price: real): real
  {
    price * (1.0 + SlippageBps / 10000.0)
  }

  /** Fill price of a sale: slippage against the seller. */
  function SellFill(price: real): real
  {
    price * (1.0 - SlippageBps / 10000.0)
  }

  /** Price at or below which a position entered at `entry` is stopped out. */
  function StopLevel(entry: real): real
  {
    entry * (1.0 - StopLossPct)
  }

  /** Whole minutes from `since` to `now`, rounded down like Python's `//`
      (Dafny's `/` on `int` with a positive divisor is floor division too). */
  function HeldMinutes(now: int, since: int): int
  {
    (now - since) / 60
  }

  /** Cash plus the position marked at `price`. */
  function Equity(cash: real, shares: real, price: real): real
  {
    cash + shares * price
  }

  /** Shares bought with all of `cash`, less the fee, at fill price `px`: positive
      whenever the entry guard lets the purchase through. */
  function SharesFor(cash: real, px: real): (n: real)
    requires px > 0.0
    ensures cash > FeePerTrade ==> n > 0.0
  {
    (cash - FeePerTrade) / px
  }

  /** Cash received for selling `shares` at fill price `px`, less the fee. */
  function Proceeds(shares: real, px: real): real
  {
    shares * px - FeePerTrade
  }

  /** Realised return of a round trip, as a fraction of the entry price. */
  function Return(exit: real, entry: real): real
    requires entry != 0.0
  {
    (exit - entry) / entry
  }

  /** Decline of `equity` from `peak`, as a (non-positive when below the peak) fraction. */
  function Drawdown(equity: real, peak: real): real
    requires peak > 0.0
  {
    (equity - peak) / peak
  }

  function Abs(x: real): real
  {
    if x < 0.0 then -x else x
  }

  /** Exclusivity of cash and shares, and the entry fields set exactly while long. */
  predicate Consistent(s: EngineState)
  {
    && s.shares >= 0.0
    && (s.shares == 0.0 || s.cash == 0.0)
    && (s.shares != 0.0 <==> s.entryPrice.Some?)
    && (s.entryPrice.Some? <==> s.entryTime.Some?)
    && (s.entryPrice.Some? ==> s.entryPrice.value > 0.0)
  }

  /** A SELL `s` that closes the position the BUY `b` opened: its return is measured from
      the entry price, a STOP sale was priced at or under the stop level, and a signal sale
      was above the stop level (the stop wins ties), with the oscillator over the sell
      threshold and at least the minimum holding time elapsed. */
  predicate ClosesPosition(b: Trade, s: Trade)
    requires b.Buy? && s.Sell?
  {
    && b.price > 0.0
    && s.pnl == Return(s.price, b.price)
    && (s.reason == Stop ==> s.price <= SellFill(StopLevel(b.price)))
    && (s.reason == Signal ==>
          s.price > SellFill(StopLevel(b.price)) && s.rsi > SellRsi
          && s.time - b.time >= 60 * MinHoldMinutes)
  }

  /** BUYs at the even positions of the ledger, SELLs at the odd ones. */
  predicate BuysAtEven(trades: seq<Trade>)
  {
    forall k :: 0 <= k < |trades| ==> (trades[k].Buy? <==> k % 2 == 0)
  }

  /** The ledger alternates BUY, SELL, BUY, ... starting with BUY; every BUY was triggered
      below the buy threshold at a positive price; every SELL closes the BUY before it. */
  predicate Alternating(trades: seq<Trade>)
  {
    && BuysAtEven(trades)
    && (forall k :: 0 <= k < |trades| && trades[k].Buy? ==>
          trades[k].price > 0.0 && trades[k].rsi < BuyRsi)
    && (forall k :: 1 <= k < |trades| && trades[k].Sell? && trades[k - 1].Buy? ==>
          ClosesPosition(trades[k - 1], trades[k]))
  }

  /** What holds after every bar of the loop. */
  predicate Invariant(s: EngineState)
  {
    && Consistent(s)
    && s.peak >= StartCash
    && s.maxDrawdown <= 0.0
    && Alternating(s.trades)
    && (forall k :: 0 <= k < |s.trades| && s.trades[k].Sell? ==> s.trades[k].reason != EndOfDay)
    && (|s.trades| % 2 == 1 <==> s.shares != 0.0)
    && (s.entryPrice.Some? ==>
          s.trades[|s.trades| - 1].Buy?
          && s.trades[|s.trades| - 1].price == s.entryPrice.value
          && s.trades[|s.trades| - 1].time == s.entryTime.value)
  }

  /** Marking to market at the start of a bar (lines 107-113): equity with the bar's
      price, the running peak, and the most negative drawdown from that peak. */
  function Track(s: EngineState, price: real): (r: EngineState)
    ensures r.peak >= s.peak && r.peak >= Equity(s.cash, s.shares, price)
    ensures r.maxDrawdown <= s.maxDrawdown
    ensures r == s.(peak := r.peak, maxDrawdown := r.maxDrawdown)
  {
    var equity := Equity(s.cash, s.shares, price);
    var peak := if equity > s.peak then equity else s.peak;
    var maxDrawdown :=
      if peak > 0.0 && Drawdown(equity, peak) < s.maxDrawdown then Drawdown(equity, peak)
      else s.maxDrawdown;
    s.(peak := peak, maxDrawdown := maxDrawdown)
  }

  /** The entry and exit rules for one bar (lines 115-139). */
  function Decide(s: EngineState, t: Tick): (r: EngineState)
    requires Consistent(s)
    ensures Consistent(r)
    ensures r.peak == s.peak && r.maxDrawdown == s.maxDrawdown
    ensures r.trades == s.trades ==> r == s
    ensures r.trades != s.trades ==>
              && |r.trades| == |s.trades| + 1 && r.trades[..|s.trades|] == s.trades
              && (r.trades[|s.trades|].Buy? <==> s.shares == 0.0)
              && (r.shares == 0.0 <==> s.shares != 0.0)
  {
    if s.shares == 0.0 then
      var px := BuyFill(t.price);
      if t.rsi < BuyRsi && px > 0.0 && s.cash > FeePerTrade then
        s.(shares := SharesFor(s.cash, px), cash := 0.0,
           entryPrice := Some(px), entryTime := Some(t.time),
           trades := s.trades + [Buy(t.time, px, t.rsi)])
      else s
    else
      var entry := s.entryPrice.value;
      var stopHit := t.price <= StopLevel(entry);
      var exitSignal := t.rsi > SellRsi && HeldMinutes(t.time, s.entryTime.value) >= MinHoldMinutes;
      if stopHit || exitSignal then
        var px := SellFill(t.price);
        s.(cash := Proceeds(s.shares, px), shares := 0.0,
           entryPrice := None, entryTime := None,
           trades := s.trades + [Sell(t.time, px, t.rsi, if stopHit then Stop else Signal,
                                      Return(px, entry))])
      else s
  }

  /** One iteration of the loop over bars. */
  function Step(s: EngineState, t: Tick): (r: EngineState)
    requires Consistent(s)
    ensures Consistent(r)
    ensures r.peak >= s.peak && r.maxDrawdown <= s.maxDrawdown
  {
    Decide(Track(s, t.price), t)
  }

  /** The state after the loop has run over all of `ticks`, from a fresh engine. */
  function Run(ticks: seq<Tick>): (s: EngineState)
    ensures Consistent(s)
    decreases |ticks|
  {
    if |ticks| == 0 then Fresh()
    else
      Step(Run(ticks[..|ticks| - 1]), ticks[|ticks| - 1])
  }

  /** The end-of-day block (lines 142-151): a position still open is sold at the last
      bar's price with reason EOD. */
  function Finish(s: EngineState, ticks: seq<Tick>): (r: EngineState)
    requires Consistent(s) && |ticks| > 0
    ensures r.shares == 0.0 && r.peak == s.peak && r.maxDrawdown == s.maxDrawdown
    ensures s.shares == 0.0 ==> r == s
    ensures s.shares != 0.0 ==>
              && |r.trades| == |s.trades| + 1 && r.trades[..|s.trades|] == s.trades
              && r.trades[|s.trades|].Sell? && r.trades[|s.trades|].reason == EndOfDay
              && r.trades[|s.trades|].time == ticks[|ticks| - 1].time
  {
    if s.shares > 0.0 then
      var last := ticks[|ticks| - 1];
      var px := SellFill(last.price);
      var entry := s.entryPrice.value;
      s.(cash := Proceeds(s.shares, px), shares := 0.0,
         trades := s.trades + [Sell(last.time, px, last.rsi, EndOfDay, Return(px, entry))])
    else s
  }

  /** `PnL_%` of every SELL, rounded to three decimals as the ledger stores it. */
  function PnlPercents(trades: seq<Trade>): (pcts: seq<real>)
    ensures |pcts| == SellCount(trades)
  {
    if |trades| == 0 then []
    else
      var rest := PnlPercents(trades[..|trades| - 1]);
      var t := trades[|trades| - 1];
      if t.Sell? then rest + [Rounding.RoundHalfEven(t.pnl * 100.0, 3)] else rest
  }

  function SellCount(trades: seq<Trade>): nat
  {
    if |trades| == 0 then 0
    else SellCount(trades[..|trades| - 1]) + (if trades[|trades| - 1].Sell? then 1 else 0)
  }

  function BuyCount(trades: seq<Trade>): nat
  {
    if |trades| == 0 then 0
    else BuyCount(trades[..|trades| - 1]) + (if trades[|trades| - 1].Buy? then 1 else 0)
  }

  /** How many of `xs` are positive. */
  function CountPositive(xs: seq<real>): (n: nat)
    ensures n <= |xs|
  {
    if |xs| == 0 then 0
    else CountPositive(xs[..|xs| - 1]) + (if xs[|xs| - 1] > 0.0 then 1 else 0)
  }

  /** `part` out of `whole`, in percent. */
  function Percentage(part: nat, whole: nat): (pct: real)
    requires 0 < whole && part <= whole
    ensures 0.0 <= pct <= 100.0
    ensures pct == 0.0 <==> part == 0
  {
    PercentageBounds(part, whole);
    part as real / whole as real * 100.0
  }

  lemma PercentageBounds(part: nat, whole: nat)
    requires 0 < whole && part <= whole
    ensures 0.0 <= part as real / whole as real <= 1.0
    ensures part as real / whole as real == 0.0 <==> part == 0
  {
    var q := part as real / whole as real;
    assert q * whole as real == part as real;
  }

  /** The summary of lines 153-164, before display rounding. */
  function Summarize(s: EngineState): (r: Summary)
    ensures r.trades == SellCount(s.trades) && r.finalEquity == s.cash
    ensures r.totalReturnPct > 0.0 <==> s.cash > StartCash
    ensures r.winRatePct.None? <==> r.trades == 0
    ensures r.winRatePct.Some? ==> 0.0 <= r.winRatePct.value <= 100.0
    ensures r.maxDrawdownPct >= 0.0
  {
    var pcts := PnlPercents(s.trades);
    var winRate :=
      if |pcts| == 0 then None
      else Some(Percentage(CountPositive(pcts), |pcts|));
    Summary(|pcts|, s.cash, (s.cash / StartCash - 1.0) * 100.0, winRate, Abs(s.maxDrawdown) * 100.0)
  }

  function Closes(bars: seq<Bar>): (closes: seq<real>)
    ensures |closes| == |bars|
  {
    seq(|bars|, i requires 0 <= i < |bars| => bars[i].close)
  }

  /** Every bar with its oscillator value, computed over the session's closes. */
  function Annotate(bars: seq<Bar>): (ticks: seq<Tick>)
    ensures |ticks| == |bars|
    ensures forall i :: 0 <= i < |bars| ==>
              ticks[i].time == bars[i].time && ticks[i].price == bars[i].close
              && ticks[i].rsi == Oscillator.ComputeRsi(Closes(bars))[i]
              && 0.0 <= ticks[i].rsi <= 100.0
  {
    var rsi := Oscillator.ComputeRsi(Closes(bars));
    seq(|bars|, i requires 0 <= i < |bars| => Tick(bars[i].time, bars[i].close, rsi[i]))
  }

  /** `backtest_day` on a session's bars, as a function. */
  function Simulate(bars: seq<Bar>): (r: DayResult)
    ensures r.summary.None? <==> |bars| == 0
    ensures |bars| == 0 ==> r.trades == []
  {
    if |bars| == 0 then DayResult([], None)
    else
      var ticks := Annotate(bars);
      var s := Finish(Run(ticks), ticks);
      DayResult(s.trades, Some(Summarize(s)))
  }

  // ---------------------------------------------------------------------------------
  // Preservation of the invariant, one bar at a time

  lemma TrackKeepsInvariant(s: EngineState, price: real)
    requires Invariant(s)
    ensures Invariant(Track(s, price))
    ensures Track(s, price).peak >= s.peak && Track(s, price).maxDrawdown <= s.maxDrawdown
  {
  }

  lemma BuyKeepsAlternating(trades: seq<Trade>, b: Trade)
    requires Alternating(trades) && |trades| % 2 == 0
    requires b.Buy? && b.price > 0.0 && b.rsi < BuyRsi
    ensures Alternating(trades + [b])
  {
  }

  lemma SellKeepsAlternating(trades: seq<Trade>, s: Trade)
    requires Alternating(trades) && |trades| % 2 == 1 && s.Sell?
    requires trades[|trades| - 1].Buy? && ClosesPosition(trades[|trades| - 1], s)
    ensures Alternating(trades + [s])
  {
    var t := trades + [s];
    forall k | 1 <= k < |t| && t[k].Sell? && t[k - 1].Buy?
      ensures ClosesPosition(t[k - 1], t[k])
    {
      if k < |trades| {
        assert t[k - 1] == trades[k - 1] && t[k] == trades[k];
      }
    }
  }

  /** A signal sale needs at least the minimum holding period in seconds. */
  lemma HeldLongEnough(now: int, since: int)
    ensures HeldMinutes(now, since) >= MinHoldMinutes <==> now - since >= 60 * MinHoldMinutes
  {
  }

  /** After every bar the full invariant holds: exclusivity, the running peak and
      drawdown bounds, and an alternating ledger whose open BUY is the current entry. */
  lemma {:induction false} RunInvariant(ticks: seq<Tick>)
    ensures Invariant(Run(ticks))
    decreases |ticks|
  {
    if |ticks| > 0 {
      RunInvariant(ticks[..|ticks| - 1]);
      StepKeepsInvariant(Run(ticks[..|ticks| - 1]), ticks[|ticks| - 1]);
    }
  }

  /** An entry keeps the invariant: the shares bought are positive and cash is zero. */
  lemma EnterKeepsInvariant(m: EngineState, t: Tick)
    requires Invariant(m) && m.shares == 0.0
    requires t.rsi < BuyRsi && BuyFill(t.price) > 0.0 && m.cash > FeePerTrade
    ensures Invariant(Decide(m, t))
  {
    var px := BuyFill(t.price);
    BuyKeepsAlternating(m.trades, Buy(t.time, px, t.rsi));
  }

  /** An exit keeps the invariant: the sale closes the open BUY. */
  lemma ExitKeepsInvariant(m: EngineState, t: Tick)
    requires Invariant(m) && m.shares != 0.0
    requires t.price <= StopLevel(m.entryPrice.value)
             || (t.rsi > SellRsi && HeldMinutes(t.time, m.entryTime.value) >= MinHoldMinutes)
    ensures Invariant(Decide(m, t))
  {
    var entry := m.entryPrice.value;
    var stopHit := t.price <= StopLevel(entry);
    var px := SellFill(t.price);
    var sale := Sell(t.time, px, t.rsi, if stopHit then Stop else Signal, Return(px, entry));
    if !stopHit {
      HeldLongEnough(t.time, m.entryTime.value);
    }
    SellKeepsAlternating(m.trades, sale);
    assert Decide(m, t).trades == m.trades + [sale];
  }

  lemma StepKeepsInvariant(s: EngineState, t: Tick)
    requires Invariant(s)
    ensures Invariant(Step(s, t))
  {
    var m := Track(s, t.price);
    TrackKeepsInvariant(s, t.price);
    if m.shares == 0.0 {
      if t.rsi < BuyRsi && BuyFill(t.price) > 0.0 && m.cash > FeePerTrade {
        EnterKeepsInvariant(m, t);
      }
    } else {
      if t.price <= StopLevel(m.entryPrice.value)
         || (t.rsi > SellRsi && HeldMinutes(t.time, m.entryTime.value) >= MinHoldMinutes) {
        ExitKeepsInvariant(m, t);
      }
    }
  }

  // ---------------------------------------------------------------------------------
  // The imperative loop

  /** The loop of `backtest_day` over the session's annotated bars, with the engine's
      variables updated in place; its result is the state after the last bar. */
  method ReplayBars(ticks: seq<Tick>) returns (s: EngineState)
    ensures s == Run(ticks)
  {
    var cash: real := StartCash;
    var shares: real := 0.0;
    var entryPrice: Option<real> := None;
    var entryTime: Option<int> := None;
    var peak: real := StartCash;
    var maxDrawdown: real := 0.0;
    var trades: seq<Trade> := [];

    for i := 0 to |ticks|
      invariant EngineState(cash, shares, entryPrice, entryTime, peak, maxDrawdown, trades)
                == Run(ticks[..i])
    {
      assert ticks[..i + 1][..i] == ticks[..i];
      ghost var before := Run(ticks[..i]);
      assert Run(ticks[..i + 1]) == Step(before, ticks[i]);
      var ts, price, curRsi := ticks[i].time, ticks[i].price, ticks[i].rsi;

      var equity := Equity(cash, shares, price);
      if equity > peak {
        peak := equity;
      }
      if peak > 0.0 {
        var dd := Drawdown(equity, peak);
        if dd < maxDrawdown {
          maxDrawdown := dd;
        }
      }
      ghost var marked := Track(before, price);
      assert EngineState(cash, shares, entryPrice, entryTime, peak, maxDrawdown, trades) == marked;

      if shares == 0.0 {
        if curRsi < BuyRsi {
          var buyPx := BuyFill(price);
          if buyPx > 0.0 && cash > FeePerTrade {
            shares := SharesFor(cash, buyPx);
            cash := 0.0;
            entryPrice := Some(buyPx);
            entryTime := Some(ts);
            trades := trades + [Buy(ts, buyPx, curRsi)];
          }
        }
      } else {
        var heldMins := HeldMinutes(ts, entryTime.value);
        var stopHit := price <= StopLevel(entryPrice.value);
        var exitSignal := curRsi > SellRsi && heldMins >= MinHoldMinutes;
        if stopHit || exitSignal {
          var sellPx := SellFill(price);
          cash := Proceeds(shares, sellPx);
          var pnl := Return(sellPx, entryPrice.value);
          trades := trades + [Sell(ts, sellPx, curRsi, if stopHit then Stop else Signal, pnl)];
          shares := 0.0;
          entryPrice, entryTime := None, None;
        }
      }
    }
    assert ticks[..|ticks|] == ticks;
    s := EngineState(cash, shares, entryPrice, entryTime, peak, maxDrawdown, trades);
  }

  /** The forced close of `backtest_day`: a position still open after the last bar is
      sold at that bar's close, less slippage, with reason EOD. */
  method CloseSession(done: EngineState, ticks: seq<Tick>) returns (closed: EngineState)
    requires Consistent(done) && |ticks| > 0
    ensures closed == Finish(done, ticks)
  {
    closed := done;
    if done.shares > 0.0 {
      var last := ticks[|ticks| - 1];
      var lastPx := SellFill(last.price);
      var pnl := Return(lastPx, done.entryPrice.value);
      closed := closed.(cash := Proceeds(done.shares, lastPx), shares := 0.0,
                        trades := done.trades + [Sell(last.time, lastPx, last.rsi, EndOfDay, pnl)]);
    }
  }

  /** The summary block of `backtest_day`: trade count, final equity, total return,
      win rate over the sales and maximum drawdown, all in percent where the source
      reports percent. */
  method SummarizeSession(closed: EngineState) returns (summary: Summary)
    ensures summary == Summarize(closed)
  {
    var finalEquity := closed.cash;
    var totalReturn := finalEquity / StartCash - 1.0;
    var pnlList := PnlPercents(closed.trades);
    var winRate: Option<real> := None;
    if |pnlList| > 0 {
      winRate := Some(Percentage(CountPositive(pnlList), |pnlList|));
    }
    summary := Summary(|pnlList|, finalEquity, totalReturn * 100.0, winRate,
                       Abs(closed.maxDrawdown) * 100.0);
  }

  /** `backtest_day`: the oscillator over the session's closes, the loop over its bars,
      the forced close at the last bar and the summary; an empty session has no summary. */
  method BacktestDay(bars: seq<Bar>) returns (trades: seq<Trade>, summary: Option<Summary>)
    ensures DayResult(trades, summary) == Simulate(bars)
  {
    if |bars| == 0 {
      return [], None;
    }
    var ticks := Annotate(bars);
    var done := ReplayBars(ticks);
    var closed := CloseSession(done, ticks);
    var figures := SummarizeSession(closed);
    trades, summary := closed.trades, Some(figures);
  }
}
