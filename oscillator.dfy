/** The RSI oscillator of `compute_rsi`: bar-to-bar changes split into gains and losses,
    each smoothed by an exponentially weighted mean with alpha = 1/14 (pandas
    `ewm(alpha=1/window, adjust=False)`), and combined as 100 - 100/(1 + gain/loss).
    An undefined first value and a zero average loss both come out as the neutral 50. */
module Oscillator {

  const Window: nat := 14
  const Alpha: real := 1.0 / Window as real

  /** The positive part of a change (`delta.clip(lower=0)`). */
  function Gain(delta: real): (g: real)
    ensures g >= 0.0 && (g > 0.0 <==> delta > 0.0)
  {
    if delta > 0.0 then delta else 0.0
  }

  /** The size of a fall (`-delta.clip(upper=0)`). */
  function Loss(delta: real): (l: real)
    ensures l >= 0.0 && (l > 0.0 <==> delta < 0.0)
  {
    if delta < 0.0 then -delta else 0.0
  }

  /** The two smoothed averages at one bar. `Undefined` is the first bar, whose change
      `diff()` leaves as NaN, so that neither average has an observation yet. */
  datatype Averages = Undefined | Averaged(gain: real, loss: real)

  /** Both averages are defined and non-negative. */
  predicate NonNegative(a: Averages)
  {
    a.Averaged? && a.gain >= 0.0 && a.loss >= 0.0
  }

  /** One step of the weighted mean with `adjust=False`: the first observation seeds the
      mean, every later one gives y = (1 - alpha) * y' + alpha * x. */
  function Smooth(prev: Averages, delta: real): (next: Averages)
    requires prev.Averaged? ==> NonNegative(prev)
    ensures NonNegative(next)
  {
    match prev
    case Undefined => Averaged(Gain(delta), Loss(delta))
    case Averaged(g, l) =>
      Averaged((1.0 - Alpha) * g + Alpha * Gain(delta), (1.0 - Alpha) * l + Alpha * Loss(delta))
  }

  /** The smoothed gain and loss averages at every bar of `closes`. */
  function Smoothed(closes: seq<real>): (avgs: seq<Averages>)
    ensures |avgs| == |closes|
    ensures |closes| > 0 ==> avgs[0] == Undefined
    ensures forall i :: 1 <= i < |avgs| ==> NonNegative(avgs[i])
    decreases |closes|
  {
    if |closes| == 0 then []
    else if |closes| == 1 then [Undefined]
    else
      var n := |closes|;
      var prev := Smoothed(closes[..n - 1]);
      prev + [Smooth(prev[n - 2], closes[n - 1] - closes[n - 2])]
  }

  /** The oscillator value for one bar's averages: NaN (undefined averages, or a zero
      average loss turned into NaN by `replace(0, nan)`) is filled with 50. */
  function RsiOf(a: Averages): (v: real)
    requires a.Averaged? ==> NonNegative(a)
    ensures 0.0 <= v <= 100.0
    ensures a.Undefined? || a.loss == 0.0 ==> v == 50.0
    ensures a.Averaged? && a.loss > 0.0 ==> v < 100.0
    ensures a.Averaged? && a.loss > 0.0 ==> (v == 0.0 <==> a.gain == 0.0)
  {
    match a
    case Undefined => 50.0
    case Averaged(g, l) =>
      if l == 0.0 then 50.0
      else
        RatioBounds(g, l);
        100.0 - 100.0 / (1.0 + g / l)
  }

  /** For g >= 0 and l > 0, 100/(1 + g/l) lies in (0, 100], and is 100 only when g = 0. */
  lemma RatioBounds(g: real, l: real)
    requires g >= 0.0 && l > 0.0
    ensures 0.0 < 100.0 / (1.0 + g / l) <= 100.0
    ensures 100.0 / (1.0 + g / l) == 100.0 <==> g == 0.0
  {
    var rs := g / l;
    assert rs * l == g;
    assert rs >= 0.0;
    assert rs == 0.0 <==> g == 0.0;
    var q := 100.0 / (1.0 + rs);
    assert q * (1.0 + rs) == 100.0;
    assert q == 100.0 - q * rs;
    assert q > 0.0;
    assert q * rs >= 0.0;
  }

  /** `compute_rsi(closes, 14)`: one value per bar. */
  function ComputeRsi(closes: seq<real>): (rsi: seq<real>)
    ensures |rsi| == |closes|
    ensures |closes| > 0 ==> rsi[0] == 50.0
    ensures forall i :: 0 <= i < |rsi| ==> 0.0 <= rsi[i] <= 100.0
    ensures forall i :: 1 <= i < |rsi| && Smoothed(closes)[i].loss == 0.0 ==> rsi[i] == 50.0
    ensures forall i :: 1 <= i < |rsi| && Smoothed(closes)[i].loss > 0.0 ==> rsi[i] < 100.0
  {
    var avgs := Smoothed(closes);
    seq(|closes|, i requires 0 <= i < |closes| => RsiOf(avgs[i]))
  }

  /** The averages of a prefix are the prefix of the averages: each value depends only on
      the bars up to it, so the oscillator can be computed bar by bar. */
  lemma {:induction false} SmoothedPrefix(closes: seq<real>, k: nat)
    requires k <= |closes|
    ensures Smoothed(closes[..k]) == Smoothed(closes)[..k]
    decreases |closes|
  {
    if k < |closes| {
      var n := |closes|;
      SmoothedPrefix(closes[..n - 1], k);
      assert closes[..n - 1][..k] == closes[..k];
    } else {
      assert closes[..k] == closes;
    }
  }

  /** The pandas recurrence, bar by bar: the first change seeds both averages, every later
      bar's averages are the smoothing step applied to the averages one bar before. */
  lemma SmoothedAt(closes: seq<real>, i: nat)
    requires 1 <= i < |closes|
    ensures Smoothed(closes)[i] == Smooth(Smoothed(closes)[i - 1], closes[i] - closes[i - 1])
    ensures i == 1 ==> Smoothed(closes)[i] == Averaged(Gain(closes[1] - closes[0]), Loss(closes[1] - closes[0]))
  {
    var p := closes[..i + 1];
    assert p[..i] == closes[..i];
    var front := Smoothed(closes[..i]);
    assert Smoothed(p) == front + [Smooth(front[i - 1], closes[i] - closes[i - 1])];
    SmoothedPrefix(closes, i + 1);
    SmoothedPrefix(closes, i);
    assert Smoothed(closes)[i] == Smoothed(p)[i];
    assert Smoothed(closes)[i - 1] == front[i - 1];
  }

  /** The same causality for the oscillator itself. */
  lemma RsiPrefix(closes: seq<real>, k: nat)
    requires k <= |closes|
    ensures ComputeRsi(closes[..k]) == ComputeRsi(closes)[..k]
  {
    SmoothedPrefix(closes, k);
  }

  /** No bar up to and including `i` falls below the bar before it. */
  predicate NoDropUpTo(closes: seq<real>, i: nat)
    requires i < |closes|
  {
    forall j :: 1 <= j <= i ==> closes[j - 1] <= closes[j]
  }

  /** No bar up to and including `i` rises above the bar before it. */
  predicate NoRiseUpTo(closes: seq<real>, i: nat)
    requires i < |closes|
  {
    forall j :: 1 <= j <= i ==> closes[j - 1] >= closes[j]
  }

  /** The average loss is exactly zero precisely when the price has not fallen so far,
      and the average gain likewise when it has not risen. */
  lemma {:induction false} ZeroAverages(closes: seq<real>, i: nat)
    requires 1 <= i < |closes|
    ensures Smoothed(closes)[i].loss == 0.0 <==> NoDropUpTo(closes, i)
    ensures Smoothed(closes)[i].gain == 0.0 <==> NoRiseUpTo(closes, i)
  {
    SmoothedAt(closes, i);
    if i > 1 {
      ZeroAverages(closes, i - 1);
      SmoothKeepsZero(Smoothed(closes)[i - 1], closes[i] - closes[i - 1]);
      assert NoDropUpTo(closes, i) <==> NoDropUpTo(closes, i - 1) && closes[i - 1] <= closes[i];
      assert NoRiseUpTo(closes, i) <==> NoRiseUpTo(closes, i - 1) && closes[i - 1] >= closes[i];
    }
  }

  /** A smoothed average stays zero exactly while no new observation adds to it. */
  lemma SmoothKeepsZero(prev: Averages, delta: real)
    requires NonNegative(prev)
    ensures Smooth(prev, delta).loss == 0.0 <==> prev.loss == 0.0 && delta >= 0.0
    ensures Smooth(prev, delta).gain == 0.0 <==> prev.gain == 0.0 && delta <= 0.0
  {
  }

  /** On a series that never falls (a strictly rising one in particular) the average loss
      stays zero, so the oscillator is 50 at every bar, not 100. */
  lemma RisingSeriesNeutral(closes: seq<real>)
    requires forall j :: 1 <= j < |closes| ==> closes[j - 1] <= closes[j]
    ensures forall i :: 0 <= i < |closes| ==> ComputeRsi(closes)[i] == 50.0
  {
    forall i | 1 <= i < |closes|
      ensures ComputeRsi(closes)[i] == 50.0
    {
      ZeroAverages(closes, i);
    }
  }

  /** On a strictly falling series the average gain stays zero and the average loss is
      positive from the second bar on, so the oscillator is exactly 0 there. */
  lemma FallingSeriesZero(closes: seq<real>)
    requires forall j :: 1 <= j < |closes| ==> closes[j - 1] > closes[j]
    ensures forall i :: 1 <= i < |closes| ==> ComputeRsi(closes)[i] == 0.0
  {
    forall i | 1 <= i < |closes|
      ensures ComputeRsi(closes)[i] == 0.0
    {
      ZeroAverages(closes, i);
      assert !NoDropUpTo(closes, i) by {
        assert closes[0] > closes[1];
      }
    }
  }
}
