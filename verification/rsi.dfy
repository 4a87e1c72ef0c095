/** The Relative Strength Index of a series of closing prices, computed the way
    `rsi(series, period)` in the indicator module does it: first differences,
    split into gains and losses, a simple trailing mean of each over `period`
    samples, and `100 - 100 / (1 + avg_gain / avg_loss)`.

    NaN is `None`. Prices themselves are always numbers; NaN arises only from
    the missing difference at position 0, from windows that are not yet full,
    and from the 0/0 of a window without any movement.
 */
module RelativeStrength {
  import opened Options
  import opened Rolling

  /** The period `compute_divergence` uses. */
  const DefaultPeriod: int := 14

  /** pandas refuses a negative rolling window with a ValueError. */
  datatype RsiError = NegativeWindow

  /** `series.diff()`: the change from the previous close, NaN at position 0. */
  function Diff(closes: seq<real>): (d: seq<Option<real>>)
    ensures |d| == |closes|
  {
    seq(|closes|, i requires 0 <= i < |closes| =>
      if i == 0 then None else Some(closes[i] - closes[i - 1]))
  }

  /** `delta.where(delta > 0, 0.0)`: NaN fails the test and becomes 0. */
  function Gain(delta: Option<real>): real
  {
    if delta.Some? && delta.value > 0.0 then delta.value else 0.0
  }

  /** `-delta.where(delta < 0, 0.0)`: the size of a fall, 0 otherwise. */
  function Loss(delta: Option<real>): real
  {
    if delta.Some? && delta.value < 0.0 then -delta.value else 0.0
  }

  function Gains(closes: seq<real>): (g: seq<real>)
    ensures |g| == |closes|
    ensures NonNegative(g)
    ensures |closes| > 0 ==> g[0] == 0.0
  {
    var d := Diff(closes);
    seq(|d|, i requires 0 <= i < |d| => Gain(d[i]))
  }

  function Losses(closes: seq<real>): (l: seq<real>)
    ensures |l| == |closes|
    ensures NonNegative(l)
    ensures |closes| > 0 ==> l[0] == 0.0
  {
    var d := Diff(closes);
    seq(|d|, i requires 0 <= i < |d| => Loss(d[i]))
  }

  /** Gain and loss split each price change: at most one of them is non-zero,
      and the change is recovered as their difference. */
  lemma GainLossSplit(closes: seq<real>, i: nat)
    requires i < |closes|
    ensures Gains(closes)[i] == 0.0 || Losses(closes)[i] == 0.0
    ensures i > 0 ==> Gains(closes)[i] - Losses(closes)[i] == closes[i] - closes[i - 1]
  {
  }

  /** `100 - 100 / (1 + rs)` with `rs = avgGain / avgLoss`, evaluated in floating point:
      a zero average loss makes `rs` infinite (RSI 100) when there is some gain,
      and NaN when there is none. */
  function RsiFromAverages(avgGain: real, avgLoss: real): (r: Option<real>)
    requires 0.0 <= avgGain && 0.0 <= avgLoss
    ensures r.Some? <==> avgGain > 0.0 || avgLoss > 0.0
    ensures r.Some? ==> r.value == 100.0 * avgGain / (avgGain + avgLoss)
    ensures r.Some? ==> 0.0 <= r.value <= 100.0
    ensures avgLoss == 0.0 && avgGain > 0.0 ==> r == Some(100.0)
  {
    if avgLoss != 0.0 then
      var rs := avgGain / avgLoss;
      FormulaIsGainShare(avgGain, avgLoss);
      ShareBounds(avgGain, avgLoss);
      Some(100.0 - 100.0 / (1.0 + rs))
    else if avgGain > 0.0 then
      // rs is +inf and 100 / (1 + inf) is 0
      DivideBack(100.0 * avgGain, avgGain + avgLoss, 100.0);
      Some(100.0)
    else
      // 0 / 0 is NaN, and NaN propagates through the formula
      None
  }

  /** Division is the inverse of multiplication by a non-zero divisor. */
  lemma DivideBack(a: real, b: real, q: real)
    requires b != 0.0 && q * b == a
    ensures a / b == q
  {
  }

  lemma FormulaIsGainShare(g: real, l: real)
    requires 0.0 <= g && 0.0 < l
    ensures 100.0 - 100.0 / (1.0 + g / l) == 100.0 * g / (g + l)
  {
    var rs := g / l;
    var d := 1.0 + rs;
    var x := 100.0 / d;
    assert rs * l == g;
    assert d * l == l + g;
    assert x * d == 100.0;
    assert x * (g + l) == (x * d) * l == 100.0 * l;
    assert (100.0 - x) * (g + l) == 100.0 * g;
    DivideBack(100.0 * g, g + l, 100.0 - x);
  }

  lemma ShareBounds(g: real, l: real)
    requires 0.0 <= g && 0.0 <= l && 0.0 < g + l
    ensures 0.0 <= 100.0 * g / (g + l) <= 100.0
  {
  }

  /** Scaling both sums by the window length does not change the share. */
  lemma MeanShare(sumGain: real, sumLoss: real, n: real)
    requires 0.0 < n && 0.0 < sumGain + sumLoss
    ensures 100.0 * (sumGain / n) / (sumGain / n + sumLoss / n) == 100.0 * sumGain / (sumGain + sumLoss)
  {
  }

  /** The NaN-propagating combination of the two rolling means. */
  function Combine(avgGain: Option<real>, avgLoss: Option<real>): Option<real>
    requires avgGain.Some? ==> avgGain.value >= 0.0
    requires avgLoss.Some? ==> avgLoss.value >= 0.0
  {
    if avgGain.Some? && avgLoss.Some? then RsiFromAverages(avgGain.value, avgLoss.value) else None
  }

  /** The combination of two non-negative rolling means is the share of the
      first window's sum in the total of both, and is present exactly when the
      windows are full and not both of zero sum. */
  lemma CombineMeans(gs: seq<real>, ls: seq<real>, period: nat, i: nat)
    requires NonNegative(gs) && NonNegative(ls)
    requires i < |gs| == |ls|
    ensures var r := Combine(WindowMean(gs, period, i), WindowMean(ls, period, i));
      && (r.Some? <==> 1 <= period <= i + 1 && (Sum(Window(gs, period, i)) > 0.0 || Sum(Window(ls, period, i)) > 0.0))
      && (r.Some? ==> r.value == 100.0 * Sum(Window(gs, period, i)) / (Sum(Window(gs, period, i)) + Sum(Window(ls, period, i))))
  {
    if 1 <= period <= i + 1 {
      var sg := Sum(Window(gs, period, i));
      var sl := Sum(Window(ls, period, i));
      var n := period as real;
      SumNonNegative(Window(gs, period, i));
      SumNonNegative(Window(ls, period, i));
      var g := WindowMean(gs, period, i).value;
      var l := WindowMean(ls, period, i).value;
      DivideBack(sg, n, g);
      DivideBack(sl, n, l);
      assert g > 0.0 <==> sg > 0.0;
      assert l > 0.0 <==> sl > 0.0;
      if sg + sl > 0.0 {
        MeanShare(sg, sl, n);
      }
    }
  }

  /** Total upward movement in the window of `period` samples ending at `i`. */
  function WindowGain(closes: seq<real>, period: nat, i: nat): real
    requires period <= i + 1 <= |closes|
  {
    Sum(Window(Gains(closes), period, i))
  }

  /** Total downward movement in the window of `period` samples ending at `i`. */
  function WindowLoss(closes: seq<real>, period: nat, i: nat): real
    requires period <= i + 1 <= |closes|
  {
    Sum(Window(Losses(closes), period, i))
  }

  /** RSI is defined once the window is full and the window saw some movement. */
  predicate Defined(closes: seq<real>, period: nat, i: nat)
    requires i < |closes|
  {
    1 <= period <= i + 1 && (WindowGain(closes, period, i) > 0.0 || WindowLoss(closes, period, i) > 0.0)
  }

  /** RSI at one position. Its value is the share of upward movement in the
      window's total movement, scaled to 0..100. */
  function RsiAt(closes: seq<real>, period: nat, i: nat): (r: Option<real>)
    requires i < |closes|
    ensures r.Some? <==> Defined(closes, period, i)
    ensures r.Some? ==> WindowGain(closes, period, i) + WindowLoss(closes, period, i) > 0.0
    ensures r.Some? ==> r.value == 100.0 * WindowGain(closes, period, i)
                                   / (WindowGain(closes, period, i) + WindowLoss(closes, period, i))
    ensures r.Some? ==> 0.0 <= r.value <= 100.0
  {
    var gs := Gains(closes);
    var ls := Losses(closes);
    CombineMeans(gs, ls, period, i);
    if 1 <= period <= i + 1 then
      SumNonNegative(Window(gs, period, i));
      SumNonNegative(Window(ls, period, i));
      Combine(WindowMean(gs, period, i), WindowMean(ls, period, i))
    else
      Combine(WindowMean(gs, period, i), WindowMean(ls, period, i))
  }

  /** `rsi(series, period)`: one value per close, aligned by position. */
  function Rsi(closes: seq<real>, period: int): (r: Result<seq<Option<real>>, RsiError>)
    ensures r.Err? <==> period < 0
    ensures r.Ok? ==> |r.value| == |closes|
    ensures r.Ok? ==> forall i :: 0 <= i < |closes| ==> (r.value[i].Some? <==> Defined(closes, period, i))
    ensures r.Ok? ==> forall i :: 0 <= i < |closes| && r.value[i].Some? ==> 0.0 <= r.value[i].value <= 100.0
  {
    if period < 0 then
      Err(NegativeWindow)
    else
      Ok(seq(|closes|, i requires 0 <= i < |closes| => RsiAt(closes, period, i)))
  }

  /** The same computation with the rolling means taken in one running-sum pass. */
  method ComputeRsi(closes: seq<real>, period: int) returns (r: Result<seq<Option<real>>, RsiError>)
    ensures r == Rsi(closes, period)
  {
    if period < 0 {
      return Err(NegativeWindow);
    }
    var avgGain := RollingMeanScan(Gains(closes), period);
    var avgLoss := RollingMeanScan(Losses(closes), period);
    var out := seq(|closes|, i requires 0 <= i < |closes| => Combine(avgGain[i], avgLoss[i]));
    assert forall i :: 0 <= i < |closes| ==> out[i] == RsiAt(closes, period, i);
    assert out == Rsi(closes, period).value;
    return Ok(out);
  }

  /** With a window of zero losses and some gain, RSI is exactly 100. */
  lemma AllGainWindowIsHundred(closes: seq<real>, period: nat, i: nat)
    requires 1 <= period <= i + 1 <= |closes|
    requires WindowLoss(closes, period, i) == 0.0 && WindowGain(closes, period, i) > 0.0
    ensures Rsi(closes, period).value[i] == Some(100.0)
  {
  }

  predicate StrictlyIncreasing(xs: seq<real>)
  {
    forall k :: 0 < k < |xs| ==> xs[k - 1] < xs[k]
  }

  /** Under strictly rising closes nothing is ever lost, and every step
      after the first gains. */
  lemma RisingMovement(closes: seq<real>)
    requires StrictlyIncreasing(closes)
    ensures forall k :: 0 <= k < |closes| ==> Losses(closes)[k] == 0.0
    ensures forall k :: 1 <= k < |closes| ==> Gains(closes)[k] > 0.0
  {
  }

  /** Under strictly rising closes a full window has no loss, and it has
      some gain unless it is the single position 0. */
  lemma RisingWindow(closes: seq<real>, period: nat, i: nat)
    requires StrictlyIncreasing(closes)
    requires 1 <= period <= i + 1 <= |closes|
    ensures WindowLoss(closes, period, i) == 0.0
    ensures WindowGain(closes, period, i) > 0.0 <==> i >= 1
  {
    var gs := Gains(closes);
    var ls := Losses(closes);
    RisingMovement(closes);
    WindowOfZeros(ls, period, i);
    if i >= 1 {
      WindowEndingPositive(gs, period, i);
    } else {
      SingleWindow(gs, 0);
    }
  }

  /** Strictly rising closes: RSI is 100 wherever it is defined. With
      `period >= 1` it is defined from position max(period - 1, 1) on; with
      `period = 0` it is defined nowhere. */
  lemma RsiOfRisingCloses(closes: seq<real>, period: nat, i: nat)
    requires StrictlyIncreasing(closes)
    requires i < |closes|
    ensures Rsi(closes, period).value[i] == if 1 <= period <= i + 1 && 1 <= i then Some(100.0) else None
  {
    var r := RsiAt(closes, period, i);
    assert Rsi(closes, period).value[i] == r;
    if 1 <= period <= i + 1 {
      RisingWindow(closes, period, i);
      if i >= 1 {
        AllGainWindowIsHundred(closes, period, i);
      } else {
        assert !Defined(closes, period, i);
      }
    }
  }

  /** RSI at position `i` depends on the closes up to `i` only: appending
      further closes leaves every earlier value unchanged. */
  lemma RsiIsCausal(closes: seq<real>, period: nat, m: nat, i: nat)
    requires i < m <= |closes|
    ensures Rsi(closes[..m], period).value[i] == Rsi(closes, period).value[i]
  {
    var prefix := closes[..m];
    assert Gains(prefix) == Gains(closes)[..m];
    assert Losses(prefix) == Losses(closes)[..m];
    if 1 <= period <= i + 1 {
      assert Window(Gains(prefix), period, i) == Window(Gains(closes), period, i);
      assert Window(Losses(prefix), period, i) == Window(Losses(closes), period, i);
    }
  }
}
