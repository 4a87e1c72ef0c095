/** RSI divergence markers, as `compute_divergence(df, lookback)` produces
    them: every position `i` from `lookback` on is compared with position
    `i - lookback`. A lower low with a higher RSI is a bullish divergence, drawn
    just below the low; a higher high with a lower RSI is a bearish divergence,
    drawn just above the high. Every other position holds NaN (`None`).
 */
module Divergence {
  import opened Options
  import opened Rolling
  import opened RelativeStrength

  /** One OHLCV bar; the series is ordered by time. `time` is the frame's
      index label. Markers are written by position, which is where the
      source's label-based write lands when labels are distinct. */
  datatype Candle = Candle(time: int, open: real, high: real, low: real, close: real, volume: real)

  /** The `Bullish` and `Bearish` columns of the result, aligned with the input. */
  datatype Markers = Markers(bullish: seq<Option<real>>, bearish: seq<Option<real>>)

  /** A negative lookback ends the scan in an out-of-bounds `iloc` access. */
  datatype DivergenceError = IndexOutOfBounds

  const DefaultLookback: int := 20

  /** Bullish markers sit 0.5% below the low. */
  const BullishOffset: real := 0.995

  /** Bearish markers sit 0.5% above the high. */
  const BearishOffset: real := 1.005

  /** `a > b` on possibly-NaN values: false whenever either side is NaN. */
  predicate Above(a: Option<real>, b: Option<real>)
  {
    a.Some? && b.Some? && a.value > b.value
  }

  /** `a < b` on possibly-NaN values: false whenever either side is NaN. */
  predicate Below(a: Option<real>, b: Option<real>)
  {
    a.Some? && b.Some? && a.value < b.value
  }

  function Closes(candles: seq<Candle>): (c: seq<real>)
    ensures |c| == |candles|
    ensures forall i :: 0 <= i < |candles| ==> c[i] == candles[i].close
  {
    seq(|candles|, i requires 0 <= i < |candles| => candles[i].close)
  }

  /** The `RSI` column: RSI of the closes with the default period. */
  function Oscillator(candles: seq<Candle>): (osc: seq<Option<real>>)
    ensures |osc| == |candles|
    ensures forall i :: 0 <= i < |candles| && osc[i].Some? ==> 0.0 <= osc[i].value <= 100.0
  {
    Rsi(Closes(candles), DefaultPeriod).value
  }

  /** The bullish test at one scanned position. */
  function BullishAt(candles: seq<Candle>, osc: seq<Option<real>>, lookback: nat, i: nat): Option<real>
    requires lookback <= i < |candles| == |osc|
  {
    if candles[i].low < candles[i - lookback].low && Above(osc[i], osc[i - lookback]) then
      Some(candles[i].low * BullishOffset)
    else
      None
  }

  /** The bearish test at one scanned position. */
  function BearishAt(candles: seq<Candle>, osc: seq<Option<real>>, lookback: nat, i: nat): Option<real>
    requires lookback <= i < |candles| == |osc|
  {
    if candles[i].high > candles[i - lookback].high && Below(osc[i], osc[i - lookback]) then
      Some(candles[i].high * BearishOffset)
    else
      None
  }

  /** The markers of a candle series against a given oscillator series. */
  function Scan(candles: seq<Candle>, osc: seq<Option<real>>, lookback: nat): (m: Markers)
    requires |osc| == |candles|
    ensures |m.bullish| == |candles| && |m.bearish| == |candles|
    ensures forall i :: 0 <= i < |candles| && i < lookback ==> m.bullish[i] == None && m.bearish[i] == None
    ensures forall i :: lookback <= i < |candles| ==>
      (m.bullish[i].Some? <==>
         && candles[i].low < candles[i - lookback].low
         && osc[i].Some? && osc[i - lookback].Some?
         && osc[i].value > osc[i - lookback].value)
    ensures forall i :: 0 <= i < |candles| && m.bullish[i].Some? ==> m.bullish[i].value == candles[i].low * 0.995
    ensures forall i :: lookback <= i < |candles| ==>
      (m.bearish[i].Some? <==>
         && candles[i].high > candles[i - lookback].high
         && osc[i].Some? && osc[i - lookback].Some?
         && osc[i].value < osc[i - lookback].value)
    ensures forall i :: 0 <= i < |candles| && m.bearish[i].Some? ==> m.bearish[i].value == candles[i].high * 1.005
    ensures forall i :: 0 <= i < |candles| ==> m.bullish[i] == None || m.bearish[i] == None
  {
    Markers(
      seq(|candles|, i requires 0 <= i < |candles| =>
        if i < lookback then None else BullishAt(candles, osc, lookback, i)),
      seq(|candles|, i requires 0 <= i < |candles| =>
        if i < lookback then None else BearishAt(candles, osc, lookback, i)))
  }

  /** Scan, position by position. */
  lemma ScanPointwise(candles: seq<Candle>, osc: seq<Option<real>>, lookback: nat)
    requires |osc| == |candles|
    ensures forall i :: 0 <= i < |candles| ==>
      Scan(candles, osc, lookback).bullish[i] == if i < lookback then None else BullishAt(candles, osc, lookback, i)
    ensures forall i :: 0 <= i < |candles| ==>
      Scan(candles, osc, lookback).bearish[i] == if i < lookback then None else BearishAt(candles, osc, lookback, i)
  {
  }

  /** `compute_divergence(df, lookback)`. */
  function ComputeDivergence(candles: seq<Candle>, lookback: int): (r: Result<Markers, DivergenceError>)
    ensures r.Err? <==> lookback < 0
    ensures r.Ok? ==> |r.value.bullish| == |candles| && |r.value.bearish| == |candles|
    ensures r.Ok? && |candles| <= lookback ==>
      forall i :: 0 <= i < |candles| ==> r.value.bullish[i] == None && r.value.bearish[i] == None
  {
    if lookback < 0 then
      Err(IndexOutOfBounds)
    else
      Ok(Scan(candles, Oscillator(candles), lookback))
  }

  /** The scan loop as the source runs it: both columns start as NaN and the
      loop over `lookback .. n-1` writes a marker wherever its test passes. */
  method ScanMarkers(candles: seq<Candle>, osc: seq<Option<real>>, lookback: nat) returns (m: Markers)
    requires |osc| == |candles|
    ensures m == Scan(candles, osc, lookback)
  {
    var n := |candles|;
    var bullish: seq<Option<real>> := seq(n, _ => None);
    var bearish: seq<Option<real>> := seq(n, _ => None);
    var i := lookback;
    while i < n
      invariant lookback <= i
      invariant i <= n || i == lookback
      invariant |bullish| == n && |bearish| == n
      invariant forall k :: 0 <= k < n ==> bullish[k] == if lookback <= k < i then BullishAt(candles, osc, lookback, k) else None
      invariant forall k :: 0 <= k < n ==> bearish[k] == if lookback <= k < i then BearishAt(candles, osc, lookback, k) else None
    {
      var curLow := candles[i].low;
      var prevLow := candles[i - lookback].low;
      if curLow < prevLow && Above(osc[i], osc[i - lookback]) {
        bullish := bullish[i := Some(curLow * BullishOffset)];
      }
      var curHigh := candles[i].high;
      var prevHigh := candles[i - lookback].high;
      if curHigh > prevHigh && Below(osc[i], osc[i - lookback]) {
        bearish := bearish[i := Some(curHigh * BearishOffset)];
      }
      i := i + 1;
    }
    ScanPointwise(candles, osc, lookback);
    assert bullish == Scan(candles, osc, lookback).bullish;
    assert bearish == Scan(candles, osc, lookback).bearish;
    m := Markers(bullish, bearish);
  }

  /** `compute_divergence` as the source runs it: the RSI column by running
      sums, then the scan loop. */
  method ScanDivergence(candles: seq<Candle>, lookback: int) returns (r: Result<Markers, DivergenceError>)
    ensures r == ComputeDivergence(candles, lookback)
  {
    if lookback < 0 {
      return Err(IndexOutOfBounds);
    }
    var rsi := ComputeRsi(Closes(candles), DefaultPeriod);
    var markers := ScanMarkers(candles, rsi.value, lookback);
    return Ok(markers);
  }

  /** With strictly rising closes RSI is 100 wherever it is defined, so it
      never strictly rises or falls between two positions and no marker of
      either kind appears. */
  lemma NoMarkersOnRisingCloses(candles: seq<Candle>, lookback: nat)
    requires StrictlyIncreasing(Closes(candles))
    ensures var m := ComputeDivergence(candles, lookback).value;
      forall i :: 0 <= i < |candles| ==> m.bullish[i] == None && m.bearish[i] == None
  {
    var osc := Oscillator(candles);
    forall k | 0 <= k < |candles|
      ensures osc[k] == None || osc[k] == Some(100.0)
    {
      RsiOfRisingCloses(Closes(candles), DefaultPeriod, k);
    }
  }

  /** The scan itself looks back only: on a prefix of candles and oscillator
      it yields the prefix of the markers. */
  lemma ScanIsCausal(candles: seq<Candle>, osc: seq<Option<real>>, lookback: nat, m: nat)
    requires |osc| == |candles| && m <= |candles|
    ensures Scan(candles[..m], osc[..m], lookback).bullish == Scan(candles, osc, lookback).bullish[..m]
    ensures Scan(candles[..m], osc[..m], lookback).bearish == Scan(candles, osc, lookback).bearish[..m]
  {
    var short := Scan(candles[..m], osc[..m], lookback);
    var long := Scan(candles, osc, lookback);
    ScanPointwise(candles[..m], osc[..m], lookback);
    ScanPointwise(candles, osc, lookback);
    forall i | 0 <= i < m
      ensures short.bullish[i] == long.bullish[i] && short.bearish[i] == long.bearish[i]
    {
      if i >= lookback {
        assert BullishAt(candles[..m], osc[..m], lookback, i) == BullishAt(candles, osc, lookback, i);
        assert BearishAt(candles[..m], osc[..m], lookback, i) == BearishAt(candles, osc, lookback, i);
      }
    }
    assert short.bullish == long.bullish[..m];
    assert short.bearish == long.bearish[..m];
  }

  /** The RSI column of a prefix is the prefix of the RSI column. */
  lemma OscillatorIsCausal(candles: seq<Candle>, m: nat)
    requires m <= |candles|
    ensures Oscillator(candles[..m]) == Oscillator(candles)[..m]
  {
    assert Closes(candles[..m]) == Closes(candles)[..m];
    forall i | 0 <= i < m
      ensures Oscillator(candles[..m])[i] == Oscillator(candles)[i]
    {
      RsiIsCausal(Closes(candles), DefaultPeriod, m, i);
    }
  }

  /** No look-ahead: the markers computed on the first `m` candles are the
      first `m` markers of the whole series. */
  lemma DivergenceIsCausal(candles: seq<Candle>, lookback: nat, m: nat)
    requires m <= |candles|
    ensures ComputeDivergence(candles[..m], lookback).value.bullish == ComputeDivergence(candles, lookback).value.bullish[..m]
    ensures ComputeDivergence(candles[..m], lookback).value.bearish == ComputeDivergence(candles, lookback).value.bearish[..m]
  {
    OscillatorIsCausal(candles, m);
    ScanIsCausal(candles, Oscillator(candles), lookback, m);
  }

  /** The scan reads only the high and low of each candle. */
  lemma ScanReadsHighLow(a: seq<Candle>, b: seq<Candle>, osc: seq<Option<real>>, lookback: nat)
    requires |a| == |b| == |osc|
    requires forall i :: 0 <= i < |a| ==> a[i].high == b[i].high && a[i].low == b[i].low
    ensures Scan(a, osc, lookback) == Scan(b, osc, lookback)
  {
    ScanPointwise(a, osc, lookback);
    ScanPointwise(b, osc, lookback);
    forall i | lookback <= i < |a|
      ensures BullishAt(a, osc, lookback, i) == BullishAt(b, osc, lookback, i)
      ensures BearishAt(a, osc, lookback, i) == BearishAt(b, osc, lookback, i)
    {
    }
    assert Scan(a, osc, lookback).bullish == Scan(b, osc, lookback).bullish;
    assert Scan(a, osc, lookback).bearish == Scan(b, osc, lookback).bearish;
  }

  /** Only the high, low and close columns matter: time, open and volume
      have no influence on the markers. */
  lemma DivergenceReadsHighLowClose(a: seq<Candle>, b: seq<Candle>, lookback: int)
    requires |a| == |b|
    requires forall i :: 0 <= i < |a| ==> a[i].high == b[i].high && a[i].low == b[i].low && a[i].close == b[i].close
    ensures ComputeDivergence(a, lookback) == ComputeDivergence(b, lookback)
  {
    assert Closes(a) == Closes(b);
    if lookback >= 0 {
      ScanReadsHighLow(a, b, Oscillator(a), lookback);
    }
  }

  /** A worked case with the default lookback: lows falling from 100 to 80
      over 21 bars while the oscillator rises flags a bullish divergence at
      position 20, drawn at 80 * 0.995 = 79.6. */
  lemma BullishExample()
    ensures var candles := seq(21, i requires 0 <= i < 21 => Candle(i, 100.0, 110.0, 100.0 - i as real, 100.0, 0.0));
      var osc := seq(21, i requires 0 <= i < 21 => Some(i as real));
      Scan(candles, osc, DefaultLookback).bullish[20] == Some(79.6)
      && Scan(candles, osc, DefaultLookback).bearish[20] == None
  {
    var candles := seq(21, i requires 0 <= i < 21 => Candle(i, 100.0, 110.0, 100.0 - i as real, 100.0, 0.0));
    var osc := seq(21, i requires 0 <= i < 21 => Some(i as real));
    ScanPointwise(candles, osc, DefaultLookback);
  }
}
