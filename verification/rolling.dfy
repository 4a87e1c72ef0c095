/** Trailing-window means over a series, as `Series.rolling(window=p).mean()`
    computes them with the default minimum number of observations (the window
    size itself): the mean at position `i` covers positions `i-p+1 .. i` and is
    undefined (NaN) while fewer than `p` samples are available.
 */
module Rolling {
  import opened Options

  /** Sum of a sequence, folded from the last element. */
  function Sum(xs: seq<real>): real
    decreases |xs|
  {
    if |xs| == 0 then 0.0 else Sum(xs[..|xs| - 1]) + xs[|xs| - 1]
  }

  predicate NonNegative(xs: seq<real>)
  {
    forall k :: 0 <= k < |xs| ==> xs[k] >= 0.0
  }

  lemma {:induction false} SumNonNegative(xs: seq<real>)
    ensures NonNegative(xs) ==> Sum(xs) >= 0.0
    decreases |xs|
  {
    if |xs| > 0 {
      SumNonNegative(xs[..|xs| - 1]);
    }
  }

  lemma {:induction false} SumOfZeros(xs: seq<real>)
    requires forall k :: 0 <= k < |xs| ==> xs[k] == 0.0
    ensures Sum(xs) == 0.0
    decreases |xs|
  {
    if |xs| > 0 {
      SumOfZeros(xs[..|xs| - 1]);
    }
  }

  /** A non-negative sequence with one positive element has a positive sum. */
  lemma {:induction false} SumPositive(xs: seq<real>, j: nat)
    requires NonNegative(xs)
    requires j < |xs| && xs[j] > 0.0
    ensures Sum(xs) > 0.0
    decreases |xs|
  {
    var init := xs[..|xs| - 1];
    if j == |xs| - 1 {
      SumNonNegative(init);
    } else {
      SumPositive(init, j);
    }
  }

  /** The sum can equally be folded from the first element. */
  lemma {:induction false} SumDropFirst(xs: seq<real>)
    requires |xs| > 0
    ensures Sum(xs) == xs[0] + Sum(xs[1..])
    decreases |xs|
  {
    if |xs| > 1 {
      var init := xs[..|xs| - 1];
      SumDropFirst(init);
      assert init[1..] == xs[1..][..|xs| - 2];
    }
  }

  /** The `period` samples ending at position `i`, inclusive. */
  function Window(xs: seq<real>, period: nat, i: nat): (w: seq<real>)
    requires period <= i + 1 <= |xs|
    ensures |w| == period
    ensures forall k :: 0 <= k < period ==> w[k] == xs[i + 1 - period + k]
  {
    xs[i + 1 - period .. i + 1]
  }

  /** A window of zeros sums to zero. */
  lemma WindowOfZeros(xs: seq<real>, period: nat, i: nat)
    requires period <= i + 1 <= |xs|
    requires forall k :: 0 <= k < |xs| ==> xs[k] == 0.0
    ensures Sum(Window(xs, period, i)) == 0.0
  {
    var w := Window(xs, period, i);
    assert forall k :: 0 <= k < |w| ==> w[k] == 0.0;
    SumOfZeros(w);
  }

  /** A non-negative window whose last sample is positive has a positive sum. */
  lemma WindowEndingPositive(xs: seq<real>, period: nat, i: nat)
    requires 1 <= period <= i + 1 <= |xs|
    requires NonNegative(xs) && xs[i] > 0.0
    ensures Sum(Window(xs, period, i)) > 0.0
  {
    var w := Window(xs, period, i);
    assert w[period - 1] == xs[i];
    SumPositive(w, period - 1);
  }

  /** A one-sample window sums to that sample. */
  lemma SingleWindow(xs: seq<real>, i: nat)
    requires i < |xs|
    ensures Sum(Window(xs, 1, i)) == xs[i]
  {
    var w := Window(xs, 1, i);
    assert w[..0] == [];
  }

  /** Mean of the window ending at `i`: present once the window is full. */
  function WindowMean(xs: seq<real>, period: nat, i: nat): (r: Option<real>)
    requires i < |xs|
    ensures r.Some? <==> 1 <= period <= i + 1
    ensures r.Some? ==> r.value * (period as real) == Sum(Window(xs, period, i))
    ensures NonNegative(xs) && r.Some? ==> r.value >= 0.0
  {
    if 1 <= period <= i + 1 then
      var w := Window(xs, period, i);
      SumNonNegative(w);
      Some(Sum(w) / period as real)
    else
      None
  }

  /** The rolling mean of the whole series, aligned with it by position. */
  function RollingMean(xs: seq<real>, period: nat): (m: seq<Option<real>>)
    ensures |m| == |xs|
    ensures forall i :: 0 <= i < |xs| ==> m[i] == WindowMean(xs, period, i)
  {
    seq(|xs|, i requires 0 <= i < |xs| => WindowMean(xs, period, i))
  }

  /** First position of the window of at most `period` samples ending just
      before `i`. */
  function WindowStart(i: nat, period: nat): (lo: nat)
    ensures lo <= i
  {
    if i >= period then i - period else 0
  }

  /** Moving the window one step: add the entering sample and drop the one
      that leaves once the window is full. */
  lemma SlideWindow(xs: seq<real>, period: nat, i: nat)
    requires i < |xs|
    ensures Sum(xs[WindowStart(i + 1, period) .. i + 1])
         == Sum(xs[WindowStart(i, period) .. i]) + xs[i] - (if i >= period then xs[i - period] else 0.0)
  {
    if i >= period {
      var s := xs[i - period .. i + 1];
      SumDropFirst(s);
      assert s[..period] == xs[i - period .. i];
      assert s[1..] == xs[i + 1 - period .. i + 1];
    } else {
      assert xs[0 .. i + 1][..i] == xs[0 .. i];
    }
  }

  /** The rolling mean computed in one pass with a running window sum: each
      step adds the sample entering the window and drops the one leaving it. */
  method RollingMeanScan(xs: seq<real>, period: nat) returns (m: seq<Option<real>>)
    ensures |m| == |xs|
    ensures forall i :: 0 <= i < |xs| ==> m[i] == WindowMean(xs, period, i)
  {
    m := [];
    var acc := 0.0;
    var i := 0;
    while i < |xs|
      invariant 0 <= i <= |xs|
      invariant |m| == i
      invariant forall k :: 0 <= k < i ==> m[k] == WindowMean(xs, period, k)
      invariant acc == Sum(xs[WindowStart(i, period) .. i])
    {
      SlideWindow(xs, period, i);
      acc := acc + xs[i];
      if i >= period {
        acc := acc - xs[i - period];
      }
      var mean: Option<real>;
      if 1 <= period && period <= i + 1 {
        assert Window(xs, period, i) == xs[WindowStart(i + 1, period) .. i + 1];
        mean := Some(acc / period as real);
      } else {
        mean := None;
      }
      assert mean == WindowMean(xs, period, i);
      m := m + [mean];
      i := i + 1;
    }
  }
}
