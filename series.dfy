/**
 * Rolling statistics over a daily price series: the simple moving average
 * (pandas `rolling(window=w).mean()`), the day-over-day gain and loss series,
 * the simple-average RSI, and the window maximum and minimum.
 *
 * A price series is a `seq<real>` indexed by row; a statistic aligned with it
 * is a `seq<Option<real>>` whose `None` entries stand for pandas' NaN.
 */
module Series {
  import opened Wrappers

  /** Every price is strictly positive (the classifiers divide by prices and by their averages). */
  predicate AllPositive(p: seq<real>) {
    forall i :: 0 <= i < |p| ==> p[i] > 0.0
  }

  /** The latest row, `iloc[-1]`. */
  function Last(p: seq<real>): real
    requires |p| > 0
  {
    p[|p| - 1]
  }

  /** `x / d` for a positive divisor: the number that scales `d` back to `x`. */
  function Ratio(x: real, d: real): (q: real)
    requires d > 0.0
    ensures q * d == x
  {
    x / d
  }

  function Sum(s: seq<real>): real {
    if s == [] then 0.0 else s[0] + Sum(s[1..])
  }

  function Mean(s: seq<real>): real
    requires |s| > 0
  {
    Sum(s) / (|s| as real)
  }

  lemma {:induction false} SumAtLeast(s: seq<real>, lo: real)
    requires forall k :: 0 <= k < |s| ==> lo <= s[k]
    ensures (|s| as real) * lo <= Sum(s)
  {
    if s != [] {
      SumAtLeast(s[1..], lo);
    }
  }

  lemma {:induction false} SumAtMost(s: seq<real>, hi: real)
    requires forall k :: 0 <= k < |s| ==> s[k] <= hi
    ensures Sum(s) <= (|s| as real) * hi
  {
    if s != [] {
      SumAtMost(s[1..], hi);
    }
  }

  /** The mean of a non-empty sequence lies between any lower and upper bound of its elements. */
  lemma MeanBetween(s: seq<real>, lo: real, hi: real)
    requires |s| > 0
    requires forall k :: 0 <= k < |s| ==> lo <= s[k] <= hi
    ensures lo <= Mean(s) <= hi
  {
    SumAtLeast(s, lo);
    SumAtMost(s, hi);
    var n := |s| as real;
    assert n * lo <= Sum(s) <= n * hi;
    assert lo == (n * lo) / n && hi == (n * hi) / n;
  }

  /** The largest element (pandas `Series.max()` on a window without NaN). */
  function SeqMax(s: seq<real>): (m: real)
    requires |s| > 0
    ensures m in s
    ensures forall k :: 0 <= k < |s| ==> s[k] <= m
  {
    if |s| == 1 then s[0]
    else
      var rest := SeqMax(s[1..]);
      if s[0] >= rest then s[0] else rest
  }

  /** The smallest element (pandas `Series.min()` on a window without NaN). */
  function SeqMin(s: seq<real>): (m: real)
    requires |s| > 0
    ensures m in s
    ensures forall k :: 0 <= k < |s| ==> m <= s[k]
  {
    if |s| == 1 then s[0]
    else
      var rest := SeqMin(s[1..]);
      if s[0] <= rest then s[0] else rest
  }

  /** The `w` rows ending at row `i` inclusive. */
  function Window(p: seq<real>, w: nat, i: nat): (r: seq<real>)
    requires i < |p| && w <= i + 1
    ensures |r| == w
    ensures forall k :: 0 <= k < w ==> r[k] == p[i + 1 - w + k]
  {
    p[i + 1 - w .. i + 1]
  }

  /**
   * Row `i` of `rolling(window=w).mean()`: NaN until the window has filled,
   * then the arithmetic mean of the last `w` prices.
   */
  function MovingAverageAt(p: seq<real>, w: nat, i: nat): (r: Option<real>)
    requires w >= 1 && i < |p|
    ensures r.Some? <==> i + 1 >= w
  {
    if i + 1 < w then None else Some(Mean(Window(p, w, i)))
  }

  /** The whole moving-average column, aligned row for row with the prices. */
  function MovingAverage(p: seq<real>, w: nat): (r: seq<Option<real>>)
    requires w >= 1
    ensures |r| == |p|
    ensures forall i :: 0 <= i < |p| ==> (r[i].Some? <==> i + 1 >= w)
    ensures forall i :: 0 <= i < |p| ==> r[i] == MovingAverageAt(p, w, i)
  {
    seq(|p|, i requires 0 <= i < |p| => MovingAverageAt(p, w, i))
  }

  /** A filled moving average lies between the smallest and the largest price of its window. */
  lemma MovingAverageWithinWindow(p: seq<real>, w: nat, i: nat)
    requires w >= 1 && i < |p| && i + 1 >= w
    ensures SeqMin(Window(p, w, i)) <= MovingAverageAt(p, w, i).value <= SeqMax(Window(p, w, i))
  {
    var win := Window(p, w, i);
    MeanBetween(win, SeqMin(win), SeqMax(win));
  }

  /** Over strictly positive prices every filled moving average is strictly positive. */
  lemma MovingAveragePositive(p: seq<real>, w: nat, i: nat)
    requires AllPositive(p)
    requires w >= 1 && i < |p| && i + 1 >= w
    ensures MovingAverageAt(p, w, i).value > 0.0
  {
    MovingAverageWithinWindow(p, w, i);
    var win := Window(p, w, i);
    var k :| 0 <= k < |win| && win[k] == SeqMin(win);
    assert win[k] == p[i + 1 - w + k];
  }

  /** On a window where the price never moves, the moving average is that price. */
  lemma MovingAverageOfFlatWindow(p: seq<real>, w: nat, i: nat, c: real)
    requires w >= 1 && i < |p| && i + 1 >= w
    requires forall j :: i + 1 - w <= j <= i ==> p[j] == c
    ensures MovingAverageAt(p, w, i) == Some(c)
  {
    var win := Window(p, w, i);
    MeanBetween(win, c, c);
  }

  /** Every defined entry multiplied by `k` (`ma * 2`, `ma * 5`); NaN stays NaN. */
  function Scaled(s: seq<Option<real>>, k: real): (r: seq<Option<real>>)
    ensures |r| == |s|
    ensures forall i :: 0 <= i < |s| ==> (r[i].Some? <==> s[i].Some?)
    ensures forall i :: 0 <= i < |s| && s[i].Some? ==> r[i].value == s[i].value * k
    ensures forall i :: 0 <= i < |s| ==> r[i] == ScaleEntry(s[i], k)
  {
    seq(|s|, i requires 0 <= i < |s| => ScaleEntry(s[i], k))
  }

  function ScaleEntry(x: Option<real>, k: real): Option<real> {
    if x.Some? then Some(x.value * k) else None
  }

  // ---------------------------------------------------------------------
  // Comparisons against NaN: every comparison involving NaN is false.
  // ---------------------------------------------------------------------

  predicate Below(x: Option<real>, t: real) {
    x.Some? && x.value < t
  }

  predicate Above(x: Option<real>, t: real) {
    x.Some? && x.value > t
  }

  predicate LessThan(x: Option<real>, y: Option<real>) {
    x.Some? && y.Some? && x.value < y.value
  }

  // ---------------------------------------------------------------------
  // Momentum: day-over-day differences split into gains and losses.
  // ---------------------------------------------------------------------

  /** `price.diff()`: NaN on the first row, then today's price minus yesterday's. */
  function Delta(p: seq<real>, j: nat): (d: Option<real>)
    requires j < |p|
  {
    if j == 0 then None else Some(p[j] - p[j - 1])
  }

  /** `delta.where(delta > 0, 0)`: the rise, or 0 (a NaN difference fails the test and becomes 0). */
  function Gain(p: seq<real>, j: nat): (g: real)
    requires j < |p|
    ensures g >= 0.0
    ensures g > 0.0 <==> j > 0 && p[j] > p[j - 1]
  {
    var d := Delta(p, j);
    if d.Some? && d.value > 0.0 then d.value else 0.0
  }

  /** `-delta.where(delta < 0, 0)`: the fall as a positive number, or 0. */
  function Loss(p: seq<real>, j: nat): (l: real)
    requires j < |p|
    ensures l >= 0.0
    ensures l > 0.0 <==> j > 0 && p[j] < p[j - 1]
  {
    var d := Delta(p, j);
    if d.Some? && d.value < 0.0 then -d.value else 0.0
  }

  function Gains(p: seq<real>): (r: seq<real>)
    ensures |r| == |p|
    ensures forall j :: 0 <= j < |p| ==> r[j] == Gain(p, j)
  {
    seq(|p|, j requires 0 <= j < |p| => Gain(p, j))
  }

  function Losses(p: seq<real>): (r: seq<real>)
    ensures |r| == |p|
    ensures forall j :: 0 <= j < |p| ==> r[j] == Loss(p, j)
  {
    seq(|p|, j requires 0 <= j < |p| => Loss(p, j))
  }

  /** The `period`-row simple average of the gains ending at row `i`. */
  function MeanGain(p: seq<real>, period: nat, i: nat): (g: real)
    requires period >= 1 && i < |p| && i + 1 >= period
    ensures g >= 0.0
  {
    var win := Window(Gains(p), period, i);
    MeanBetween(win, 0.0, SeqMax(win));
    Mean(win)
  }

  /** The `period`-row simple average of the losses ending at row `i`. */
  function MeanLoss(p: seq<real>, period: nat, i: nat): (l: real)
    requires period >= 1 && i < |p| && i + 1 >= period
    ensures l >= 0.0
  {
    var win := Window(Losses(p), period, i);
    MeanBetween(win, 0.0, SeqMax(win));
    Mean(win)
  }

  /**
   * Row `i` of the simple-average RSI, `100 - 100 / (1 + gain / loss)`.
   * A zero average loss makes the ratio infinite and the RSI 100, unless the
   * average gain is zero too, when `0 / 0` is NaN.
   */
  function RsiAt(p: seq<real>, period: nat, i: nat): (r: Option<real>)
    requires period >= 1 && i < |p|
    ensures r.Some? <==> i + 1 >= period && (MeanGain(p, period, i) > 0.0 || MeanLoss(p, period, i) > 0.0)
    ensures r.Some? ==>
              && 0.0 <= r.value <= 100.0
              && r.value * (MeanGain(p, period, i) + MeanLoss(p, period, i)) == 100.0 * MeanGain(p, period, i)
  {
    if i + 1 < period then None
    else
      var g, l := MeanGain(p, period, i), MeanLoss(p, period, i);
      if l == 0.0 then
        if g == 0.0 then None else Some(100.0)
      else
        RsiFormula(g, l);
        Some(100.0 - 100.0 / (1.0 + g / l))
  }

  /** The RSI formula is the share of the average gain in the average total movement. */
  lemma RsiFormula(g: real, l: real)
    requires g >= 0.0 && l > 0.0
    ensures (100.0 - 100.0 / (1.0 + g / l)) * (g + l) == 100.0 * g
    ensures 0.0 <= 100.0 - 100.0 / (1.0 + g / l) <= 100.0
  {
    var q := 1.0 + g / l;
    assert q * l == g + l;
    assert q >= 1.0;
    assert 100.0 / q * q == 100.0;
    calc {
      (100.0 - 100.0 / q) * (g + l);
      (100.0 - 100.0 / q) * (q * l);
      100.0 * q * l - (100.0 / q * q) * l;
      100.0 * q * l - 100.0 * l;
      100.0 * (g + l) - 100.0 * l;
    }
    assert 0.0 < 100.0 / q <= 100.0;
  }

  /** The whole RSI column. */
  function Rsi(p: seq<real>, period: nat): (r: seq<Option<real>>)
    requires period >= 1
    ensures |r| == |p|
    ensures forall i :: 0 <= i < |p| ==> r[i] == RsiAt(p, period, i)
  {
    seq(|p|, i requires 0 <= i < |p| => RsiAt(p, period, i))
  }

  /** Over a window with no price change, both averages are zero and the RSI is NaN. */
  lemma RsiOfFlatWindow(p: seq<real>, period: nat, i: nat)
    requires period >= 1 && i < |p|
    requires forall j :: 0 < j <= i && i + 1 - period <= j ==> p[j] == p[j - 1]
    ensures RsiAt(p, period, i) == None
  {
    if i + 1 >= period {
      var gw, lw := Window(Gains(p), period, i), Window(Losses(p), period, i);
      forall k | 0 <= k < period ensures gw[k] == 0.0 && lw[k] == 0.0 {
        assert gw[k] == Gain(p, i + 1 - period + k);
        assert lw[k] == Loss(p, i + 1 - period + k);
      }
      MeanBetween(gw, 0.0, 0.0);
      MeanBetween(lw, 0.0, 0.0);
    }
  }
}
