/**
 * Historical event detection and backtest evaluation (`Backtester`).
 *
 * The scans walk the rows in ascending order and append an event whenever a
 * statistic crosses a threshold (or, for the extremum scan, whenever a price
 * equals its window's maximum or minimum). Each event carries its forward
 * returns at +30, +60 and +90 rows, and the events of one kind are summarised
 * by an accuracy percentage and average returns.
 */
module Backtesting {
  import opened Wrappers
  import opened Series

  // =====================================================================
  // Local extrema: sliding-window peaks and troughs.
  // =====================================================================

  datatype Extremum = Extremum(index: nat, price: real)

  datatype ExtremumKind = Peak | Trough

  /** Row `i` can be examined with radius `w`: `range(window, len(prices) - window)`. */
  predicate InScanRange(p: seq<real>, w: nat, i: nat) {
    w <= i && i + w < |p|
  }

  /** The `2w + 1` prices centred on row `i`, `prices.iloc[i-window:i+window+1]`. */
  function Neighbourhood(p: seq<real>, w: nat, i: nat): (r: seq<real>)
    requires InScanRange(p, w, i)
    ensures |r| == 2 * w + 1
  {
    p[i - w .. i + w + 1]
  }

  /** The price at row `i` equals the maximum (peak) or minimum (trough) of its neighbourhood. */
  predicate IsExtremum(p: seq<real>, w: nat, i: nat, kind: ExtremumKind) {
    InScanRange(p, w, i) &&
    match kind
    case Peak => p[i] == SeqMax(Neighbourhood(p, w, i))
    case Trough => p[i] == SeqMin(Neighbourhood(p, w, i))
  }

  /** Equality with the window maximum means no price in the window is higher (ties allowed). */
  lemma PeakIsWindowMaximum(p: seq<real>, w: nat, i: nat)
    requires InScanRange(p, w, i)
    ensures IsExtremum(p, w, i, Peak) <==> forall j :: i - w <= j <= i + w ==> p[j] <= p[i]
  {
    var nb := Neighbourhood(p, w, i);
    var m := SeqMax(nb);
    assert nb[w] == p[i];
    forall j | i - w <= j <= i + w ensures p[j] <= m {
      assert nb[j - (i - w)] == p[j];
    }
    var k :| 0 <= k < |nb| && nb[k] == m;
    assert nb[k] == p[i - w + k];
  }

  /** Equality with the window minimum means no price in the window is lower (ties allowed). */
  lemma TroughIsWindowMinimum(p: seq<real>, w: nat, i: nat)
    requires InScanRange(p, w, i)
    ensures IsExtremum(p, w, i, Trough) <==> forall j :: i - w <= j <= i + w ==> p[i] <= p[j]
  {
    var nb := Neighbourhood(p, w, i);
    var m := SeqMin(nb);
    assert nb[w] == p[i];
    forall j | i - w <= j <= i + w ensures m <= p[j] {
      assert nb[j - (i - w)] == p[j];
    }
    var k :| 0 <= k < |nb| && nb[k] == m;
    assert nb[k] == p[i - w + k];
  }

  /**
   * `list` holds exactly the rows that are extrema of the given kind, one
   * entry per row (a plateau gives one entry per qualifying row), in
   * ascending row order, each with its price.
   */
  ghost predicate ExactlyTheExtrema(list: seq<Extremum>, p: seq<real>, w: nat, kind: ExtremumKind) {
    && (forall k :: 0 <= k < |list| ==>
          IsExtremum(p, w, list[k].index, kind) && list[k].price == p[list[k].index])
    && (forall i :: IsExtremum(p, w, i, kind) ==> exists k :: 0 <= k < |list| && list[k].index == i)
    && (forall k, l :: 0 <= k < l < |list| ==> list[k].index < list[l].index)
  }

  // ---------------------------------------------------------------------
  // Scan bookkeeping shared by every scan: after visiting the rows below
  // `i`, the recorded rows are exactly the marked rows below `i`, ascending.
  // ---------------------------------------------------------------------

  ghost predicate CoversUpTo(rows: seq<nat>, marked: set<nat>, i: nat) {
    && (forall k :: 0 <= k < |rows| ==> rows[k] < i && rows[k] in marked)
    && (forall j: nat :: j < i && j in marked ==> j in rows)
    && (forall k, l :: 0 <= k < l < |rows| ==> rows[k] < rows[l])
  }

  /** Visiting row `i` records it exactly when it is marked. */
  lemma CoverStep(rows: seq<nat>, marked: set<nat>, i: nat)
    requires CoversUpTo(rows, marked, i)
    ensures i in marked ==> CoversUpTo(rows + [i], marked, i + 1)
    ensures i !in marked ==> CoversUpTo(rows, marked, i + 1)
  {
    if i in marked {
      var r := rows + [i];
      forall j: nat | j < i + 1 && j in marked ensures j in r {
        if j < i {
          var k :| 0 <= k < |rows| && rows[k] == j;
          assert r[k] == j;
        } else {
          assert r[|rows|] == j;
        }
      }
    }
  }

  /** The rows of a list of extrema, in list order. */
  function Positions(list: seq<Extremum>): (r: seq<nat>)
    ensures |r| == |list| && forall k :: 0 <= k < |list| ==> r[k] == list[k].index
  {
    seq(|list|, k requires 0 <= k < |list| => list[k].index)
  }

  /** The rows that are extrema of the given kind. */
  ghost function ExtremumRows(p: seq<real>, w: nat, kind: ExtremumKind): set<nat> {
    set i: nat | i < |p| && IsExtremum(p, w, i, kind)
  }

  /** The scan has visited rows `window..i-1`: `list` holds exactly the extrema before row `i`, in order. */
  ghost predicate ExtremaUpTo(list: seq<Extremum>, p: seq<real>, w: nat, kind: ExtremumKind, i: nat) {
    && CoversUpTo(Positions(list), ExtremumRows(p, w, kind), i)
    && (forall k :: 0 <= k < |list| ==> list[k].index < |p| && list[k].price == p[list[k].index])
  }

  /** Visiting row `i` appends it exactly when it is an extremum. */
  lemma ExtremaStep(list: seq<Extremum>, p: seq<real>, w: nat, kind: ExtremumKind, i: nat)
    requires i < |p| && ExtremaUpTo(list, p, w, kind, i)
    ensures IsExtremum(p, w, i, kind) ==> ExtremaUpTo(list + [Extremum(i, p[i])], p, w, kind, i + 1)
    ensures !IsExtremum(p, w, i, kind) ==> ExtremaUpTo(list, p, w, kind, i + 1)
  {
    var marked := ExtremumRows(p, w, kind);
    CoverStep(Positions(list), marked, i);
    assert i in marked <==> IsExtremum(p, w, i, kind);
    if i in marked {
      assert Positions(list + [Extremum(i, p[i])]) == Positions(list) + [i];
    }
  }

  /** Once the scan range is exhausted the list holds exactly the extrema. */
  lemma ExtremaComplete(list: seq<Extremum>, p: seq<real>, w: nat, kind: ExtremumKind, i: nat)
    requires i + w >= |p| && ExtremaUpTo(list, p, w, kind, i)
    ensures ExactlyTheExtrema(list, p, w, kind)
  {
    var rows, marked := Positions(list), ExtremumRows(p, w, kind);
    forall k | 0 <= k < |list| ensures IsExtremum(p, w, list[k].index, kind) {
      assert rows[k] in marked;
    }
    forall j | IsExtremum(p, w, j, kind) ensures exists k :: 0 <= k < |list| && list[k].index == j {
      assert j in marked;
      var k :| 0 <= k < |rows| && rows[k] == j;
    }
    forall k, l | 0 <= k < l < |list| ensures list[k].index < list[l].index {
      assert rows[k] < rows[l];
    }
  }

  /** `find_price_peaks_and_troughs`: two passes over the rows `[window, n - window)`. */
  method FindPeaksAndTroughs(p: seq<real>, window: nat) returns (peaks: seq<Extremum>, troughs: seq<Extremum>)
    ensures ExactlyTheExtrema(peaks, p, window, Peak)
    ensures ExactlyTheExtrema(troughs, p, window, Trough)
    ensures |p| <= 2 * window ==> peaks == [] && troughs == []
  {
    peaks := [];
    var i := window;
    while i + window < |p|
      invariant window <= i
      invariant |p| <= 2 * window ==> peaks == []
      invariant ExtremaUpTo(peaks, p, window, Peak, i)
    {
      ExtremaStep(peaks, p, window, Peak, i);
      if p[i] == SeqMax(p[i - window .. i + window + 1]) {
        peaks := peaks + [Extremum(i, p[i])];
      }
      i := i + 1;
    }
    ExtremaComplete(peaks, p, window, Peak, i);

    troughs := [];
    i := window;
    while i + window < |p|
      invariant window <= i
      invariant |p| <= 2 * window ==> troughs == []
      invariant ExtremaUpTo(troughs, p, window, Trough, i)
    {
      ExtremaStep(troughs, p, window, Trough, i);
      if p[i] == SeqMin(p[i - window .. i + window + 1]) {
        troughs := troughs + [Extremum(i, p[i])];
      }
      i := i + 1;
    }
    ExtremaComplete(troughs, p, window, Trough, i);
  }

  /** A strictly rising series has no peak and no trough for any radius of at least one row. */
  lemma RisingSeriesHasNoExtrema(p: seq<real>, w: nat, i: nat)
    requires w >= 1
    requires forall a, b :: 0 <= a < b < |p| ==> p[a] < p[b]
    ensures !IsExtremum(p, w, i, Peak) && !IsExtremum(p, w, i, Trough)
  {
    if InScanRange(p, w, i) {
      PeakIsWindowMaximum(p, w, i);
      TroughIsWindowMinimum(p, w, i);
      assert p[i] < p[i + w];
      assert p[i - w] < p[i];
    }
  }

  /** A strictly falling series has no peak and no trough for any radius of at least one row. */
  lemma FallingSeriesHasNoExtrema(p: seq<real>, w: nat, i: nat)
    requires w >= 1
    requires forall a, b :: 0 <= a < b < |p| ==> p[a] > p[b]
    ensures !IsExtremum(p, w, i, Peak) && !IsExtremum(p, w, i, Trough)
  {
    if InScanRange(p, w, i) {
      PeakIsWindowMaximum(p, w, i);
      TroughIsWindowMinimum(p, w, i);
      assert p[i] > p[i + w];
      assert p[i - w] > p[i];
    }
  }

  /** With radius 0 every row is its own window, so every row is both a peak and a trough. */
  lemma ZeroRadiusMarksEveryRow(p: seq<real>, i: nat)
    requires i < |p|
    ensures IsExtremum(p, 0, i, Peak) && IsExtremum(p, 0, i, Trough)
  {
    PeakIsWindowMaximum(p, 0, i);
    TroughIsWindowMinimum(p, 0, i);
  }

  // =====================================================================
  // Forward returns.
  // =====================================================================

  /** The forward horizons, in rows, in the order the program visits them. */
  const Horizons: seq<nat> := [30, 60, 90]

  /** Horizon (rows) to percentage return; a horizon past the end of the series is absent. */
  type Returns = map<nat, real>

  /** `(future_price - signal_price) / signal_price * 100`. */
  function ReturnPct(future: real, signal: real): (r: real)
    requires signal != 0.0
    ensures r * signal == (future - signal) * 100.0
    ensures signal > 0.0 ==> (r < 0.0 <==> future < signal) && (r > 0.0 <==> future > signal)
  {
    (future - signal) / signal * 100.0
  }

  /** The returns a signal at row `idx` earns: a horizon is present exactly when it lies within the series. */
  function ForwardReturns(p: seq<real>, idx: nat, signalPrice: real): (r: Returns)
    requires signalPrice != 0.0
    ensures forall h :: h in r <==> h in Horizons && idx + h < |p|
    ensures forall h :: h in r ==> r[h] == ReturnPct(p[idx + h], signalPrice)
  {
    map h | h in Horizons && idx + h < |p| :: ReturnPct(p[idx + h], signalPrice)
  }

  /** `_calculate_future_returns`: fills the returns dictionary one horizon at a time. */
  method CalculateFutureReturns(p: seq<real>, idx: nat, signalPrice: real) returns (r: Returns)
    requires signalPrice != 0.0
    ensures r == ForwardReturns(p, idx, signalPrice)
  {
    r := map[];
    var k := 0;
    while k < |Horizons|
      invariant 0 <= k <= |Horizons|
      invariant r == map h | h in Horizons[..k] && idx + h < |p| :: ReturnPct(p[idx + h], signalPrice)
    {
      var days := Horizons[k];
      var futureIdx := idx + days;
      if futureIdx < |p| {
        r := r[days := ReturnPct(p[futureIdx], signalPrice)];
      }
      assert Horizons[..k + 1] == Horizons[..k] + [days];
      k := k + 1;
    }
    assert Horizons[..|Horizons|] == Horizons;
  }

  /** `returns.get(key, 0)`: a missing horizon reads as 0. */
  function ReturnOrZero(r: Returns, h: nat): real {
    if h in r then r[h] else 0.0
  }

  // =====================================================================
  // Crossover events.
  // =====================================================================

  datatype EventKind = PiCycleTop | MayerTop | MayerBottom | RsiOversold | RsiOverbought

  /** A detected signal: its row, price, origin, the metric at the trigger (none for Pi Cycle) and its forward returns. */
  datatype Event = Event(index: nat, price: real, kind: EventKind, metric: Option<real>, forward: Returns)

  /** The RSI period the backtest uses. */
  const RsiPeriod: nat := 14

  /** The Mayer multiple of row `i`, `price[i] / ma200[i]`, NaN before the average fills. */
  function MayerAt(p: seq<real>, i: nat): (m: Option<real>)
    requires AllPositive(p) && i < |p|
    ensures m.Some? <==> i >= 199
    ensures m.Some? ==> m.value * MovingAverageAt(p, 200, i).value == p[i]
  {
    var ma := MovingAverageAt(p, 200, i);
    if ma.None? then None
    else
      MovingAveragePositive(p, 200, i);
      Some(p[i] / ma.value)
  }

  /** The Mayer column, `df['price'] / ma_200`. */
  function MayerColumn(p: seq<real>): (r: seq<Option<real>>)
    requires AllPositive(p)
    ensures |r| == |p| && forall i :: 0 <= i < |p| ==> r[i] == MayerAt(p, i)
  {
    seq(|p|, i requires 0 <= i < |p| => MayerAt(p, i))
  }

  /** `prev < level and cur >= level`, with the current value defined; a NaN on either side is no crossing. */
  predicate CrossesUp(prev: Option<real>, cur: Option<real>, level: real) {
    cur.Some? && Below(prev, level) && cur.value >= level
  }

  /** `prev > level and cur <= level`, with the current value defined. */
  predicate CrossesDown(prev: Option<real>, cur: Option<real>, level: real) {
    cur.Some? && Above(prev, level) && cur.value <= level
  }

  /** The Pi Cycle crossover: both lines defined now, the fast one strictly below the slow one before and at or above it now. */
  predicate PiCrosses(fastPrev: Option<real>, slowPrev: Option<real>, fast: Option<real>, slow: Option<real>) {
    fast.Some? && slow.Some? && LessThan(fastPrev, slowPrev) && fast.value >= slow.value
  }

  /** Twice the 350-day average at row `i`, the Pi Cycle's slow line. */
  function SlowLineAt(p: seq<real>, i: nat): Option<real>
    requires i < |p|
  {
    ScaleEntry(MovingAverageAt(p, 350, i), 2.0)
  }

  /** Whether a scan of the given kind emits an event at row `i`, comparing row `i - 1` with row `i`. */
  predicate Fires(p: seq<real>, kind: EventKind, i: nat)
    requires AllPositive(p)
  {
    1 <= i < |p| &&
    match kind
    case PiCycleTop =>
      PiCrosses(MovingAverageAt(p, 111, i - 1), SlowLineAt(p, i - 1), MovingAverageAt(p, 111, i), SlowLineAt(p, i))
    case MayerTop => CrossesUp(MayerAt(p, i - 1), MayerAt(p, i), 2.4)
    case MayerBottom => CrossesDown(MayerAt(p, i - 1), MayerAt(p, i), 0.8)
    case RsiOversold => CrossesDown(RsiAt(p, RsiPeriod, i - 1), RsiAt(p, RsiPeriod, i), 30.0)
    case RsiOverbought => CrossesUp(RsiAt(p, RsiPeriod, i - 1), RsiAt(p, RsiPeriod, i), 70.0)
  }

  /** The metric recorded with an event: `mayer_value`, `rsi_value`, or nothing for Pi Cycle. */
  function MetricAt(p: seq<real>, kind: EventKind, i: nat): Option<real>
    requires AllPositive(p) && i < |p|
  {
    match kind
    case PiCycleTop => None
    case MayerTop => MayerAt(p, i)
    case MayerBottom => MayerAt(p, i)
    case RsiOversold => RsiAt(p, RsiPeriod, i)
    case RsiOverbought => RsiAt(p, RsiPeriod, i)
  }

  /** The event a scan records at row `i`. */
  function EventAt(p: seq<real>, kind: EventKind, i: nat): Event
    requires AllPositive(p) && i < |p|
  {
    Event(i, p[i], kind, MetricAt(p, kind, i), ForwardReturns(p, i, p[i]))
  }

  /** `events` holds one event per firing row, exactly those rows, in ascending row order. */
  ghost predicate ExactlyTheEvents(events: seq<Event>, p: seq<real>, kind: EventKind)
    requires AllPositive(p)
  {
    && (forall k :: 0 <= k < |events| ==>
          events[k].index < |p| && Fires(p, kind, events[k].index) && events[k] == EventAt(p, kind, events[k].index))
    && (forall i :: Fires(p, kind, i) ==> exists k :: 0 <= k < |events| && events[k].index == i)
    && (forall k, l :: 0 <= k < l < |events| ==> events[k].index < events[l].index)
  }

  /** The rows at which a scan of the given kind fires. */
  ghost function FiringRows(p: seq<real>, kind: EventKind): set<nat>
    requires AllPositive(p)
  {
    set i: nat | i < |p| && Fires(p, kind, i)
  }

  /** The rows of a list of events, in list order. */
  function Rows(events: seq<Event>): (r: seq<nat>)
    ensures |r| == |events| && forall k :: 0 <= k < |events| ==> r[k] == events[k].index
  {
    seq(|events|, k requires 0 <= k < |events| => events[k].index)
  }

  /** The scan has visited rows `1..i-1`: `events` are exactly the firings before row `i`, in order. */
  ghost predicate ScannedUpTo(events: seq<Event>, p: seq<real>, kind: EventKind, i: nat)
    requires AllPositive(p)
  {
    && CoversUpTo(Rows(events), FiringRows(p, kind), i)
    && (forall k :: 0 <= k < |events| ==> events[k].index < |p| && events[k] == EventAt(p, kind, events[k].index))
  }

  /** Visiting row `i` appends its event exactly when the row fires. */
  lemma ScanStep(events: seq<Event>, p: seq<real>, kind: EventKind, i: nat)
    requires AllPositive(p) && i < |p| && ScannedUpTo(events, p, kind, i)
    ensures Fires(p, kind, i) ==> ScannedUpTo(events + [EventAt(p, kind, i)], p, kind, i + 1)
    ensures !Fires(p, kind, i) ==> ScannedUpTo(events, p, kind, i + 1)
  {
    var marked := FiringRows(p, kind);
    CoverStep(Rows(events), marked, i);
    assert i in marked <==> Fires(p, kind, i);
    if i in marked {
      assert Rows(events + [EventAt(p, kind, i)]) == Rows(events) + [i];
    }
  }

  /** Once every row has been visited the scan holds exactly the events. */
  lemma ScanComplete(events: seq<Event>, p: seq<real>, kind: EventKind, i: nat)
    requires AllPositive(p) && i >= |p| && ScannedUpTo(events, p, kind, i)
    ensures ExactlyTheEvents(events, p, kind)
  {
    var rows, marked := Rows(events), FiringRows(p, kind);
    forall k | 0 <= k < |events| ensures Fires(p, kind, events[k].index) {
      assert rows[k] in marked;
    }
    forall j | Fires(p, kind, j) ensures exists k :: 0 <= k < |events| && events[k].index == j {
      assert j in marked;
      var k :| 0 <= k < |rows| && rows[k] == j;
    }
    forall k, l | 0 <= k < l < |events| ensures events[k].index < events[l].index {
      assert rows[k] < rows[l];
    }
  }

  /** An event fires on the first row past the threshold, and the next row cannot fire again. */
  lemma CrossingsAreNeverAdjacent(p: seq<real>, kind: EventKind, i: nat)
    requires AllPositive(p) && Fires(p, kind, i)
    ensures !Fires(p, kind, i + 1)
  {
  }

  /** An undefined statistic on the previous row never lets a crossover fire. */
  lemma UndefinedPreviousNeverFires(p: seq<real>, kind: EventKind, i: nat)
    requires AllPositive(p) && 1 <= i < |p|
    requires kind == PiCycleTop ==> MovingAverageAt(p, 111, i - 1).None? || MovingAverageAt(p, 350, i - 1).None?
    requires kind == MayerTop || kind == MayerBottom ==> MayerAt(p, i - 1).None?
    requires kind == RsiOversold || kind == RsiOverbought ==> RsiAt(p, RsiPeriod, i - 1).None?
    ensures !Fires(p, kind, i)
  {
  }

  /** The Pi Cycle scan cannot fire before the 350-day average has been defined for two rows. */
  lemma PiCycleNeedsTwoFilledRows(p: seq<real>, i: nat)
    requires AllPositive(p) && Fires(p, PiCycleTop, i)
    ensures i >= 350
  {
    assert MovingAverageAt(p, 350, i - 1).Some?;
  }

  /** The top and bottom tests on the same row exclude each other, for Mayer and for RSI. */
  lemma OppositeSignalsExclusive(p: seq<real>, i: nat)
    requires AllPositive(p)
    ensures !(Fires(p, MayerTop, i) && Fires(p, MayerBottom, i))
    ensures !(Fires(p, RsiOversold, i) && Fires(p, RsiOverbought, i))
  {
  }

  /**
   * A Mayer multiple that stays defined and below 2.4 until row `t` and at or
   * above it from `t` on fires exactly once, at `t`.
   */
  lemma SingleUpCrossing(p: seq<real>, a: nat, t: nat)
    requires AllPositive(p) && a < t < |p|
    requires forall i :: a <= i < |p| ==> MayerAt(p, i).Some?
    requires forall i :: a <= i < t ==> MayerAt(p, i).value < 2.4
    requires forall i :: t <= i < |p| ==> MayerAt(p, i).value >= 2.4
    ensures forall i :: a < i < |p| ==> (Fires(p, MayerTop, i) <==> i == t)
  {
  }

  // =====================================================================
  // Accuracy and averages.
  // =====================================================================

  datatype SignalType = TopSignal | BottomSignal

  /** A top is accurate when its 90-row return is negative, a bottom when it is positive; a missing return reads as 0 and is never accurate. */
  predicate Accurate(e: Event, t: SignalType) {
    match t
    case TopSignal => ReturnOrZero(e.forward, 90) < 0.0
    case BottomSignal => ReturnOrZero(e.forward, 90) > 0.0
  }

  function CountAccurate(signals: seq<Event>, t: SignalType): (n: nat)
    ensures n <= |signals|
  {
    if signals == [] then 0
    else CountAccurate(signals[..|signals| - 1], t) + (if Accurate(signals[|signals| - 1], t) then 1 else 0)
  }

  /** The sum over all signals of the return at horizon `h`, a missing one counting as 0. */
  function SumReturns(signals: seq<Event>, h: nat): real {
    if signals == [] then 0.0
    else SumReturns(signals[..|signals| - 1], h) + ReturnOrZero(signals[|signals| - 1].forward, h)
  }

  datatype Summary = Summary(accuracy: real, avg30: real, avg60: real, avg90: real)

  /**
   * `_calculate_accuracy`: with no signals everything is 0; otherwise the
   * accurate share in percent over ALL signals, and each average divides the
   * sum (missing horizons as 0) by the number of ALL signals.
   */
  function Summarize(signals: seq<Event>, t: SignalType): (s: Summary)
    ensures signals == [] ==> s == Summary(0.0, 0.0, 0.0, 0.0)
    ensures 0.0 <= s.accuracy <= 100.0
    ensures signals != [] ==>
              var n := |signals| as real;
              && s.accuracy * n == 100.0 * (CountAccurate(signals, t) as real)
              && s.avg30 * n == SumReturns(signals, 30)
              && s.avg60 * n == SumReturns(signals, 60)
              && s.avg90 * n == SumReturns(signals, 90)
  {
    Summary(AccuracyOf(signals, t), AverageReturn(signals, 30), AverageReturn(signals, 60), AverageReturn(signals, 90))
  }

  /** The accurate share of all signals in percent; 0 with no signals. */
  function AccuracyOf(signals: seq<Event>, t: SignalType): (a: real)
    ensures signals == [] ==> a == 0.0
    ensures 0.0 <= a <= 100.0
    ensures signals != [] ==> a * (|signals| as real) == 100.0 * (CountAccurate(signals, t) as real)
  {
    if signals == [] then 0.0 else Percent(CountAccurate(signals, t) as real, |signals| as real)
  }

  /** The mean return at horizon `h` over all signals, a missing one counting as 0; 0 with no signals. */
  function AverageReturn(signals: seq<Event>, h: nat): (a: real)
    ensures signals == [] ==> a == 0.0
    ensures signals != [] ==> a * (|signals| as real) == SumReturns(signals, h)
  {
    if signals == [] then 0.0 else Ratio(SumReturns(signals, h), |signals| as real)
  }

  /** `c / n * 100`: a share of `c` out of `n` in percent, which lies in [0, 100] and scales back to `100 c`. */
  function Percent(c: real, n: real): (a: real)
    requires 0.0 <= c <= n && n > 0.0
    ensures 0.0 <= a <= 100.0
    ensures a * n == 100.0 * c
  {
    assert c / n <= 1.0;
    c / n * 100.0
  }

  lemma {:induction false} AllAccurateCount(signals: seq<Event>, t: SignalType)
    ensures CountAccurate(signals, t) == |signals| <==> forall k :: 0 <= k < |signals| ==> Accurate(signals[k], t)
  {
    if signals != [] {
      var prefix := signals[..|signals| - 1];
      AllAccurateCount(prefix, t);
      assert forall k :: 0 <= k < |prefix| ==> prefix[k] == signals[k];
    }
  }

  lemma {:induction false} NoneAccurateCount(signals: seq<Event>, t: SignalType)
    ensures CountAccurate(signals, t) == 0 <==> forall k :: 0 <= k < |signals| ==> !Accurate(signals[k], t)
  {
    if signals != [] {
      var prefix := signals[..|signals| - 1];
      NoneAccurateCount(prefix, t);
      assert forall k :: 0 <= k < |prefix| ==> prefix[k] == signals[k];
    }
  }

  /** Accuracy is 100 exactly when every signal was right, and 0 exactly when none was. */
  lemma AccuracyExtremes(signals: seq<Event>, t: SignalType)
    requires signals != []
    ensures Summarize(signals, t).accuracy == 100.0 <==> forall k :: 0 <= k < |signals| ==> Accurate(signals[k], t)
    ensures Summarize(signals, t).accuracy == 0.0 <==> forall k :: 0 <= k < |signals| ==> !Accurate(signals[k], t)
  {
    var c := CountAccurate(signals, t);
    var a := Summarize(signals, t).accuracy;
    ShareExtremes(a, c, |signals|);
    assert a == 100.0 <==> forall k :: 0 <= k < |signals| ==> Accurate(signals[k], t) by {
      AllAccurateCount(signals, t);
    }
    assert a == 0.0 <==> forall k :: 0 <= k < |signals| ==> !Accurate(signals[k], t) by {
      NoneAccurateCount(signals, t);
    }
  }

  /** A percentage `a` with `a * m == 100 c` is 100 exactly when `c == m`, and 0 exactly when `c == 0`. */
  lemma ShareExtremes(a: real, c: nat, m: nat)
    requires m > 0 && a * (m as real) == 100.0 * (c as real)
    ensures a == 100.0 <==> c == m
    ensures a == 0.0 <==> c == 0
  {
    var n, x := m as real, 100.0 * (c as real);
    Cancel(a, 100.0, n, x);
    Cancel(a, 0.0, n, x);
  }

  /** With `a * n == x` and `n > 0`, `a` equals `b` exactly when `b * n == x`. */
  lemma Cancel(a: real, b: real, n: real, x: real)
    requires n > 0.0 && a * n == x
    ensures a == b <==> b * n == x
  {
    if a < b {
      assert a * n < b * n;
    } else if a > b {
      assert a * n > b * n;
    }
  }

  /** A signal without a 90-row return joins the denominator but never the accurate count. */
  lemma MissingHorizonStillCounted(signals: seq<Event>, e: Event, t: SignalType)
    requires 90 !in e.forward
    ensures CountAccurate(signals + [e], t) == CountAccurate(signals, t)
    ensures AccuracyOf(signals + [e], t) * ((|signals| + 1) as real) == 100.0 * (CountAccurate(signals, t) as real)
  {
    var all := signals + [e];
    CountAppendInaccurate(signals, e, t);
    assert all != [] && |all| == |signals| + 1;
  }

  /** Appending a signal that is not accurate leaves the count unchanged. */
  lemma CountAppendInaccurate(signals: seq<Event>, e: Event, t: SignalType)
    requires !Accurate(e, t)
    ensures CountAccurate(signals + [e], t) == CountAccurate(signals, t)
  {
    var all := signals + [e];
    assert all[..|all| - 1] == signals;
  }

  /** For a recorded event over positive prices, accuracy is a statement about the price 90 rows later. */
  lemma AccuracyInPrices(p: seq<real>, kind: EventKind, i: nat)
    requires AllPositive(p) && i < |p|
    ensures Accurate(EventAt(p, kind, i), TopSignal) <==> i + 90 < |p| && p[i + 90] < p[i]
    ensures Accurate(EventAt(p, kind, i), BottomSignal) <==> i + 90 < |p| && p[i + 90] > p[i]
  {
    var r := ForwardReturns(p, i, p[i]);
    if i + 90 < |p| {
      assert 90 in r;
      assert r[90] == ReturnPct(p[i + 90], p[i]);
    }
  }

  // =====================================================================
  // Interpretation ladders.
  // =====================================================================

  datatype Reliability = HighlyReliable | ModeratelyReliable | SomewhatReliable | NotReliable

  /** `_interpret_backtest_results`' ladder: `>= 75`, `>= 60`, `>= 50`, else not reliable. */
  function ReliabilityOf(accuracy: real): (r: Reliability)
    ensures r == HighlyReliable <==> accuracy >= 75.0
    ensures r == ModeratelyReliable <==> 60.0 <= accuracy < 75.0
    ensures r == SomewhatReliable <==> 50.0 <= accuracy < 60.0
    ensures r == NotReliable <==> accuracy < 50.0
  {
    if accuracy >= 75.0 then HighlyReliable
    else if accuracy >= 60.0 then ModeratelyReliable
    else if accuracy >= 50.0 then SomewhatReliable
    else NotReliable
  }

  datatype Direction = Down | Up

  /** `_interpret_backtest_results`' wording: the price moved down iff the average return is negative, else up. */
  function DirectionOf(avgReturn: real): (d: Direction)
    ensures d == Down <==> avgReturn < 0.0
    ensures d == Up <==> avgReturn >= 0.0
  {
    if avgReturn < 0.0 then Down else Up
  }

  /** Over a non-empty stream the reported direction is the sign of the summed 90-row returns, a missing one counting as 0. */
  lemma DirectionFollowsReturns(signals: seq<Event>)
    requires signals != []
    ensures DirectionOf(AverageReturn(signals, 90)) == Down <==> SumReturns(signals, 90) < 0.0
  {
  }

  datatype DualInterpretation = DualInterpretation(topReliable: bool, bottomReliable: bool)

  /** `_interpret_dual_backtest`'s test: a side is called reliable at 60% accuracy or more. */
  function InterpretDual(top: Summary, bottom: Summary): (d: DualInterpretation)
    ensures d.topReliable <==> ReliabilityOf(top.accuracy) in {HighlyReliable, ModeratelyReliable}
    ensures d.bottomReliable <==> ReliabilityOf(bottom.accuracy) in {HighlyReliable, ModeratelyReliable}
  {
    DualInterpretation(top.accuracy >= 60.0, bottom.accuracy >= 60.0)
  }

  // =====================================================================
  // The three backtests.
  // =====================================================================

  datatype PiBacktest = PiBacktest(signals: seq<Event>, totalSignals: nat, summary: Summary, reliability: Reliability, direction: Direction)

  datatype MayerBacktest = MayerBacktest(
    topSignals: seq<Event>, bottomSignals: seq<Event>,
    topSummary: Summary, bottomSummary: Summary, interpretation: DualInterpretation)

  datatype RsiBacktest = RsiBacktest(
    oversoldSignals: seq<Event>, overboughtSignals: seq<Event>,
    oversoldSummary: Summary, overboughtSummary: Summary, interpretation: DualInterpretation)

  ghost predicate ValidPiBacktest(r: PiBacktest, p: seq<real>)
    requires AllPositive(p)
  {
    && ExactlyTheEvents(r.signals, p, PiCycleTop)
    && r.totalSignals == |r.signals|
    && r.summary == Summarize(r.signals, TopSignal)
    && r.reliability == ReliabilityOf(r.summary.accuracy)
    && r.direction == DirectionOf(r.summary.avg90)
  }

  ghost predicate ValidMayerBacktest(r: MayerBacktest, p: seq<real>)
    requires AllPositive(p)
  {
    && ExactlyTheEvents(r.topSignals, p, MayerTop)
    && ExactlyTheEvents(r.bottomSignals, p, MayerBottom)
    && r.topSummary == Summarize(r.topSignals, TopSignal)
    && r.bottomSummary == Summarize(r.bottomSignals, BottomSignal)
    && r.interpretation == InterpretDual(r.topSummary, r.bottomSummary)
  }

  ghost predicate ValidRsiBacktest(r: RsiBacktest, p: seq<real>)
    requires AllPositive(p)
  {
    && ExactlyTheEvents(r.oversoldSignals, p, RsiOversold)
    && ExactlyTheEvents(r.overboughtSignals, p, RsiOverbought)
    && r.oversoldSummary == Summarize(r.oversoldSignals, BottomSignal)
    && r.overboughtSummary == Summarize(r.overboughtSignals, TopSignal)
    && r.interpretation == InterpretDual(r.overboughtSummary, r.oversoldSummary)
  }

  /**
   * One row of a scan: when `fires` (the scan's own test on this row) holds,
   * compute the forward returns and append the event.
   */
  method VisitRow(p: seq<real>, kind: EventKind, i: nat, events: seq<Event>, fires: bool) returns (next: seq<Event>)
    requires AllPositive(p) && i < |p| && ScannedUpTo(events, p, kind, i)
    requires fires == Fires(p, kind, i)
    ensures ScannedUpTo(next, p, kind, i + 1)
    ensures next == if fires then events + [EventAt(p, kind, i)] else events
  {
    ScanStep(events, p, kind, i);
    next := events;
    if fires {
      var fwd := CalculateFutureReturns(p, i, p[i]);
      next := events + [Event(i, p[i], kind, MetricAt(p, kind, i), fwd)];
    }
  }

  /** The Pi Cycle scan's test on its own columns is `Fires`. */
  lemma PiColumnsFire(p: seq<real>, ma111: seq<Option<real>>, ma350x2: seq<Option<real>>, i: nat)
    requires AllPositive(p) && 1 <= i < |p|
    requires ma111 == MovingAverage(p, 111) && ma350x2 == Scaled(MovingAverage(p, 350), 2.0)
    ensures PiCrosses(ma111[i - 1], ma350x2[i - 1], ma111[i], ma350x2[i]) == Fires(p, PiCycleTop, i)
  {
    assert ma111[i - 1] == MovingAverageAt(p, 111, i - 1) && ma111[i] == MovingAverageAt(p, 111, i);
    assert ma350x2[i - 1] == SlowLineAt(p, i - 1) && ma350x2[i] == SlowLineAt(p, i);
  }

  /** The Mayer scan's tests on its own column are `Fires` for both Mayer kinds. */
  lemma MayerColumnFires(p: seq<real>, mayer: seq<Option<real>>, i: nat)
    requires AllPositive(p) && 1 <= i < |p| && mayer == MayerColumn(p)
    ensures CrossesUp(mayer[i - 1], mayer[i], 2.4) == Fires(p, MayerTop, i)
    ensures CrossesDown(mayer[i - 1], mayer[i], 0.8) == Fires(p, MayerBottom, i)
  {
    assert mayer[i - 1] == MayerAt(p, i - 1) && mayer[i] == MayerAt(p, i);
  }

  /** The RSI scan's test on its own column is `Fires` for both RSI kinds. */
  lemma RsiColumnFires(p: seq<real>, rsi: seq<Option<real>>, i: nat)
    requires AllPositive(p) && 1 <= i < |p| && rsi == Rsi(p, RsiPeriod)
    ensures CrossesDown(rsi[i - 1], rsi[i], 30.0) == Fires(p, RsiOversold, i)
    ensures CrossesUp(rsi[i - 1], rsi[i], 70.0) == Fires(p, RsiOverbought, i)
  {
    assert rsi[i - 1] == RsiAt(p, RsiPeriod, i - 1) && rsi[i] == RsiAt(p, RsiPeriod, i);
  }

  /** `backtest_pi_cycle`: scan rows 1..n-1 for the upward crossover, then score the top signals. */
  method BacktestPiCycle(p: seq<real>) returns (r: PiBacktest)
    requires AllPositive(p)
    ensures ValidPiBacktest(r, p)
  {
    var ma111 := MovingAverage(p, 111);
    var ma350x2 := Scaled(MovingAverage(p, 350), 2.0);
    var signals: seq<Event> := [];
    var i := 1;
    while i < |p|
      invariant 1 <= i
      invariant ScannedUpTo(signals, p, PiCycleTop, i)
    {
      var crossUp := PiCrosses(ma111[i - 1], ma350x2[i - 1], ma111[i], ma350x2[i]);
      PiColumnsFire(p, ma111, ma350x2, i);
      signals := VisitRow(p, PiCycleTop, i, signals, crossUp);
      i := i + 1;
    }
    ScanComplete(signals, p, PiCycleTop, i);
    var summary := Summarize(signals, TopSignal);
    r := PiBacktest(signals, |signals|, summary, ReliabilityOf(summary.accuracy), DirectionOf(summary.avg90));
  }

  /** `backtest_mayer_multiple`: one pass emitting upward crossings of 2.4 and downward crossings of 0.8. */
  method BacktestMayerMultiple(p: seq<real>) returns (r: MayerBacktest)
    requires AllPositive(p)
    ensures ValidMayerBacktest(r, p)
  {
    var mayer := MayerColumn(p);
    var tops: seq<Event> := [];
    var bottoms: seq<Event> := [];
    var i := 1;
    while i < |p|
      invariant 1 <= i
      invariant ScannedUpTo(tops, p, MayerTop, i)
      invariant ScannedUpTo(bottoms, p, MayerBottom, i)
    {
      var top := CrossesUp(mayer[i - 1], mayer[i], 2.4);
      var bottom := CrossesDown(mayer[i - 1], mayer[i], 0.8);
      MayerColumnFires(p, mayer, i);
      tops := VisitRow(p, MayerTop, i, tops, top);
      bottoms := VisitRow(p, MayerBottom, i, bottoms, bottom);
      i := i + 1;
    }
    ScanComplete(tops, p, MayerTop, i);
    ScanComplete(bottoms, p, MayerBottom, i);
    var topSummary := Summarize(tops, TopSignal);
    var bottomSummary := Summarize(bottoms, BottomSignal);
    r := MayerBacktest(tops, bottoms, topSummary, bottomSummary, InterpretDual(topSummary, bottomSummary));
  }

  /** `backtest_rsi`: one pass emitting downward crossings of 30 (oversold) and upward crossings of 70 (overbought). */
  method BacktestRsi(p: seq<real>) returns (r: RsiBacktest)
    requires AllPositive(p)
    ensures ValidRsiBacktest(r, p)
  {
    var rsi := Rsi(p, RsiPeriod);
    var oversold: seq<Event> := [];
    var overbought: seq<Event> := [];
    var i := 1;
    while i < |p|
      invariant 1 <= i
      invariant ScannedUpTo(oversold, p, RsiOversold, i)
      invariant ScannedUpTo(overbought, p, RsiOverbought, i)
    {
      var down := CrossesDown(rsi[i - 1], rsi[i], 30.0);
      var up := CrossesUp(rsi[i - 1], rsi[i], 70.0);
      RsiColumnFires(p, rsi, i);
      oversold := VisitRow(p, RsiOversold, i, oversold, down);
      overbought := VisitRow(p, RsiOverbought, i, overbought, up);
      i := i + 1;
    }
    ScanComplete(oversold, p, RsiOversold, i);
    ScanComplete(overbought, p, RsiOverbought, i);
    var oversoldSummary := Summarize(oversold, BottomSignal);
    var overboughtSummary := Summarize(overbought, TopSignal);
    r := RsiBacktest(oversold, overbought, oversoldSummary, overboughtSummary,
                     InterpretDual(overboughtSummary, oversoldSummary));
  }

  datatype FullBacktest = FullBacktest(piCycle: PiBacktest, mayer: MayerBacktest, rsi: RsiBacktest, days: nat)

  /** `run_full_backtest`: the three backtests over one series, plus its length in rows. */
  method RunFullBacktest(p: seq<real>) returns (r: FullBacktest)
    requires |p| > 0 && AllPositive(p)
    ensures ValidPiBacktest(r.piCycle, p)
    ensures ValidMayerBacktest(r.mayer, p)
    ensures ValidRsiBacktest(r.rsi, p)
    ensures r.days == |p|
  {
    var pi := BacktestPiCycle(p);
    var mayer := BacktestMayerMultiple(p);
    var rsi := BacktestRsi(p);
    r := FullBacktest(pi, mayer, rsi, |p|);
  }
}
