/**
 * The six current-state regime classifiers and the overall assessment
 * (`MarketCycleIndicators`). Each classifier reads the latest row of one or
 * more rolling statistics and places it on a fixed threshold ladder; the
 * ladders test strictly or non-strictly exactly as the program does, so a
 * value sitting on a threshold goes where the `if/elif` chain sends it.
 */
module Indicators {
  import opened Wrappers
  import opened Series
  import opened Signals

  // =====================================================================
  // Pi Cycle Top: 111-day MA against twice the 350-day MA.
  // =====================================================================

  datatype PiCycle = PiCycle(
    ma111: Option<real>,
    ma350x2: Option<real>,
    price: real,
    distancePct: Option<real>,
    signal: State,
    ma111History: seq<Option<real>>,
    ma350x2History: seq<Option<real>>)

  /** `(ma111 - ma350x2) / price * 100`, NaN when either average is NaN. */
  function DistancePct(ma111: Option<real>, ma350x2: Option<real>, price: real): (d: Option<real>)
    requires price > 0.0
    ensures d.Some? <==> ma111.Some? && ma350x2.Some?
    ensures d.Some? ==> d.value * price == (ma111.value - ma350x2.value) * 100.0
  {
    if ma111.Some? && ma350x2.Some? then Some((ma111.value - ma350x2.value) / price * 100.0) else None
  }

  /**
   * The Pi Cycle ladder. There is no insufficient-data rung: a NaN average makes
   * `ma111 > ma350x2` false and the answer SAFE.
   */
  function PiCycleSignal(ma111: Option<real>, ma350x2: Option<real>, price: real): (s: State)
    requires price > 0.0
    ensures s == Top <==> LessThan(ma350x2, ma111) && ma111.value - ma350x2.value >= price / 20.0
    ensures s == Warning <==> LessThan(ma350x2, ma111) && ma111.value - ma350x2.value < price / 20.0
    ensures s == Safe <==> !LessThan(ma350x2, ma111)
  {
    if LessThan(ma350x2, ma111) then
      var d := DistancePct(ma111, ma350x2, price).value;
      ScaledComparison(d, ma111.value - ma350x2.value, price);
      if d < 5.0 then Warning else Top
    else Safe
  }

  /** With a positive price, `distance / price * 100 < 5` says `distance < price / 20`. */
  lemma ScaledComparison(d: real, distance: real, price: real)
    requires price > 0.0 && d * price == distance * 100.0
    ensures d < 5.0 <==> distance < price / 20.0
  {
    assert distance == d * price / 100.0;
    if d < 5.0 {
      assert d * price < 5.0 * price;
    } else {
      assert d * price >= 5.0 * price;
    }
  }

  function PiCycleIndicator(p: seq<real>): (r: PiCycle)
    requires |p| > 0 && AllPositive(p)
    ensures r.price == Last(p)
    ensures r.ma111 == MovingAverageAt(p, 111, |p| - 1)
    ensures r.ma350x2 == ScaleEntry(MovingAverageAt(p, 350, |p| - 1), 2.0)
    ensures r.distancePct.Some? <==> |p| >= 350
    ensures r.distancePct == DistancePct(r.ma111, r.ma350x2, r.price)
    ensures r.signal == PiCycleSignal(r.ma111, r.ma350x2, r.price)
    ensures |p| < 350 ==> r.signal == Safe
    ensures r.ma111History == MovingAverage(p, 111)
    ensures r.ma350x2History == Scaled(MovingAverage(p, 350), 2.0)
  {
    var ma111 := MovingAverageAt(p, 111, |p| - 1);
    var ma350x2 := ScaleEntry(MovingAverageAt(p, 350, |p| - 1), 2.0);
    var price := Last(p);
    PiCycle(ma111, ma350x2, price, DistancePct(ma111, ma350x2, price),
            PiCycleSignal(ma111, ma350x2, price),
            MovingAverage(p, 111), Scaled(MovingAverage(p, 350), 2.0))
  }

  // =====================================================================
  // 2-Year MA Multiplier: price / 730-day MA.
  // =====================================================================

  datatype TwoYear =
    | TwoYearInsufficient
    | TwoYear(price: real, ma730: real, ma730x5: real, multiplier: real, signal: State,
              ma730History: seq<Option<real>>, ma730x5History: seq<Option<real>>)
  {
    function Signal(): State {
      if TwoYearInsufficient? then InsufficientData else signal
    }
  }

  /** The 2-year ladder: `> 5`, `> 3`, `< 1`, `< 1.2`, else NEUTRAL. */
  function TwoYearZone(m: real): (s: State)
    ensures s == ExtremeTop <==> m > 5.0
    ensures s == Top <==> 3.0 < m <= 5.0
    ensures s == Neutral <==> 1.2 <= m <= 3.0
    ensures s == NearBottom <==> 1.0 <= m < 1.2
    ensures s == Bottom <==> m < 1.0
  {
    if m > 5.0 then ExtremeTop
    else if m > 3.0 then Top
    else if m < 1.0 then Bottom
    else if m < 1.2 then NearBottom
    else Neutral
  }

  function TwoYearMultiplier(p: seq<real>): (r: TwoYear)
    requires |p| > 0 && AllPositive(p)
    ensures r.TwoYearInsufficient? <==> |p| < 730
    ensures r.TwoYear? ==>
              && r.price == Last(p)
              && Some(r.ma730) == MovingAverageAt(p, 730, |p| - 1)
              && r.ma730x5 == r.ma730 * 5.0
              && r.multiplier * r.ma730 == r.price
              && r.signal == TwoYearZone(r.multiplier)
              && r.ma730History == MovingAverage(p, 730)
              && r.ma730x5History == Scaled(MovingAverage(p, 730), 5.0)
  {
    var ma := MovingAverageAt(p, 730, |p| - 1);
    if ma.None? then TwoYearInsufficient
    else
      MovingAveragePositive(p, 730, |p| - 1);
      var multiplier := Ratio(Last(p), ma.value);
      TwoYear(Last(p), ma.value, ma.value * 5.0, multiplier, TwoYearZone(multiplier),
              MovingAverage(p, 730), Scaled(MovingAverage(p, 730), 5.0))
  }

  // =====================================================================
  // RSI: the simple-average momentum oscillator.
  // =====================================================================

  datatype RsiReading = RsiReading(period: nat, value: Option<real>, signal: State, history: seq<Option<real>>)

  /**
   * The RSI ladder: `> 80`, `> 70`, `< 20`, `< 30`, else NEUTRAL. There is no
   * insufficient-data rung: a NaN value fails every test and is NEUTRAL.
   */
  function RsiZone(v: Option<real>): (s: State)
    ensures s == ExtremeOverbought <==> Above(v, 80.0)
    ensures s == Overbought <==> v.Some? && 70.0 < v.value <= 80.0
    ensures s == Neutral <==> v.None? || 30.0 <= v.value <= 70.0
    ensures s == Oversold <==> v.Some? && 20.0 <= v.value < 30.0
    ensures s == ExtremeOversold <==> Below(v, 20.0)
  {
    if Above(v, 80.0) then ExtremeOverbought
    else if Above(v, 70.0) then Overbought
    else if Below(v, 20.0) then ExtremeOversold
    else if Below(v, 30.0) then Oversold
    else Neutral
  }

  function RsiIndicator(p: seq<real>, period: nat): (r: RsiReading)
    requires |p| > 0 && period >= 1
    ensures r.value == RsiAt(p, period, |p| - 1)
    ensures r.value.None? ==> r.signal == Neutral
    ensures r.signal == RsiZone(r.value)
    ensures r.history == Rsi(p, period)
  {
    var v := RsiAt(p, period, |p| - 1);
    RsiReading(period, v, RsiZone(v), Rsi(p, period))
  }

  /** No RSI label is counted by the overall assessment, as a top or as a bottom. */
  lemma RsiSignalNeverCounts(v: Option<real>)
    ensures !Contains(Text(RsiZone(v)), "TOP") && !Contains(Text(RsiZone(v)), "BOTTOM")
  {
    ContainsTop(RsiZone(v));
    ContainsBottom(RsiZone(v));
  }

  // =====================================================================
  // Rainbow chart: where the price sits between the 150-day and 7-day MAs.
  // =====================================================================

  /** The eleven band periods, in weekly steps. */
  const RainbowPeriods: seq<nat> := [7, 14, 21, 28, 35, 42, 56, 70, 90, 120, 150]

  datatype Rainbow =
    | RainbowInsufficient
    | Rainbow(price: real, ratio: real, signal: State, bands: map<nat, real>,
              history: map<nat, seq<Option<real>>>)
  {
    function Signal(): State {
      if RainbowInsufficient? then InsufficientData else signal
    }
  }

  /** `(price - ma150) / (ma7 - ma150)`, or 0.5 when the two averages coincide. */
  function RainbowPosition(price: real, ma7: real, ma150: real): (r: real)
    ensures ma7 != ma150 ==> r * (ma7 - ma150) == price - ma150
    ensures ma7 == ma150 ==> r == 0.5
  {
    if ma7 - ma150 != 0.0 then (price - ma150) / (ma7 - ma150) else 0.5
  }

  /** The rainbow ladder: `> 1.5`, `> 1`, `< 0`, `< 0.3`, else NEUTRAL. */
  function RainbowZone(ratio: real): (s: State)
    ensures s == ExtremeTop <==> ratio > 1.5
    ensures s == Top <==> 1.0 < ratio <= 1.5
    ensures s == Neutral <==> 0.3 <= ratio <= 1.0
    ensures s == Bottom <==> 0.0 <= ratio < 0.3
    ensures s == ExtremeBottom <==> ratio < 0.0
  {
    if ratio > 1.5 then ExtremeTop
    else if ratio > 1.0 then Top
    else if ratio < 0.0 then ExtremeBottom
    else if ratio < 0.3 then Bottom
    else Neutral
  }

  /** The latest value of every band that is not NaN, keyed by period. */
  function LatestBands(p: seq<real>): (b: map<nat, real>)
    requires |p| > 0
    ensures b.Keys <= set k | k in RainbowPeriods
    ensures forall k :: k in RainbowPeriods ==> (k in b <==> |p| >= k)
    ensures forall k :: k in RainbowPeriods && k in b ==> Some(b[k]) == MovingAverageAt(p, k, |p| - 1)
  {
    map k | k in RainbowPeriods && MovingAverageAt(p, k, |p| - 1).Some? :: MovingAverageAt(p, k, |p| - 1).value
  }

  /** The full column of every band, keyed by period. */
  function BandHistory(p: seq<real>): (h: map<nat, seq<Option<real>>>)
    ensures h.Keys == set k | k in RainbowPeriods
    ensures forall k :: k in RainbowPeriods ==> h[k] == MovingAverage(p, k)
  {
    map k | k in RainbowPeriods :: MovingAverage(p, k)
  }

  /** With 150 rows every rainbow period, the longest being 150, has a latest value. */
  lemma AllBandsFilled(p: seq<real>)
    requires |p| >= 150
    ensures LatestBands(p).Keys == set k | k in RainbowPeriods
  {
    var b := LatestBands(p);
    forall k | k in RainbowPeriods ensures k in b {
      assert k <= 150;
    }
  }

  function RainbowChart(p: seq<real>): (r: Rainbow)
    requires |p| > 0
    ensures r.RainbowInsufficient? <==> |p| < 150
    ensures r.Rainbow? ==>
              && r.price == Last(p)
              && r.ratio == RainbowPosition(Last(p), MovingAverageAt(p, 7, |p| - 1).value,
                                            MovingAverageAt(p, 150, |p| - 1).value)
              && r.signal == RainbowZone(r.ratio)
              && r.bands.Keys == set k | k in RainbowPeriods
              && (forall k :: k in RainbowPeriods ==> k in r.bands && Some(r.bands[k]) == MovingAverageAt(p, k, |p| - 1))
              && r.history == BandHistory(p)
  {
    var ma150 := MovingAverageAt(p, 150, |p| - 1);
    if ma150.None? then RainbowInsufficient
    else
      var ma7 := MovingAverageAt(p, 7, |p| - 1);
      var ratio := RainbowPosition(Last(p), ma7.value, ma150.value);
      var bands := LatestBands(p);
      AllBandsFilled(p);
      Rainbow(Last(p), ratio, RainbowZone(ratio), bands, BandHistory(p))
  }

  // =====================================================================
  // Mayer Multiple: price / 200-day MA.
  // =====================================================================

  datatype Mayer =
    | MayerInsufficient
    | Mayer(value: real, price: real, ma200: real, signal: State, history: seq<Option<real>>)
  {
    function Signal(): State {
      if MayerInsufficient? then InsufficientData else signal
    }
  }

  /** The Mayer ladder: `> 2.4`, `> 1.8`, `< 0.8`, `< 1`, else NEUTRAL. */
  function MayerZone(m: real): (s: State)
    ensures s == ExtremeTop <==> m > 2.4
    ensures s == Top <==> 1.8 < m <= 2.4
    ensures s == Neutral <==> 1.0 <= m <= 1.8
    ensures s == NearBottom <==> 0.8 <= m < 1.0
    ensures s == Bottom <==> m < 0.8
  {
    if m > 2.4 then ExtremeTop
    else if m > 1.8 then Top
    else if m < 0.8 then Bottom
    else if m < 1.0 then NearBottom
    else Neutral
  }

  /** `current_price / ma_200`: the LATEST price divided by each row's average, NaN where it is NaN. */
  function LatestPriceOver(price: real, s: seq<Option<real>>): (r: seq<Option<real>>)
    requires forall i :: 0 <= i < |s| && s[i].Some? ==> s[i].value > 0.0
    ensures |r| == |s|
    ensures forall i :: 0 <= i < |s| ==> (r[i].Some? <==> s[i].Some?)
    ensures forall i :: 0 <= i < |s| && s[i].Some? ==> r[i].value * s[i].value == price
  {
    seq(|s|, i requires 0 <= i < |s| => if s[i].Some? then Some(Ratio(price, s[i].value)) else None)
  }

  function MayerMultiple(p: seq<real>): (r: Mayer)
    requires |p| > 0 && AllPositive(p)
    ensures r.MayerInsufficient? <==> |p| < 200
    ensures r.Mayer? ==>
              && r.price == Last(p)
              && Some(r.ma200) == MovingAverageAt(p, 200, |p| - 1)
              && r.value * r.ma200 == r.price
              && r.signal == MayerZone(r.value)
              && r.history == MayerHistory(p)
  {
    var ma := MovingAverageAt(p, 200, |p| - 1);
    if ma.None? then MayerInsufficient
    else
      MovingAveragePositive(p, 200, |p| - 1);
      var m := Ratio(Last(p), ma.value);
      Mayer(m, Last(p), ma.value, MayerZone(m), MayerHistory(p))
  }

  /** `mayer_multiple_history`: the latest price over each row's 200-day average, NaN before row 199. */
  function MayerHistory(p: seq<real>): (h: seq<Option<real>>)
    requires |p| > 0 && AllPositive(p)
    ensures |h| == |p|
    ensures forall i :: 0 <= i < |p| ==> (h[i].Some? <==> i >= 199)
    ensures forall i :: 199 <= i < |p| ==> h[i].value * MovingAverageAt(p, 200, i).value == Last(p)
  {
    var column := MovingAverage(p, 200);
    forall i | 0 <= i < |column| && column[i].Some? ensures column[i].value > 0.0 {
      MovingAveragePositive(p, 200, i);
    }
    LatestPriceOver(Last(p), column)
  }

  // =====================================================================
  // Golden Ratio Multiplier: price against Fibonacci multiples of the 350-day MA.
  // =====================================================================

  datatype FibLevels = FibLevels(bottom: real, accumulation: real, bullish: real, euphoria: real, extreme: real)

  datatype Golden =
    | GoldenInsufficient
    | Golden(price: real, ma350: real, levels: FibLevels, signal: State)
  {
    function Signal(): State {
      if GoldenInsufficient? then InsufficientData else signal
    }
  }

  function Levels(ma: real): FibLevels {
    FibLevels(ma * 0.5, ma * 1.0, ma * 1.618, ma * 2.618, ma * 3.618)
  }

  /**
   * The golden-ratio ladder: strictly above 3.618, 2.618 or 1.618 times the
   * average, then strictly below 0.5 or 1 times it, else NEUTRAL; a price
   * exactly on a level falls to the less extreme side.
   */
  function GoldenZone(price: real, ma: real): (s: State)
    ensures ma >= 0.0 ==> (s == ExtremeTop <==> price > ma * 3.618)
    ensures ma >= 0.0 ==> (s == Top <==> ma * 2.618 < price <= ma * 3.618)
    ensures ma >= 0.0 ==> (s == Bullish <==> ma * 1.618 < price <= ma * 2.618)
    ensures ma >= 0.0 ==> (s == Neutral <==> ma <= price <= ma * 1.618)
    ensures ma >= 0.0 ==> (s == Bottom <==> ma * 0.5 <= price < ma)
    ensures ma >= 0.0 ==> (s == ExtremeBottom <==> price < ma * 0.5)
  {
    var l := Levels(ma);
    if price > l.extreme then ExtremeTop
    else if price > l.euphoria then Top
    else if price > l.bullish then Bullish
    else if price < l.bottom then ExtremeBottom
    else if price < l.accumulation then Bottom
    else Neutral
  }

  function GoldenRatioMultiplier(p: seq<real>): (r: Golden)
    requires |p| > 0
    ensures r.GoldenInsufficient? <==> |p| < 350
    ensures r.Golden? ==>
              && r.price == Last(p)
              && Some(r.ma350) == MovingAverageAt(p, 350, |p| - 1)
              && r.levels == Levels(r.ma350)
              && r.signal == GoldenZone(r.price, r.ma350)
  {
    var ma := MovingAverageAt(p, 350, |p| - 1);
    if ma.None? then GoldenInsufficient
    else Golden(Last(p), ma.value, Levels(ma.value), GoldenZone(Last(p), ma.value))
  }

  // =====================================================================
  // Overall assessment.
  // =====================================================================

  datatype Verdict = ApproachingTop | ApproachingBottom | MixedSignals

  datatype Analysis = Analysis(
    piCycle: PiCycle, twoYear: TwoYear, rsi: RsiReading, rainbow: Rainbow,
    mayer: Mayer, golden: Golden, overall: Verdict)

  /** How many of the labels contain `token` as a substring. */
  function CountMentions(states: seq<State>, token: string): (n: nat)
    ensures n <= |states|
  {
    if states == [] then 0
    else CountMentions(states[..|states| - 1], token)
         + (if Contains(Text(states[|states| - 1]), token) then 1 else 0)
  }

  /** How many of the states satisfy `TopLike`. */
  function CountTopLike(states: seq<State>): nat {
    if states == [] then 0
    else CountTopLike(states[..|states| - 1]) + (if TopLike(states[|states| - 1]) then 1 else 0)
  }

  /** How many of the states satisfy `BottomLike`. */
  function CountBottomLike(states: seq<State>): nat {
    if states == [] then 0
    else CountBottomLike(states[..|states| - 1]) + (if BottomLike(states[|states| - 1]) then 1 else 0)
  }

  /** Counting the substring "TOP" counts exactly the TOP and EXTREME_TOP states. */
  lemma {:induction false} MentionsOfTop(states: seq<State>)
    ensures CountMentions(states, "TOP") == CountTopLike(states)
  {
    if states != [] {
      MentionsOfTop(states[..|states| - 1]);
      ContainsTop(states[|states| - 1]);
    }
  }

  /** Counting the substring "BOTTOM" counts exactly the three bottom states. */
  lemma {:induction false} MentionsOfBottom(states: seq<State>)
    ensures CountMentions(states, "BOTTOM") == CountBottomLike(states)
  {
    if states != [] {
      MentionsOfBottom(states[..|states| - 1]);
      ContainsBottom(states[|states| - 1]);
    }
  }

  /** The majority rule: three or more tops, else three or more bottoms, else mixed. */
  function OverallVerdict(states: seq<State>): (v: Verdict)
    ensures v == ApproachingTop <==> CountTopLike(states) >= 3
    ensures v == ApproachingBottom <==> CountTopLike(states) < 3 && CountBottomLike(states) >= 3
    ensures v == MixedSignals <==> CountTopLike(states) < 3 && CountBottomLike(states) < 3
  {
    MentionsOfTop(states);
    MentionsOfBottom(states);
    if CountMentions(states, "TOP") >= 3 then ApproachingTop
    else if CountMentions(states, "BOTTOM") >= 3 then ApproachingBottom
    else MixedSignals
  }

  /** The six signals in the order the results are listed. */
  function SignalsOf(pi: PiCycle, ty: TwoYear, rsi: RsiReading, rb: Rainbow, my: Mayer, gr: Golden): seq<State> {
    [pi.signal, ty.Signal(), rsi.signal, rb.Signal(), my.Signal(), gr.Signal()]
  }

  function AnalyzeAll(p: seq<real>): (a: Analysis)
    requires |p| > 0 && AllPositive(p)
    ensures a.piCycle == PiCycleIndicator(p)
    ensures a.twoYear == TwoYearMultiplier(p)
    ensures a.rsi == RsiIndicator(p, 14)
    ensures a.rainbow == RainbowChart(p)
    ensures a.mayer == MayerMultiple(p)
    ensures a.golden == GoldenRatioMultiplier(p)
    ensures a.overall == OverallVerdict(SignalsOf(a.piCycle, a.twoYear, a.rsi, a.rainbow, a.mayer, a.golden))
  {
    var pi, ty, rsi := PiCycleIndicator(p), TwoYearMultiplier(p), RsiIndicator(p, 14);
    var rb, my, gr := RainbowChart(p), MayerMultiple(p), GoldenRatioMultiplier(p);
    Analysis(pi, ty, rsi, rb, my, gr, OverallVerdict(SignalsOf(pi, ty, rsi, rb, my, gr)))
  }

  /** A state is never counted both as a top and as a bottom, so the two counts together never exceed the length. */
  lemma {:induction false} CountsWithinLength(states: seq<State>)
    ensures CountTopLike(states) + CountBottomLike(states) <= |states|
  {
    if states != [] {
      CountsWithinLength(states[..|states| - 1]);
    }
  }

  /** A state that is neither a top nor a bottom lowers that bound by one. */
  lemma {:induction false} CountsWithNeutralEntry(states: seq<State>, k: nat)
    requires k < |states| && !TopLike(states[k]) && !BottomLike(states[k])
    ensures CountTopLike(states) + CountBottomLike(states) <= |states| - 1
  {
    var prefix := states[..|states| - 1];
    if k == |states| - 1 {
      CountsWithinLength(prefix);
    } else {
      assert prefix[k] == states[k];
      CountsWithNeutralEntry(prefix, k);
    }
  }

  /**
   * The RSI signal never counts, so of the six labels at most five do, and
   * three tops and three bottoms can never be reported together: checking
   * tops first decides nothing in practice.
   */
  lemma TopsAndBottomsNeverBothReachThree(p: seq<real>)
    requires |p| > 0 && AllPositive(p)
    ensures var a := AnalyzeAll(p);
            var states := SignalsOf(a.piCycle, a.twoYear, a.rsi, a.rainbow, a.mayer, a.golden);
            !(CountTopLike(states) >= 3 && CountBottomLike(states) >= 3)
  {
    var a := AnalyzeAll(p);
    var states := SignalsOf(a.piCycle, a.twoYear, a.rsi, a.rainbow, a.mayer, a.golden);
    RsiSignalNeverCounts(a.rsi.value);
    ContainsTop(states[2]);
    ContainsBottom(states[2]);
    CountsWithNeutralEntry(states, 2);
  }

  /** The price never moves. */
  predicate Flat(p: seq<real>, c: real) {
    forall j :: 0 <= j < |p| ==> p[j] == c
  }

  lemma FlatPiCycle(p: seq<real>, c: real)
    requires |p| > 0 && c > 0.0 && Flat(p, c)
    ensures AllPositive(p) && PiCycleIndicator(p).signal == Safe
  {
    if |p| >= 350 {
      MovingAverageOfFlatWindow(p, 111, |p| - 1, c);
      MovingAverageOfFlatWindow(p, 350, |p| - 1, c);
    }
  }

  /** A constant series has a 2-year multiple of exactly 1, which the ladder calls NEAR_BOTTOM. */
  lemma FlatTwoYear(p: seq<real>, c: real)
    requires |p| >= 730 && c > 0.0 && Flat(p, c)
    ensures AllPositive(p) && TwoYearMultiplier(p).Signal() == NearBottom
    ensures TwoYearMultiplier(p).TwoYear? && TwoYearMultiplier(p).multiplier == 1.0
  {
    MovingAverageOfFlatWindow(p, 730, |p| - 1, c);
    assert TwoYearMultiplier(p).multiplier == 1.0;
  }

  lemma FlatRsi(p: seq<real>, c: real)
    requires |p| > 0 && Flat(p, c)
    ensures RsiIndicator(p, 14).value == None && RsiIndicator(p, 14).signal == Neutral
  {
    RsiOfFlatWindow(p, 14, |p| - 1);
  }

  lemma FlatRainbow(p: seq<real>, c: real)
    requires |p| >= 150 && Flat(p, c)
    ensures RainbowChart(p).Signal() == Neutral
    ensures RainbowChart(p).Rainbow? && RainbowChart(p).ratio == 0.5
  {
    MovingAverageOfFlatWindow(p, 7, |p| - 1, c);
    MovingAverageOfFlatWindow(p, 150, |p| - 1, c);
  }

  lemma FlatMayer(p: seq<real>, c: real)
    requires |p| >= 200 && c > 0.0 && Flat(p, c)
    ensures AllPositive(p) && MayerMultiple(p).Signal() == Neutral
    ensures MayerMultiple(p).Mayer? && MayerMultiple(p).value == 1.0
  {
    assert AllPositive(p);
    MayerAfterLevelShift(p, c);
  }

  /**
   * Once the last 200 rows hold one price, the Mayer multiple is exactly 1 and
   * NEUTRAL, whatever the earlier history: a price that triples at row 200 of
   * a 400-row series reads NEUTRAL at row 399, not TOP.
   */
  lemma MayerAfterLevelShift(p: seq<real>, d: real)
    requires |p| >= 200 && AllPositive(p)
    requires forall j :: |p| - 200 <= j < |p| ==> p[j] == d
    ensures MayerMultiple(p).Mayer? && MayerMultiple(p).value == 1.0
    ensures MayerMultiple(p).Signal() == Neutral
  {
    MovingAverageOfFlatWindow(p, 200, |p| - 1, d);
    assert Last(p) == d;
  }

  lemma FlatGolden(p: seq<real>, c: real)
    requires |p| >= 350 && c > 0.0 && Flat(p, c)
    ensures GoldenRatioMultiplier(p).Signal() == Neutral
    ensures GoldenRatioMultiplier(p).Golden? && GoldenRatioMultiplier(p).price == GoldenRatioMultiplier(p).ma350
  {
    MovingAverageOfFlatWindow(p, 350, |p| - 1, c);
  }

  /**
   * On a constant price series of at least 730 rows: Pi Cycle is SAFE (111-day
   * average c against 2c), the 2-year multiple is exactly 1 and hence
   * NEAR_BOTTOM, the RSI is NaN and hence NEUTRAL, the rainbow bands coincide
   * and the 0.5 fallback gives NEUTRAL, Mayer is exactly 1 and NEUTRAL, the
   * price sits exactly on the 1x golden level and is NEUTRAL, and the overall
   * assessment is mixed.
   */
  lemma FlatSeriesAnalysis(p: seq<real>, c: real)
    requires |p| >= 730 && c > 0.0 && Flat(p, c)
    ensures AllPositive(p)
    ensures var a := AnalyzeAll(p);
            && SignalsOf(a.piCycle, a.twoYear, a.rsi, a.rainbow, a.mayer, a.golden)
               == [Safe, NearBottom, Neutral, Neutral, Neutral, Neutral]
            && a.overall == MixedSignals
  {
    FlatPiCycle(p, c);
    FlatTwoYear(p, c);
    FlatRsi(p, c);
    FlatRainbow(p, c);
    FlatMayer(p, c);
    FlatGolden(p, c);
    var a := AnalyzeAll(p);
    assert SignalsOf(a.piCycle, a.twoYear, a.rsi, a.rainbow, a.mayer, a.golden)
           == [Safe, NearBottom, Neutral, Neutral, Neutral, Neutral];
    FlatVerdict();
  }

  /** The flat-series signals hold no top and one bottom, so the verdict is mixed. */
  lemma FlatVerdict()
    ensures OverallVerdict([Safe, NearBottom, Neutral, Neutral, Neutral, Neutral]) == MixedSignals
  {
    var states := [Safe, NearBottom, Neutral, Neutral, Neutral, Neutral];
    assert states[..2][..1] == states[..1];
    assert states[..3][..2] == states[..2];
    assert states[..4][..3] == states[..3];
    assert states[..5][..4] == states[..4];
    assert states[..6][..5] == states[..5];
    assert states[..6] == states;
    assert CountTopLike(states[..1]) == 0 && CountBottomLike(states[..1]) == 0;
    assert CountTopLike(states[..2]) == 0 && CountBottomLike(states[..2]) == 1;
    assert CountTopLike(states[..3]) == 0 && CountBottomLike(states[..3]) == 1;
    assert CountTopLike(states[..4]) == 0 && CountBottomLike(states[..4]) == 1;
    assert CountTopLike(states[..5]) == 0 && CountBottomLike(states[..5]) == 1;
    assert CountTopLike(states[..6]) == 0 && CountBottomLike(states[..6]) == 1;
  }
}
