/**
 * The regime labels the classifiers report, as the strings the program
 * compares, and the substring test (`'TOP' in signal`) that the overall
 * assessment counts with.
 */
module Signals {

  datatype State =
    | Safe | Warning | Top | ExtremeTop
    | Bullish | Neutral
    | NearBottom | Bottom | ExtremeBottom
    | Overbought | ExtremeOverbought | Oversold | ExtremeOversold
    | InsufficientData

  /** The `signal` string each state is reported as. */
  function Text(s: State): string {
    match s
    case Safe => "SAFE"
    case Warning => "WARNING"
    case Top => "TOP"
    case ExtremeTop => "EXTREME_TOP"
    case Bullish => "BULLISH"
    case Neutral => "NEUTRAL"
    case NearBottom => "NEAR_BOTTOM"
    case Bottom => "BOTTOM"
    case ExtremeBottom => "EXTREME_BOTTOM"
    case Overbought => "OVERBOUGHT"
    case ExtremeOverbought => "EXTREME_OVERBOUGHT"
    case Oversold => "OVERSOLD"
    case ExtremeOversold => "EXTREME_OVERSOLD"
    case InsufficientData => "INSUFFICIENT_DATA"
  }

  /** `token` occurs in `text` starting at position `k`. */
  predicate MatchesAt(text: string, token: string, k: nat) {
    k + |token| <= |text| && forall j :: 0 <= j < |token| ==> text[k + j] == token[j]
  }

  /** Python's `token in text` for strings. */
  predicate Contains(text: string, token: string) {
    exists k: nat | k <= |text| :: MatchesAt(text, token, k)
  }

  /** A text in which the first three characters of `token` never appear in a row cannot contain it. */
  lemma NotContains(text: string, token: string)
    requires |token| >= 3
    requires forall k :: 0 <= k < |text| - 2 ==>
               !(text[k] == token[0] && text[k + 1] == token[1] && text[k + 2] == token[2])
    ensures !Contains(text, token)
  {
    forall k: nat | k <= |text| ensures !MatchesAt(text, token, k) {
      if k + |token| <= |text| {
        assert text[k + 0] != token[0] || text[k + 1] != token[1] || text[k + 2] != token[2];
      }
    }
  }

  /** The states a top-counting test picks up. */
  predicate TopLike(s: State) {
    s == Top || s == ExtremeTop
  }

  /** The states a bottom-counting test picks up. */
  predicate BottomLike(s: State) {
    s == NearBottom || s == Bottom || s == ExtremeBottom
  }

  /** Exactly TOP and EXTREME_TOP contain the substring "TOP" (WARNING, BULLISH and every RSI label do not). */
  lemma ContainsTop(s: State)
    ensures Contains(Text(s), "TOP") <==> TopLike(s)
  {
    var t := Text(s);
    if s == Top {
      assert MatchesAt(t, "TOP", 0);
    } else if s == ExtremeTop {
      assert MatchesAt(t, "TOP", 8);
    } else {
      TopAbsent(s);
    }
  }

  /** Every label other than TOP and EXTREME_TOP is free of "TOP", checked one label at a time. */
  lemma TopAbsent(s: State)
    requires !TopLike(s)
    ensures !Contains(Text(s), "TOP")
  {
    match s
    case Safe => NotContains("SAFE", "TOP");
    case Warning => NotContains("WARNING", "TOP");
    case Bullish => NotContains("BULLISH", "TOP");
    case Neutral => NotContains("NEUTRAL", "TOP");
    case NearBottom => NotContains("NEAR_BOTTOM", "TOP");
    case Bottom => NotContains("BOTTOM", "TOP");
    case ExtremeBottom => NotContains("EXTREME_BOTTOM", "TOP");
    case Overbought => NotContains("OVERBOUGHT", "TOP");
    case ExtremeOverbought => NotContains("EXTREME_OVERBOUGHT", "TOP");
    case Oversold => NotContains("OVERSOLD", "TOP");
    case ExtremeOversold => NotContains("EXTREME_OVERSOLD", "TOP");
    case InsufficientData => NotContains("INSUFFICIENT_DATA", "TOP");
  }

  /** Exactly the three bottom labels contain "BOTTOM" (OVERBOUGHT and OVERSOLD do not). */
  lemma ContainsBottom(s: State)
    ensures Contains(Text(s), "BOTTOM") <==> BottomLike(s)
  {
    var t := Text(s);
    if s == Bottom {
      assert MatchesAt(t, "BOTTOM", 0);
    } else if s == NearBottom {
      assert MatchesAt(t, "BOTTOM", 5);
    } else if s == ExtremeBottom {
      assert MatchesAt(t, "BOTTOM", 8);
    } else {
      BottomAbsent(s);
    }
  }

  /** Every label other than the three bottom labels is free of "BOTTOM", checked one label at a time. */
  lemma BottomAbsent(s: State)
    requires !BottomLike(s)
    ensures !Contains(Text(s), "BOTTOM")
  {
    match s
    case Safe => NotContains("SAFE", "BOTTOM");
    case Warning => NotContains("WARNING", "BOTTOM");
    case Top => NotContains("TOP", "BOTTOM");
    case ExtremeTop => NotContains("EXTREME_TOP", "BOTTOM");
    case Bullish => NotContains("BULLISH", "BOTTOM");
    case Neutral => NotContains("NEUTRAL", "BOTTOM");
    case Overbought => NotContains("OVERBOUGHT", "BOTTOM");
    case ExtremeOverbought => NotContains("EXTREME_OVERBOUGHT", "BOTTOM");
    case Oversold => NotContains("OVERSOLD", "BOTTOM");
    case ExtremeOversold => NotContains("EXTREME_OVERSOLD", "BOTTOM");
    case InsufficientData => NotContains("INSUFFICIENT_DATA", "BOTTOM");
  }
}
