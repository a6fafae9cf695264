/**
 * The small pure decisions of the dashboard page: how many days of history a
 * time range asks for, and the two ways a correlation value is put into one of
 * five bands (the heat-map cell colour and the tooltip's strength label).
 */
module Display {

  /** The number of days of price history fetched for the selected time range. */
  function HistoryDays(timeRange: string): (days: nat)
    ensures days == 1 <==> timeRange == "24h"
    ensures days == 7 <==> timeRange == "7d"
    ensures days == 30 <==> timeRange != "24h" && timeRange != "7d"
  {
    if timeRange == "24h" then 1 else if timeRange == "7d" then 7 else 30
  }

  /** The header's other ranges, one hour and one year, both fetch 30 days. */
  lemma OtherRangesFetchThirtyDays()
    ensures HistoryDays("1h") == 30 && HistoryDays("1y") == 30
  {
    assert "1h" != "24h" && "1h" != "7d";
    assert "1y" != "24h" && "1y" != "7d";
  }

  /** The five strengths of a correlation, from strongly positive down to strongly negative. */
  datatype Band = StrongPositive | ModeratePositive | Weak | ModerateNegative | StrongNegative

  /** Position of a band, 0 for the strongest positive. */
  function Rank(b: Band): nat
  {
    match b
    case StrongPositive => 0
    case ModeratePositive => 1
    case Weak => 2
    case ModerateNegative => 3
    case StrongNegative => 4
  }

  /** The band `getColor` picks: each threshold is a lower bound, compared with `>=`. */
  function ColorBand(v: real): Band
  {
    if v >= 0.7 then StrongPositive
    else if v >= 0.3 then ModeratePositive
    else if v >= -0.3 then Weak
    else if v >= -0.7 then ModerateNegative
    else StrongNegative
  }

  /** The band of the tooltip: the negative thresholds are upper bounds, compared with `<=`. */
  function StrengthBand(v: real): Band
  {
    if v >= 0.7 then StrongPositive
    else if v >= 0.3 then ModeratePositive
    else if v <= -0.7 then StrongNegative
    else if v <= -0.3 then ModerateNegative
    else Weak
  }

  /** `getColor`: the fill of a heat-map cell. */
  function HeatmapColor(v: real): (colour: string)
    ensures colour == "rgba(0, 200, 0, 0.8)" <==> v >= 0.7
    ensures colour == "rgba(144, 238, 144, 0.8)" <==> 0.3 <= v < 0.7
    ensures colour == "rgba(255, 255, 255, 0.8)" <==> -0.3 <= v < 0.3
    ensures colour == "rgba(255, 182, 193, 0.8)" <==> -0.7 <= v < -0.3
    ensures colour == "rgba(255, 0, 0, 0.8)" <==> v < -0.7
  {
    match ColorBand(v)
    case StrongPositive => "rgba(0, 200, 0, 0.8)"
    case ModeratePositive => "rgba(144, 238, 144, 0.8)"
    case Weak => "rgba(255, 255, 255, 0.8)"
    case ModerateNegative => "rgba(255, 182, 193, 0.8)"
    case StrongNegative => "rgba(255, 0, 0, 0.8)"
  }

  /** The tooltip's strength label. Every branch assigns it, so the initial "No" is never shown. */
  function StrengthLabel(v: real): (text: string)
    ensures text != "No"
    ensures text == "Strong Positive" <==> v >= 0.7
    ensures text == "Moderate Positive" <==> 0.3 <= v < 0.7
    ensures text == "Weak" <==> -0.3 < v < 0.3
    ensures text == "Moderate Negative" <==> -0.7 < v <= -0.3
    ensures text == "Strong Negative" <==> v <= -0.7
  {
    match StrengthBand(v)
    case StrongPositive => "Strong Positive"
    case ModeratePositive => "Moderate Positive"
    case Weak => "Weak"
    case ModerateNegative => "Moderate Negative"
    case StrongNegative => "Strong Negative"
  }

  /** Both classifiers are monotone: a larger value never lands in a band further down the scale (a higher `Rank`). */
  lemma BandsMonotone(v: real, w: real)
    requires v <= w
    ensures Rank(ColorBand(w)) <= Rank(ColorBand(v))
    ensures Rank(StrengthBand(w)) <= Rank(StrengthBand(v))
  {
  }

  /**
   * The colour and the label put a value in the same band except at the two
   * negative thresholds, where the colour says one band weaker.
   */
  lemma BandsDisagreeExactly(v: real)
    ensures ColorBand(v) != StrengthBand(v) <==> v == -0.7 || v == -0.3
    ensures v == -0.7 ==> ColorBand(v) == ModerateNegative && StrengthBand(v) == StrongNegative
    ensures v == -0.3 ==> ColorBand(v) == Weak && StrengthBand(v) == ModerateNegative
  {
  }
}
