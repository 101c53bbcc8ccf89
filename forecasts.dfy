/** The forecast screen (src/pages/Forecasts.tsx): three mock series generated from
    `Math.random()`, the four-band AQI text colour, and the status badge. Every
    `Math.random()` call is an explicit argument: a real in [0, 1). */
module Forecasts {
  import opened JsString
  import opened AqiScale
  import opened Hours
  import opened StatusBadge

  // ---------------------------------------------------------------------------
  // Random draws
  // ---------------------------------------------------------------------------

  /** A value `Math.random()` can return. */
  predicate IsRandom(r: real) {
    0.0 <= r < 1.0
  }

  /** `Math.floor(r * n)`: a uniform integer draw from [0, n). */
  function ScaledDraw(r: real, n: nat): (k: int)
    requires IsRandom(r) && n > 0
    ensures 0 <= k < n
  {
    assert r * (n as real) < n as real by {
      assert (1.0 - r) * (n as real) > 0.0;
    }
    (r * (n as real)).Floor
  }

  /** Every integer of [0, n) is drawn by some random value: the scaled ranges below are
      tight. */
  lemma ScaledDrawReachable(k: nat, n: nat)
    requires k < n
    ensures IsRandom(k as real / n as real) && ScaledDraw(k as real / n as real, n) == k
  {
    var r := k as real / n as real;
    assert r * (n as real) == k as real;
  }

  // ---------------------------------------------------------------------------
  // Hourly series
  // ---------------------------------------------------------------------------

  /** The draws for one hour: the AQI draw, then the status draw, which the source takes
      only for hours 6 to 20. */
  datatype HourDraws = HourDraws(aqi: real, status: real)

  datatype HourPoint = HourPoint(hour: string, aqi: int, status: string)

  predicate ValidHourDraws(draws: seq<HourDraws>) {
    |draws| == 24 && forall i :: 0 <= i < 24 ==> IsRandom(draws[i].aqi) && IsRandom(draws[i].status)
  }

  /** Hour `i` of `hourlyForecast`. */
  function HourAt(i: nat, d: HourDraws): HourPoint
    requires IsRandom(d.aqi) && IsRandom(d.status)
  {
    HourPoint(HourLabel(i), ScaledDraw(d.aqi, 100) + 20,
              if i < 6 || i > 20 then "Good" else if d.status > 0.7 then "Moderate" else "Good")
  }

  /** `hourlyForecast`: 24 points labelled by hour, each AQI in [20, 119]; the night hours
      (0 to 5 and 21 to 23) are always "Good", the day hours "Moderate" exactly when their
      status draw exceeds 0.7. */
  function HourlyForecast(draws: seq<HourDraws>): (r: seq<HourPoint>)
    requires ValidHourDraws(draws)
    ensures |r| == 24
    ensures forall i :: 0 <= i < 24 ==> r[i].hour == HourLabel(i) && 20 <= r[i].aqi <= 119
    ensures forall i :: 0 <= i < 24 ==> r[i].aqi == ScaledDraw(draws[i].aqi, 100) + 20
    ensures forall i :: 0 <= i < 24 && (i < 6 || i > 20) ==> r[i].status == "Good"
    ensures forall i :: 6 <= i <= 20 ==> (r[i].status == "Moderate" <==> draws[i].status > 0.7)
    ensures forall i :: 0 <= i < 24 ==> r[i].status == "Good" || r[i].status == "Moderate"
  {
    seq(24, i requires 0 <= i < 24 => HourAt(i, draws[i]))
  }

  /** The hour labels run "00:00", "01:00", ..., "09:00", "10:00", ..., "23:00". */
  lemma HourlyLabels(draws: seq<HourDraws>)
    requires ValidHourDraws(draws)
    ensures HourlyForecast(draws)[0].hour == "00:00"
    ensures HourlyForecast(draws)[9].hour == "09:00"
    ensures HourlyForecast(draws)[10].hour == "10:00"
    ensures HourlyForecast(draws)[23].hour == "23:00"
  {
    var r := HourlyForecast(draws);
    assert r[0].hour == HourLabel(0) && r[9].hour == HourLabel(9);
    assert r[10].hour == HourLabel(10) && r[23].hour == HourLabel(23);
    HourLabelShape(0);
    HourLabelShape(9);
    HourLabelShape(10);
    HourLabelShape(23);
  }

  /** No two hours share a label. */
  lemma HourlyLabelsDistinct(draws: seq<HourDraws>)
    requires ValidHourDraws(draws)
    ensures forall i, j :: 0 <= i < j < 24 ==> HourlyForecast(draws)[i].hour != HourlyForecast(draws)[j].hour
  {
    var r := HourlyForecast(draws);
    forall i, j | 0 <= i < j < 24 ensures r[i].hour != r[j].hour {
      HourLabelDigits(i);
      HourLabelDigits(j);
    }
  }

  /** The status ignores the AQI: hour 3 with the largest AQI draw is still "Good". */
  lemma HourlyStatusIgnoresAqi(draws: seq<HourDraws>)
    requires ValidHourDraws(draws) && draws[3].aqi == 0.99
    ensures HourlyForecast(draws)[3].aqi == 119 && HourlyForecast(draws)[3].status == "Good"
  {
  }

  /** The screen shows the first twelve hours of the series, "00:00" to "11:00", of
      which the first six are always "Good". */
  function ShownHours(draws: seq<HourDraws>): (r: seq<HourPoint>)
    requires ValidHourDraws(draws)
    ensures |r| == 12
    ensures forall i :: 0 <= i < 12 ==> r[i].hour == HourLabel(i) && 20 <= r[i].aqi <= 119
    ensures forall i :: 0 <= i < 6 ==> r[i].status == "Good"
  {
    HourlyForecast(draws)[..12]
  }

  // ---------------------------------------------------------------------------
  // Daily series
  // ---------------------------------------------------------------------------

  /** The draws for one day: high, low, status and trend, in the source's order. */
  datatype DayDraws = DayDraws(high: real, low: real, status: real, trend: real)

  /** One day of `weeklyForecast`; `offset` is the number of days after today the
      date label stands for. */
  datatype DayPoint = DayPoint(offset: nat, high: int, low: int, status: string, trend: string)

  predicate ValidDayDraws(draws: seq<DayDraws>) {
    |draws| == 7 && forall i :: 0 <= i < 7 ==>
      IsRandom(draws[i].high) && IsRandom(draws[i].low) && IsRandom(draws[i].status) && IsRandom(draws[i].trend)
  }

  function DayAt(i: nat, d: DayDraws): DayPoint
    requires IsRandom(d.high) && IsRandom(d.low) && IsRandom(d.status) && IsRandom(d.trend)
  {
    DayPoint(i, ScaledDraw(d.high, 80) + 40, ScaledDraw(d.low, 40) + 20,
             if d.status > 0.6 then "Moderate" else "Good",
             if d.trend > 0.5 then "up" else "down")
  }

  /** `weeklyForecast`: seven days from today, highs in [40, 119], lows in [20, 59],
      "Moderate" exactly when the status draw exceeds 0.6, "up" exactly when the trend
      draw exceeds 0.5. */
  function WeeklyForecast(draws: seq<DayDraws>): (r: seq<DayPoint>)
    requires ValidDayDraws(draws)
    ensures |r| == 7
    ensures forall i :: 0 <= i < 7 ==>
              r[i].offset == i && 40 <= r[i].high <= 119 && 20 <= r[i].low <= 59
    ensures forall i :: 0 <= i < 7 ==>
              r[i].high == ScaledDraw(draws[i].high, 80) + 40 && r[i].low == ScaledDraw(draws[i].low, 40) + 20
    ensures forall i :: 0 <= i < 7 ==>
              (r[i].status == "Moderate" <==> draws[i].status > 0.6) &&
              (r[i].status == "Good" <==> draws[i].status <= 0.6) &&
              (r[i].trend == "up" <==> draws[i].trend > 0.5) &&
              (r[i].trend == "down" <==> draws[i].trend <= 0.5)
  {
    seq(7, i requires 0 <= i < 7 => DayAt(i, draws[i]))
  }

  /** Nothing orders a day's low below its high: the lowest high with the highest low
      gives 40 over 59. */
  lemma WeeklyLowMayExceedHigh(draws: seq<DayDraws>)
    requires ValidDayDraws(draws) && draws[0].high == 0.0 && draws[0].low == 0.99
    ensures WeeklyForecast(draws)[0].high == 40 && WeeklyForecast(draws)[0].low == 59
  {
  }

  // ---------------------------------------------------------------------------
  // Monthly series
  // ---------------------------------------------------------------------------

  /** The draws for one week: average AQI, status and confidence, in the source's order. */
  datatype WeekDraws = WeekDraws(avgAqi: real, status: real, confidence: real)

  datatype WeekPoint = WeekPoint(week: string, avgAqi: int, status: string, confidence: int)

  predicate ValidWeekDraws(draws: seq<WeekDraws>) {
    |draws| == 4 && forall i :: 0 <= i < 4 ==>
      IsRandom(draws[i].avgAqi) && IsRandom(draws[i].status) && IsRandom(draws[i].confidence)
  }

  function WeekAt(i: nat, d: WeekDraws): WeekPoint
    requires IsRandom(d.avgAqi) && IsRandom(d.status) && IsRandom(d.confidence)
  {
    WeekPoint("Week " + NatToString(i + 1), ScaledDraw(d.avgAqi, 60) + 30,
              if d.status > 0.7 then "Moderate" else "Good", ScaledDraw(d.confidence, 20) + 75)
  }

  /** `monthlyForecast`: four weeks labelled "Week 1" to "Week 4", average AQI in [30, 89],
      confidence in [75, 94], "Moderate" exactly when the status draw exceeds 0.7. */
  function MonthlyForecast(draws: seq<WeekDraws>): (r: seq<WeekPoint>)
    requires ValidWeekDraws(draws)
    ensures |r| == 4
    ensures forall i :: 0 <= i < 4 ==>
              r[i].week == "Week " + [DigitChar(i + 1)] &&
              30 <= r[i].avgAqi <= 89 && 75 <= r[i].confidence <= 94
    ensures forall i :: 0 <= i < 4 ==>
              r[i].avgAqi == ScaledDraw(draws[i].avgAqi, 60) + 30 &&
              r[i].confidence == ScaledDraw(draws[i].confidence, 20) + 75
    ensures forall i :: 0 <= i < 4 ==>
              (r[i].status == "Moderate" <==> draws[i].status > 0.7) &&
              (r[i].status == "Good" <==> draws[i].status <= 0.7)
  {
    seq(4, i requires 0 <= i < 4 => WeekAt(i, draws[i]))
  }

  // ---------------------------------------------------------------------------
  // Colours
  // ---------------------------------------------------------------------------

  const GreenText: string := "text-green-600"
  const YellowText: string := "text-yellow-600"
  const OrangeText: string := "text-orange-600"
  const RedText: string := "text-red-600"

  /** `getAQIColor` of this screen: four text colours over inclusive bounds 50, 100, 150. */
  function TextAqiColor(aqi: int): (c: string)
    ensures c == [GreenText, YellowText, OrangeText, RedText][if Index(BandOf(aqi)) < 3 then Index(BandOf(aqi)) else 3]
  {
    BandOfInterval(aqi, Index(BandOf(aqi)));
    if aqi <= 50 then GreenText
    else if aqi <= 100 then YellowText
    else if aqi <= 150 then OrangeText
    else RedText
  }

  /** The four-band text colour agrees band for band with the EPA bands up to 150 and is
      red for everything above. */
  lemma TextAqiColorCollapsesAbove150(aqi: int)
    ensures aqi <= 150 ==> Index(BandOf(aqi)) <= 2
    ensures TextAqiColor(aqi) == RedText <==> aqi > 150
    ensures TextAqiColor(aqi) == RedText <==> Index(BandOf(aqi)) >= 3
  {
    BandOfInterval(aqi, Index(BandOf(aqi)));
  }

  /** The text colour of each of the four lower bands begins that band's badge. */
  lemma TextColorBeginsBadge(b: Band)
    requires Index(b) < 4
    ensures BandBadge(b)[..|[GreenText, YellowText, OrangeText, RedText][Index(b)]|]
            == [GreenText, YellowText, OrangeText, RedText][Index(b)]
  {
    match b
    case Good => assert GreenBadge == GreenText + " bg-green-100";
    case Moderate => assert YellowBadge == YellowText + " bg-yellow-100";
    case SensitiveGroups => assert OrangeBadge == OrangeText + " bg-orange-100";
    case Unhealthy => assert RedBadge == RedText + " bg-red-100";
  }

  /** The badge of a band's name carries the same text colour as the AQI figure beside
      it up to 200; above 200 the figure is red while the badge of "Very Unhealthy" or
      "Hazardous" is gray. */
  lemma BadgeMatchesTextColor(aqi: int)
    ensures aqi <= 200 ==>
              TextAqiColor(aqi) == StatusColor(BandName(BandOf(aqi)))[..|TextAqiColor(aqi)|]
    ensures aqi > 200 ==> StatusColor(BandName(BandOf(aqi))) == GrayBadge
  {
    var b := BandOf(aqi);
    BandOfInterval(aqi, Index(b));
    StatusColorOfBandName(b);
    if aqi <= 200 {
      TextColorBeginsBadge(b);
    }
  }

  /** Every hour's AQI takes the green, yellow or orange text colour, and its badge is
      green or yellow. */
  lemma GeneratedHourColors(hd: seq<HourDraws>)
    requires ValidHourDraws(hd)
    ensures forall i :: 0 <= i < 24 ==>
              TextAqiColor(HourlyForecast(hd)[i].aqi) != RedText &&
              StatusColor(HourlyForecast(hd)[i].status) in {GreenBadge, YellowBadge}
  {
    StatusColorOfBandName(Good);
    StatusColorOfBandName(Moderate);
    var r := HourlyForecast(hd);
    forall i | 0 <= i < 24
      ensures TextAqiColor(r[i].aqi) != RedText && StatusColor(r[i].status) in {GreenBadge, YellowBadge}
    {
      TextAqiColorCollapsesAbove150(r[i].aqi);
    }
  }

  /** Every day's high takes the green, yellow or orange text colour, and its badge is
      green or yellow. */
  lemma GeneratedDayColors(dd: seq<DayDraws>)
    requires ValidDayDraws(dd)
    ensures forall i :: 0 <= i < 7 ==>
              TextAqiColor(WeeklyForecast(dd)[i].high) != RedText &&
              StatusColor(WeeklyForecast(dd)[i].status) in {GreenBadge, YellowBadge}
  {
    StatusColorOfBandName(Good);
    StatusColorOfBandName(Moderate);
    var r := WeeklyForecast(dd);
    forall i | 0 <= i < 7
      ensures TextAqiColor(r[i].high) != RedText && StatusColor(r[i].status) in {GreenBadge, YellowBadge}
    {
      TextAqiColorCollapsesAbove150(r[i].high);
    }
  }

  /** Every week's average is green or yellow, and so is its badge. */
  lemma GeneratedWeekColors(wd: seq<WeekDraws>)
    requires ValidWeekDraws(wd)
    ensures forall i :: 0 <= i < 4 ==>
              TextAqiColor(MonthlyForecast(wd)[i].avgAqi) in {GreenText, YellowText} &&
              StatusColor(MonthlyForecast(wd)[i].status) in {GreenBadge, YellowBadge}
  {
    StatusColorOfBandName(Good);
    StatusColorOfBandName(Moderate);
    var r := MonthlyForecast(wd);
    forall i | 0 <= i < 4
      ensures TextAqiColor(r[i].avgAqi) in {GreenText, YellowText} && StatusColor(r[i].status) in {GreenBadge, YellowBadge}
    {
      BandOfInterval(r[i].avgAqi, Index(BandOf(r[i].avgAqi)));
    }
  }
}
