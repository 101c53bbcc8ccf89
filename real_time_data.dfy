/** The real-time screen (src/pages/RealTimeData.tsx): the current reading, the pollutant
    table with each reading's share of its health limit, the progress-bar colour and
    width, and the status badge. */
module RealTimeData {
  import opened StatusBadge
  import AqiScale

  /** One row of the pollutant table. Values and limits are in the pollutant's unit; the
      percentage of the limit is stored, not computed. */
  datatype Pollutant = Pollutant(name: string, value: real, unit: string, limit: real,
                                 status: string, percentage: real)

  const CurrentAqi: int := 42
  const CurrentStatus: string := "Good"

  /** The current reading's hard-coded status is the EPA band its hard-coded AQI falls in. */
  lemma CurrentStatusIsBandName()
    ensures AqiScale.BandName(AqiScale.BandOf(CurrentAqi)) == CurrentStatus
  {
    AqiScale.BandOfInterval(CurrentAqi, 0);
  }

  const Pollutants: seq<Pollutant> := [
    Pollutant("PM2.5", 12.0, "μg/m³", 25.0, "Good", 48.0),
    Pollutant("PM10", 28.0, "μg/m³", 50.0, "Good", 56.0),
    Pollutant("NO2", 15.0, "ppb", 40.0, "Good", 37.5),
    Pollutant("O3", 45.0, "ppb", 70.0, "Moderate", 64.3),
    Pollutant("SO2", 8.0, "ppb", 20.0, "Good", 40.0),
    Pollutant("CO", 0.5, "ppm", 9.0, "Good", 5.6)
  ]

  /** What the stored percentages stand for: the reading as a percentage of its limit. */
  function PercentOfLimit(value: real, limit: real): (p: real)
    requires limit > 0.0
    ensures p * limit == value * 100.0
  {
    value / limit * 100.0
  }

  function Abs(x: real): (a: real)
    ensures a >= 0.0 && (a == x || a == -x)
  {
    if x < 0.0 then -x else x
  }

  /** Every stored percentage is its reading's share of the limit, to one decimal: within
      0.05 of `value / limit * 100` (exact for PM2.5, PM10, NO2 and SO2; 64.3 for
      45/70 = 64.28..., 5.6 for 0.5/9 = 5.55...). */
  lemma FixturePercentagesMatch()
    ensures forall p :: p in Pollutants ==>
              p.limit > 0.0 && Abs(p.percentage - PercentOfLimit(p.value, p.limit)) <= 0.05
    ensures forall i :: 0 <= i < 5 && i != 3 ==>
              Pollutants[i].percentage == PercentOfLimit(Pollutants[i].value, Pollutants[i].limit)
  {
  }

  // ---------------------------------------------------------------------------
  // Progress bar
  // ---------------------------------------------------------------------------

  const GreenBar: string := "bg-green-500"
  const YellowBar: string := "bg-yellow-500"
  const RedBar: string := "bg-red-500"

  /** `getProgressColor`: green below 50, yellow from 50 up to but not including 75, red
      from 75; unlike the AQI rules the bounds are exclusive, so 50 is already yellow and
      75 already red. */
  function ProgressColor(percentage: real): (c: string)
    ensures c == GreenBar <==> percentage < 50.0
    ensures c == YellowBar <==> 50.0 <= percentage < 75.0
    ensures c == RedBar <==> percentage >= 75.0
  {
    if percentage < 50.0 then GreenBar
    else if percentage < 75.0 then YellowBar
    else RedBar
  }

  /** The severity order of the bar colours. */
  function BarRank(c: string): nat {
    if c == GreenBar then 0 else if c == YellowBar then 1 else 2
  }

  /** A larger percentage never gets a milder bar colour. */
  lemma ProgressColorMonotone(p: real, q: real)
    requires p <= q
    ensures BarRank(ProgressColor(p)) <= BarRank(ProgressColor(q))
  {
  }

  /** `Math.min(percentage, 100)`: the bar's width in percent. */
  function BarWidth(percentage: real): (w: real)
    ensures w <= 100.0
    ensures percentage <= 100.0 ==> w == percentage
    ensures percentage > 100.0 ==> w == 100.0
  {
    if percentage <= 100.0 then percentage else 100.0
  }

  /** Clamping a clamped width changes nothing. */
  lemma BarWidthIdempotent(p: real)
    ensures BarWidth(BarWidth(p)) == BarWidth(p)
  {
  }

  /** Every stored percentage is below 100, so each bar is drawn at its stored width; the
      bars are green, yellow, green, yellow, green, green. */
  lemma FixtureBars()
    ensures forall p :: p in Pollutants ==> p.percentage < 100.0 && BarWidth(p.percentage) == p.percentage
    ensures [ProgressColor(Pollutants[0].percentage), ProgressColor(Pollutants[1].percentage),
             ProgressColor(Pollutants[2].percentage), ProgressColor(Pollutants[3].percentage),
             ProgressColor(Pollutants[4].percentage), ProgressColor(Pollutants[5].percentage)]
         == [GreenBar, YellowBar, GreenBar, YellowBar, GreenBar, GreenBar]
  {
  }

  /** Every status on the screen is "Good" or "Moderate", so no badge falls to gray. */
  lemma FixtureBadges()
    ensures StatusColor(CurrentStatus) == GreenBadge
    ensures forall p :: p in Pollutants ==>
              StatusColor(p.status) in {GreenBadge, YellowBadge} && StatusColor(p.status) != GrayBadge
  {
    StatusColorOfBandName(AqiScale.Good);
    StatusColorOfBandName(AqiScale.Moderate);
  }
}
