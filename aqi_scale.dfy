/** The six AQI categories of the US EPA "Technical Assistance Document for the
    Reporting of Daily Air Quality" (EPA-454/B-18-007), given as a table of inclusive
    upper breakpoints. The screens' colour rules are proved against this table. */
module AqiScale {

  datatype Band = Good | Moderate | SensitiveGroups | Unhealthy | VeryUnhealthy | Hazardous

  /** Inclusive upper AQI bound of each band but the last, in increasing order. */
  const Breakpoints: seq<int> := [50, 100, 150, 200, 300]

  predicate Increasing(bps: seq<int>) {
    forall i, j :: 0 <= i < j < |bps| ==> bps[i] < bps[j]
  }

  /** The number of breakpoints strictly below `aqi`. */
  function CountBelow(bps: seq<int>, aqi: int): (k: nat)
    ensures k <= |bps|
  {
    if bps == [] then 0 else (if bps[0] < aqi then 1 else 0) + CountBelow(bps[1..], aqi)
  }

  /** For increasing breakpoints, `aqi` lies in band `k` exactly when it is above
      breakpoint `k - 1` and at most breakpoint `k`: the bands are the half-open
      intervals `(bps[k-1], bps[k]]`. */
  lemma {:induction false} CountBelowInterval(bps: seq<int>, aqi: int, k: nat)
    requires Increasing(bps) && k <= |bps|
    ensures CountBelow(bps, aqi) == k <==>
              (k == 0 || bps[k - 1] < aqi) && (k == |bps| || aqi <= bps[k])
  {
    if bps != [] {
      var rest := bps[1..];
      assert Increasing(rest);
      // Below the first breakpoint nothing in `rest` is below `aqi` either.
      CountBelowInterval(rest, aqi, 0);
      if rest != [] { assert bps[0] < rest[0]; }
      if k > 0 {
        CountBelowInterval(rest, aqi, k - 1);
        if k >= 2 { assert rest[k - 2] == bps[k - 1]; }
        if k - 1 < |rest| { assert rest[k - 1] == bps[k]; }
        assert bps[0] <= bps[k - 1];
      }
    }
  }

  /** Raising the AQI never lowers the band index. */
  lemma {:induction false} CountBelowMonotone(bps: seq<int>, a: int, b: int)
    requires a <= b
    ensures CountBelow(bps, a) <= CountBelow(bps, b)
  {
    if bps != [] {
      CountBelowMonotone(bps[1..], a, b);
    }
  }

  function BandAt(k: nat): Band
    requires k <= 5
  {
    [Good, Moderate, SensitiveGroups, Unhealthy, VeryUnhealthy, Hazardous][k]
  }

  function Index(b: Band): (k: nat)
    ensures k <= 5 && BandAt(k) == b
  {
    match b
    case Good => 0
    case Moderate => 1
    case SensitiveGroups => 2
    case Unhealthy => 3
    case VeryUnhealthy => 4
    case Hazardous => 5
  }

  /** The EPA band of an AQI value: its position in the breakpoint table. Values at or
      below 50, negative ones included, are Good. */
  function BandOf(aqi: int): (b: Band)
    ensures Index(b) == CountBelow(Breakpoints, aqi)
  {
    BandAt(CountBelow(Breakpoints, aqi))
  }

  /** The band's name as the EPA table writes it. */
  function BandName(b: Band): string {
    match b
    case Good => "Good"
    case Moderate => "Moderate"
    case SensitiveGroups => "Unhealthy for Sensitive Groups"
    case Unhealthy => "Unhealthy"
    case VeryUnhealthy => "Very Unhealthy"
    case Hazardous => "Hazardous"
  }

  /** The band's colour in the EPA table, as a hex colour string. */
  function BandHexColor(b: Band): string {
    match b
    case Good => "#00e400"
    case Moderate => "#ffff00"
    case SensitiveGroups => "#ff7e00"
    case Unhealthy => "#ff0000"
    case VeryUnhealthy => "#8f3f97"
    case Hazardous => "#7e0023"
  }

  /** Each band is the interval between consecutive breakpoints, upper bound included. */
  lemma BandOfInterval(aqi: int, k: nat)
    requires k <= 5
    ensures BandOf(aqi) == BandAt(k) <==>
              (k == 0 || Breakpoints[k - 1] < aqi) && (k == 5 || aqi <= Breakpoints[k])
  {
    CountBelowInterval(Breakpoints, aqi, k);
  }

  /** The band index never decreases as the AQI grows. */
  lemma BandOfMonotone(a: int, b: int)
    requires a <= b
    ensures Index(BandOf(a)) <= Index(BandOf(b))
  {
    CountBelowMonotone(Breakpoints, a, b);
  }
}
