/** The alert settings screen (src/pages/Alerts.tsx): the per-pollutant threshold table
    and the two quiet-hours pickers, whose options carry an unpadded hour as their value
    and a padded "HH:00" as their label. */
module Alerts {
  import opened JsString
  import opened Hours
  import opened Options
  import RealTimeData

  // ---------------------------------------------------------------------------
  // Thresholds
  // ---------------------------------------------------------------------------

  datatype Threshold = Threshold(name: string, current: real, unit: string, enabled: bool)

  const PollutantThresholds: seq<Threshold> := [
    Threshold("PM2.5", 25.0, "μg/m³", true),
    Threshold("PM10", 50.0, "μg/m³", true),
    Threshold("NO2", 40.0, "ppb", false),
    Threshold("O3", 70.0, "ppb", true),
    Threshold("SO2", 20.0, "ppb", false),
    Threshold("CO", 9.0, "ppm", false)
  ]

  /** Six pollutants with distinct names and positive thresholds; each threshold, with its
      unit, is the health limit the real-time screen measures that pollutant against. */
  lemma ThresholdsWellFormed()
    ensures |PollutantThresholds| == 6
    ensures forall i, j :: 0 <= i < j < 6 ==> PollutantThresholds[i].name != PollutantThresholds[j].name
    ensures forall i :: 0 <= i < 6 ==> PollutantThresholds[i].current > 0.0
    ensures forall i :: 0 <= i < 6 ==>
              PollutantThresholds[i].name == RealTimeData.Pollutants[i].name &&
              PollutantThresholds[i].current == RealTimeData.Pollutants[i].limit &&
              PollutantThresholds[i].unit == RealTimeData.Pollutants[i].unit
  {
  }

  // ---------------------------------------------------------------------------
  // Quiet hours
  // ---------------------------------------------------------------------------

  /** A picker entry: the value the picker stores and the caption (label) it shows. */
  datatype HourOption = HourOption(value: string, caption: string)

  /** The options of each quiet-hours picker: hour `i` from 0 to 23, with value
      `i.toString()` and label `HourLabel(i)`. */
  function QuietHourOptions(): (r: seq<HourOption>)
    ensures |r| == 24
    ensures forall i :: 0 <= i < 24 ==> r[i].value == NatToString(i) && r[i].caption == HourLabel(i)
  {
    seq(24, i requires 0 <= i < 24 => HourOption(NatToString(i), HourLabel(i)))
  }

  /** Values are the unpadded hours "0" to "23"; labels are five characters, the padded
      hour followed by ":00"; both are pairwise distinct, and reading a value back gives
      its hour. */
  lemma QuietHourOptionsShape()
    ensures forall i :: 0 <= i < 24 ==>
              ParseDigits(QuietHourOptions()[i].value) == i &&
              (QuietHourOptions()[i].value[0] == '0' ==> i == 0) &&
              |QuietHourOptions()[i].caption| == 5 && QuietHourOptions()[i].caption[2..] == ":00"
    ensures forall i, j :: 0 <= i < j < 24 ==>
              QuietHourOptions()[i].value != QuietHourOptions()[j].value &&
              QuietHourOptions()[i].caption != QuietHourOptions()[j].caption
  {
    var opts := QuietHourOptions();
    forall i | 0 <= i < 24
      ensures ParseDigits(opts[i].value) == i && |opts[i].caption| == 5 && opts[i].caption[2..] == ":00"
    {
      ParseNatToString(i);
      HourLabelDigits(i);
    }
    forall i, j | 0 <= i < j < 24
      ensures opts[i].value != opts[j].value && opts[i].caption != opts[j].caption
    {
      ParseNatToString(i);
      ParseNatToString(j);
      HourLabelDigits(i);
      HourLabelDigits(j);
    }
  }

  /** The option a picker shows for a stored value, found by scanning the options in order. */
  function Selected(options: seq<HourOption>, value: string): (r: Option<HourOption>)
    ensures r.Some? ==> r.value in options && r.value.value == value
    ensures r.None? ==> forall o :: o in options ==> o.value != value
  {
    if options == [] then None
    else if options[0].value == value then Some(options[0])
    else Selected(options[1..], value)
  }

  /** Among options with distinct values, a value selects the one option carrying it. */
  lemma {:induction false} SelectedDistinct(options: seq<HourOption>, h: nat)
    requires h < |options|
    requires forall i, j :: 0 <= i < j < |options| ==> options[i].value != options[j].value
    ensures Selected(options, options[h].value) == Some(options[h])
  {
    if h > 0 {
      assert options[0].value != options[h].value;
      assert options[1..][h - 1] == options[h];
      SelectedDistinct(options[1..], h - 1);
    }
  }

  /** The value `NatToString(h)` selects hour `h`'s option. */
  lemma SelectedHour(h: nat)
    requires h < 24
    ensures Selected(QuietHourOptions(), NatToString(h)) == Some(HourOption(NatToString(h), HourLabel(h)))
  {
    QuietHourOptionsShape();
    SelectedDistinct(QuietHourOptions(), h);
  }

  /** The "From" picker's default value. */
  const QuietFromDefault: string := "22"

  /** The "To" picker's default value as written in the source. */
  const QuietToDefault: string := "07"

  /** The "To" default as evidently intended: 7 o'clock, written as the options write it. */
  const QuietToDefaultIntended: string := "7"

  /** The "From" default selects 22:00. */
  lemma FromDefaultSelects2200()
    ensures Selected(QuietHourOptions(), QuietFromDefault) == Some(HourOption("22", "22:00"))
  {
    assert NatToString(2) == "2";
    assert NatToString(22) == "22";
    HourLabelShape(22);
    assert HourLabel(22) == "22:00";
    SelectedHour(22);
  }

  /** "07" is no option's value: values are unpadded, so a value starting with '0' is
      "0" itself. The "To" picker therefore starts with nothing selected. */
  lemma ToDefaultMatchesNoOption()
    ensures Selected(QuietHourOptions(), QuietToDefault) == None
  {
    var opts := QuietHourOptions();
    forall i | 0 <= i < 24 ensures opts[i].value != QuietToDefault {
      var s := NatToString(i);
      assert opts[i].value == s;
      assert s[0] != '0' || |s| == 1;
    }
    assert forall o :: o in opts ==> o.value != QuietToDefault;
  }

  /** The corrected "To" default selects 07:00. */
  lemma IntendedToDefaultSelects0700()
    ensures Selected(QuietHourOptions(), QuietToDefaultIntended) == Some(HourOption("7", "07:00"))
  {
    assert NatToString(7) == "7";
    HourLabelShape(7);
    assert HourLabel(7) == "07:00";
    SelectedHour(7);
  }
}
