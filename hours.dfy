/** The clock-hour label `${i.toString().padStart(2, '0')}:00` that the hourly forecast
    and both quiet-hours pickers show. */
module Hours {
  import opened JsString

  /** The label of hour `i`: its decimal digits padded with '0' to two characters,
      followed by ":00". */
  function HourLabel(i: nat): (r: string)
    ensures |r| >= 5 && r[|r| - 3..] == ":00"
    ensures forall k :: 0 <= k < |r| - 3 ==> IsDigit(r[k])
    ensures ParseDigits(r[..|r| - 3]) == i
  {
    var digits := PadStart(NatToString(i), 2, '0');
    ParseNatToString(i);
    ParsePadStart(NatToString(i), 2);
    assert (digits + ":00")[..|digits|] == digits;
    digits + ":00"
  }

  /** The label of a clock hour is five characters: its tens digit, its units digit,
      then ":00". */
  lemma HourLabelShape(i: nat)
    requires i < 24
    ensures HourLabel(i) == [DigitChar(i / 10), DigitChar(i % 10), ':', '0', '0']
  {
    var s := NatToString(i);
    if i < 10 {
      assert s == [DigitChar(i)];
    } else {
      assert NatToString(i / 10) == [DigitChar(i / 10)];
      assert s == [DigitChar(i / 10), DigitChar(i % 10)];
    }
  }

  /** Reading the two digits of a label back gives its hour. */
  lemma HourLabelDigits(i: nat)
    requires i < 24
    ensures |HourLabel(i)| == 5 && HourLabel(i)[2..] == ":00"
    ensures IsDigit(HourLabel(i)[0]) && IsDigit(HourLabel(i)[1])
    ensures DigitValue(HourLabel(i)[0]) * 10 + DigitValue(HourLabel(i)[1]) == i
  {
    HourLabelShape(i);
  }

  /** Different clock hours get different labels. */
  lemma HourLabelInjective(i: nat, j: nat)
    requires i < 24 && j < 24 && HourLabel(i) == HourLabel(j)
    ensures i == j
  {
    HourLabelDigits(i);
    HourLabelDigits(j);
  }
}
