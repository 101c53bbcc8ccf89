/** `getStatusColor`, the badge colour of a status label, which the forecast and the
    real-time screens define identically: a case-insensitive match on four band names
    with a gray default. */
module StatusBadge {
  import opened JsString
  import opened AqiScale
  import opened Options

  const GreenBadge: string := "text-green-600 bg-green-100"
  const YellowBadge: string := "text-yellow-600 bg-yellow-100"
  const OrangeBadge: string := "text-orange-600 bg-orange-100"
  const RedBadge: string := "text-red-600 bg-red-100"
  const GrayBadge: string := "text-gray-600 bg-gray-100"

  /** `status.toLowerCase()` switched over four lower-case labels, gray otherwise. */
  function StatusColor(status: string): (r: string)
    ensures r == match NamedBand(status)
                 case Some(b) => BandBadge(b)
                 case None => GrayBadge
  {
    match ToLower(status)
    case "good" => GreenBadge
    case "moderate" => YellowBadge
    case "unhealthy for sensitive groups" => OrangeBadge
    case "unhealthy" => RedBadge
    case _ => GrayBadge
  }

  /** The badge each EPA band's label gets: the four lower bands have colours of their
      own, while "Very Unhealthy" and "Hazardous" have no case and fall to gray. */
  function BandBadge(b: Band): string {
    match b
    case Good => GreenBadge
    case Moderate => YellowBadge
    case SensitiveGroups => OrangeBadge
    case Unhealthy => RedBadge
    case VeryUnhealthy => GrayBadge
    case Hazardous => GrayBadge
  }

  /** The lower-case form of each band's name; the first four are the cases of the
      switch in `getStatusColor`. */
  function LowerName(b: Band): string {
    match b
    case Good => "good"
    case Moderate => "moderate"
    case SensitiveGroups => "unhealthy for sensitive groups"
    case Unhealthy => "unhealthy"
    case VeryUnhealthy => "very unhealthy"
    case Hazardous => "hazardous"
  }

  /** The EPA band whose name equals `status` up to case, if there is one. */
  function NamedBand(status: string): (r: Option<Band>)
    ensures r.Some? ==> ToLower(status) == LowerName(r.value)
    ensures r.None? ==> forall b :: ToLower(status) != LowerName(b)
  {
    var l := ToLower(status);
    if l == LowerName(Good) then Some(Good)
    else if l == LowerName(Moderate) then Some(Moderate)
    else if l == LowerName(SensitiveGroups) then Some(SensitiveGroups)
    else if l == LowerName(Unhealthy) then Some(Unhealthy)
    else if l == LowerName(VeryUnhealthy) then Some(VeryUnhealthy)
    else if l == LowerName(Hazardous) then Some(Hazardous)
    else None
  }

  /** The longest band name and its lower-case form, each split after "for ". */
  lemma SensitiveGroupsWords()
    ensures "Unhealthy for Sensitive Groups" == "Unhealthy for " + "Sensitive Groups"
    ensures "unhealthy for sensitive groups" == "unhealthy for " + "sensitive groups"
  {
  }

  /** The two halves of the longest band name, lower-cased. */
  lemma LowerSensitiveGroupsWords()
    ensures ToLower("Unhealthy for ") == "unhealthy for "
    ensures ToLower("Sensitive Groups") == "sensitive groups"
  {
  }

  /** The longest band name lower-cased, half by half. */
  lemma LowerSensitiveGroups()
    ensures ToLower(BandName(SensitiveGroups)) == LowerName(SensitiveGroups)
  {
    SensitiveGroupsWords();
    LowerSensitiveGroupsWords();
    ToLowerAppend("Unhealthy for ", "Sensitive Groups");
  }

  /** `LowerName` is the band's EPA name lower-cased, for each of the six bands. */
  lemma LowerBandNames(b: Band)
    ensures ToLower(BandName(b)) == LowerName(b)
  {
    if b == SensitiveGroups {
      LowerSensitiveGroups();
    }
  }

  /** A label names a band exactly when it equals that band's EPA name up to case. */
  lemma NamedBandIffName(status: string, b: Band)
    ensures NamedBand(status) == Some(b) <==> ToLower(status) == ToLower(BandName(b))
  {
    LowerBandNames(b);
    var r := NamedBand(status);
    if r.Some? && r.value != b {
      assert LowerName(r.value) != LowerName(b);
    }
  }

  /** A band's own name gets that band's badge: green, yellow, orange and red for the
      four lower bands, gray for the two highest. */
  lemma StatusColorOfBandName(b: Band)
    ensures StatusColor(BandName(b)) == BandBadge(b)
    ensures BandBadge(b) == GrayBadge <==> Index(b) >= 4
  {
    NamedBandIffName(BandName(b), b);
  }

  /** The badge depends on the label only up to case: "GOOD" and "good" look the same. */
  lemma StatusColorIgnoresCase(status: string)
    ensures StatusColor(status) == StatusColor(ToLower(status))
  {
    ToLowerIdempotent(status);
  }

  /** Upper-case "GOOD" is green like "Good"; a label that names no band, such as
      "Unknown", is gray. */
  lemma StatusColorExamples()
    ensures StatusColor("GOOD") == GreenBadge
    ensures StatusColor("Unknown") == GrayBadge
  {
    assert ToLower("GOOD") == LowerName(Good);
    var u := ToLower("Unknown");
    assert u[1] == 'n';
  }
}
