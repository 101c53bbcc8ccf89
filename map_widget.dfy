/** The map widget (src/components/Map.tsx): a token prompt guarding a map of five
    fixed locations whose markers are coloured by the six-band AQI colour rule. */
module MapWidget {
  import opened JsString
  import opened AqiScale
  import opened Options

  datatype Location = Location(name: string, lng: real, lat: real, aqi: int, status: string)

  /** The five sample cities the map and its summary cards show. */
  const MockLocations: seq<Location> := [
    Location("New Delhi", 77.2090, 28.6139, 156, "Unhealthy"),
    Location("Mumbai", 72.8777, 19.0760, 89, "Moderate"),
    Location("Bangalore", 77.5946, 12.9716, 65, "Moderate"),
    Location("Chennai", 80.2707, 13.0827, 78, "Moderate"),
    Location("Kolkata", 88.3639, 22.5726, 134, "Unhealthy for Sensitive Groups")
  ]

  // ---------------------------------------------------------------------------
  // Colour rule
  // ---------------------------------------------------------------------------

  /** `getAQIColor`: an if-chain over inclusive upper bounds 50, 100, 150, 200 and 300.
      It is the EPA colour of the EPA band of `aqi`, for every integer `aqi`. */
  function AqiColor(aqi: int): (c: string)
    ensures c == BandHexColor(BandOf(aqi))
  {
    BandOfInterval(aqi, Index(BandOf(aqi)));
    if aqi <= 50 then "#00e400"
    else if aqi <= 100 then "#ffff00"
    else if aqi <= 150 then "#ff7e00"
    else if aqi <= 200 then "#ff0000"
    else if aqi <= 300 then "#8f3f97"
    else "#7e0023"
  }

  /** The position of a colour in the EPA palette, from green (0) to maroon (5). */
  function PaletteIndex(c: string): (k: nat)
    ensures forall b :: c == BandHexColor(b) ==> k == Index(b)
  {
    if c == "#00e400" then 0
    else if c == "#ffff00" then 1
    else if c == "#ff7e00" then 2
    else if c == "#ff0000" then 3
    else if c == "#8f3f97" then 4
    else 5
  }

  /** A higher AQI never gets a colour earlier in the palette. */
  lemma AqiColorMonotone(a: int, b: int)
    requires a <= b
    ensures PaletteIndex(AqiColor(a)) <= PaletteIndex(AqiColor(b))
  {
    BandOfMonotone(a, b);
  }

  /** The breakpoints belong to the lower band; there is no error path below zero. */
  lemma AqiColorBoundaries()
    ensures AqiColor(-10) == "#00e400" && AqiColor(0) == "#00e400" && AqiColor(50) == "#00e400"
    ensures AqiColor(51) == "#ffff00" && AqiColor(100) == "#ffff00"
    ensures AqiColor(101) == "#ff7e00" && AqiColor(150) == "#ff7e00"
    ensures AqiColor(151) == "#ff0000" && AqiColor(200) == "#ff0000"
    ensures AqiColor(201) == "#8f3f97" && AqiColor(300) == "#8f3f97"
    ensures AqiColor(301) == "#7e0023"
  {
  }

  /** Every sample city's status text is the EPA name of its AQI's band. */
  lemma MockStatusesAreBandNames()
    ensures forall i :: 0 <= i < |MockLocations| ==>
              MockLocations[i].status == BandName(BandOf(MockLocations[i].aqi))
  {
    assert BandOf(156) == Unhealthy by { BandOfInterval(156, 3); }
    assert BandOf(134) == SensitiveGroups by { BandOfInterval(134, 2); }
    assert BandOf(89) == Moderate && BandOf(65) == Moderate && BandOf(78) == Moderate by {
      BandOfInterval(89, 1);
      BandOfInterval(65, 1);
      BandOfInterval(78, 1);
    }
  }

  // ---------------------------------------------------------------------------
  // What initialisation creates
  // ---------------------------------------------------------------------------

  const SatelliteStyle: string := "mapbox://styles/mapbox/satellite-v9"
  const LightStyle: string := "mapbox://styles/mapbox/light-v11"

  /** The style URL for the selected layer: satellite imagery for "satellite", the
      light street style for every other value. */
  function StyleFor(layer: string): (s: string)
    ensures s == SatelliteStyle <==> layer == "satellite"
    ensures s == LightStyle <==> layer != "satellite"
  {
    if layer == "satellite" then SatelliteStyle else LightStyle
  }

  /** A marker: a coloured dot at the location, with a popup giving its name, AQI and
      status. */
  datatype Marker = Marker(lng: real, lat: real, color: string, name: string, aqi: int, status: string)

  /** One marker per location, in order, each at the location's coordinates and coloured
      by the EPA colour of the location's band. */
  function Markers(locs: seq<Location>): (ms: seq<Marker>)
    ensures |ms| == |locs|
    ensures forall i :: 0 <= i < |locs| ==>
              ms[i].lng == locs[i].lng && ms[i].lat == locs[i].lat &&
              ms[i].color == BandHexColor(BandOf(locs[i].aqi)) &&
              ms[i].name == locs[i].name && ms[i].aqi == locs[i].aqi && ms[i].status == locs[i].status
  {
    seq(|locs|, i requires 0 <= i < |locs| =>
      var loc := locs[i];
      Marker(loc.lng, loc.lat, AqiColor(loc.aqi), loc.name, loc.aqi, loc.status))
  }

  /** The map's colours for the sample cities: red, yellow, yellow, yellow, orange. */
  lemma MockMarkerColors()
    ensures |Markers(MockLocations)| == 5
    ensures [Markers(MockLocations)[0].color, Markers(MockLocations)[1].color,
             Markers(MockLocations)[2].color, Markers(MockLocations)[3].color,
             Markers(MockLocations)[4].color]
         == ["#ff0000", "#ffff00", "#ffff00", "#ffff00", "#ff7e00"]
  {
    MockStatusesAreBandNames();
  }

  /** The map created by `initializeMap`: its access token, style, centre, zoom and markers. */
  datatype MapInstance = MapInstance(accessToken: string, style: string, centerLng: real,
                                     centerLat: real, zoom: int, markers: seq<Marker>)

  /** The map `initializeMap` creates for a token and a layer: centred on India at zoom 5,
      with one marker per sample city. */
  function NewMap(token: string, layer: string): (m: MapInstance)
    ensures m.accessToken == token && m.style == StyleFor(layer)
    ensures m.centerLng == 77.2090 && m.centerLat == 20.5937 && m.zoom == 5
    ensures m.markers == Markers(MockLocations)
  {
    MapInstance(token, StyleFor(layer), 77.2090, 20.5937, 5, Markers(MockLocations))
  }

  // ---------------------------------------------------------------------------
  // The component's state
  // ---------------------------------------------------------------------------

  /** The component's state: the token typed so far, the selected layer, whether the
      token prompt is shown, and the map most recently created (with a count of the
      creations so far). */
  class MapView {
    var mapboxToken: string
    var selectedLayer: string
    var showTokenInput: bool
    var current: Option<MapInstance>
    var initCount: nat

    /** The map is shown only after a token with visible characters was submitted, and
        every map created carries a non-empty token and one marker per sample city. */
    ghost predicate Valid()
      reads this
    {
      && (!showTokenInput ==> !AllWhitespace(mapboxToken))
      && (current.None? <==> initCount == 0)
      && (current.Some? ==> current.value.accessToken != [] &&
                            current.value.markers == Markers(MockLocations))
    }

    /** The map container is rendered, so its ref is attached, only while the map view is
        shown instead of the prompt. */
    predicate ContainerMounted(): (m: bool)
      reads this
      ensures m <==> !showTokenInput
      ensures m && Valid() ==> !AllWhitespace(mapboxToken)
    {
      !showTokenInput
    }

    /** The initial state: no token, satellite layer, prompt shown, no map. */
    constructor ()
      ensures Valid()
      ensures mapboxToken == "" && selectedLayer == "satellite" && showTokenInput
      ensures current == None && initCount == 0
    {
      mapboxToken := "";
      selectedLayer := "satellite";
      showTokenInput := true;
      current := None;
      initCount := 0;
    }

    /** Typing in the token input, which exists only while the prompt is shown. */
    method SetToken(token: string)
      requires Valid() && showTokenInput
      modifies this
      ensures Valid()
      ensures mapboxToken == token
      ensures showTokenInput && selectedLayer == old(selectedLayer)
      ensures current == old(current) && initCount == old(initCount)
    {
      mapboxToken := token;
    }

    /** `handleTokenSubmit`: leaves the prompt when the trimmed token is non-empty;
        with a blank token nothing changes. */
    method SubmitToken()
      requires Valid()
      modifies this
      ensures Valid()
      ensures showTokenInput == (old(showTokenInput) && Trim(mapboxToken) == [])
      ensures mapboxToken == old(mapboxToken) && selectedLayer == old(selectedLayer)
      ensures current == old(current) && initCount == old(initCount)
    {
      if Trim(mapboxToken) != [] {
        showTokenInput := false;
      }
    }

    /** "Change Token": shows the prompt again and keeps the token typed before. */
    method ChangeToken()
      requires Valid()
      modifies this
      ensures Valid()
      ensures showTokenInput
      ensures mapboxToken == old(mapboxToken) && selectedLayer == old(selectedLayer)
      ensures current == old(current) && initCount == old(initCount)
    {
      showTokenInput := true;
    }

    /** Choosing a layer in the selector, which exists only while the map view is shown. */
    method SelectLayer(layer: string)
      requires Valid() && !showTokenInput
      modifies this
      ensures Valid()
      ensures selectedLayer == layer
      ensures mapboxToken == old(mapboxToken) && showTokenInput == old(showTokenInput)
      ensures current == old(current) && initCount == old(initCount)
    {
      selectedLayer := layer;
    }

    /** `initializeMap`: does nothing without a mounted container or with an empty
        token; otherwise creates a map with the token, the selected layer's style, the
        fixed centre and zoom, and one marker per sample city. */
    method InitializeMap()
      requires Valid()
      modifies this
      ensures Valid()
      ensures mapboxToken == old(mapboxToken) && selectedLayer == old(selectedLayer)
      ensures showTokenInput == old(showTokenInput)
      ensures if !old(ContainerMounted()) || mapboxToken == [] then
                current == old(current) && initCount == old(initCount)
              else
                current == Some(NewMap(mapboxToken, selectedLayer)) &&
                initCount == old(initCount) + 1
    {
      if ContainerMounted() && mapboxToken != [] {
        var m := NewMap(mapboxToken, selectedLayer);
        current := Some(m);
        initCount := initCount + 1;
      }
    }

    /** The effect run after a render that changed the token, the layer or the prompt
        flag: initialises the map when the token is non-empty and the prompt is hidden. */
    method RunEffect()
      requires Valid()
      modifies this
      ensures Valid()
      ensures mapboxToken == old(mapboxToken) && selectedLayer == old(selectedLayer)
      ensures showTokenInput == old(showTokenInput)
      ensures if mapboxToken != [] && !showTokenInput then
                current == Some(NewMap(mapboxToken, selectedLayer)) &&
                initCount == old(initCount) + 1
              else
                current == old(current) && initCount == old(initCount)
    {
      if mapboxToken != [] && !showTokenInput {
        InitializeMap();
      }
    }
  }

  // ---------------------------------------------------------------------------
  // Sessions
  // ---------------------------------------------------------------------------

  /** Submitting without typing keeps the prompt, and the effect creates no map. */
  method EmptyTokenSession() returns (promptShown: bool, inits: nat)
    ensures promptShown && inits == 0
  {
    var view := new MapView();
    view.SubmitToken();
    view.RunEffect();
    promptShown, inits := view.showTokenInput, view.initCount;
  }

  /** A token made only of whitespace (spaces, tabs, line breaks) is refused like an
      empty one: the prompt stays and no map is created. */
  method BlankTokenSession(token: string) returns (promptShown: bool, inits: nat)
    requires AllWhitespace(token)
    ensures promptShown && inits == 0
  {
    var view := new MapView();
    view.SetToken(token);
    view.SubmitToken();
    view.RunEffect();
    promptShown, inits := view.showTokenInput, view.initCount;
  }

  /** Typing a token with a visible character and submitting it: the effect runs once
      before the submit (creating nothing, the prompt still shows) and once after it,
      creating the first map in the initial satellite layer. */
  method OpenMap(token: string) returns (view: MapView)
    requires !AllWhitespace(token)
    ensures fresh(view) && view.Valid()
    ensures view.mapboxToken == token && view.selectedLayer == "satellite" && !view.showTokenInput
    ensures view.current == Some(NewMap(token, "satellite")) && view.initCount == 1
  {
    view := new MapView();
    view.SetToken(token);
    view.RunEffect();
    view.SubmitToken();
    view.RunEffect();
  }

  /** With a token that has a visible character, so that `trim()` leaves it non-empty,
      the first map is always the satellite map, since the layer selector only appears
      once the prompt is gone; choosing "street" afterwards creates a second map, in the
      light style, with the same five markers. */
  method TokenSession(token: string) returns (first: MapInstance, second: MapInstance, inits: nat)
    requires !AllWhitespace(token)
    ensures first.style == SatelliteStyle && first.accessToken == token
    ensures second.style == LightStyle && second.accessToken == token
    ensures |first.markers| == 5 && second.markers == first.markers
    ensures inits == 2
  {
    var view := OpenMap(token);
    first := view.current.value;
    view.SelectLayer("street");
    view.RunEffect();
    second := view.current.value;
    inits := view.initCount;
    assert |MockLocations| == 5;
  }

  /** For a token with a visible character, "Change Token" keeps it: submitting it again
      brings the map back in the layer chosen before. */
  method ChangeTokenSession(token: string) returns (promptAfterChange: bool, kept: string, again: MapInstance)
    requires !AllWhitespace(token)
    ensures promptAfterChange && kept == token
    ensures again.style == LightStyle && again.accessToken == token
  {
    var view := OpenMap(token);
    view.SelectLayer("street");
    view.RunEffect();
    view.ChangeToken();
    view.RunEffect();
    promptAfterChange, kept := view.showTokenInput, view.mapboxToken;
    view.SubmitToken();
    view.RunEffect();
    again := view.current.value;
  }
}
