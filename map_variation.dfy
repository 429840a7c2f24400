/**
 * The variation map (`map-variation/map-variation.component.ts`): the
 * three-tier marker classifier, the marker pipeline built from the two
 * dictionaries, and the component's toggle and modal state.
 */
module MapVariation {
  import opened Wrappers
  import opened Decimal
  import opened MapInterfaces
  import opened MapData

  /** The marker tiers: green icon, red icon, yellow icon. */
  datatype Tier = Positive | Negative | Neutral

  /** The three-tier classifier: above 50 is positive, below -50 negative, the rest neutral. */
  function Classify(variation: int): (t: Tier)
    ensures t == Positive <==> variation > 50
    ensures t == Negative <==> variation < -50
    ensures t == Neutral <==> -50 <= variation <= 50
  {
    if variation > 50 then Positive
    else if variation < -50 then Negative
    else Neutral
  }

  /** The tooltip's CSS class (`colorTooltip`), one per tier. */
  function TooltipClass(t: Tier): (c: string)
    ensures c == "tooltipPositive" <==> t == Positive
    ensures c == "tooltipNegative" <==> t == Negative
    ensures c == "tooltipNeutral" <==> t == Neutral
  {
    match t
    case Positive => "tooltipPositive"
    case Negative => "tooltipNegative"
    case Neutral => "tooltipNeutral"
  }

  /** Tiers in increasing order of variation. */
  function TierRank(t: Tier): nat
  {
    match t
    case Negative => 0
    case Neutral => 1
    case Positive => 2
  }

  /** A larger variation never lands in a lower tier. */
  lemma ClassifyMonotone(a: int, b: int)
    requires a <= b
    ensures TierRank(Classify(a)) <= TierRank(Classify(b))
  {
  }

  /** The permanent tooltip: the variation, with a '+' in front when it is positive. */
  function Tooltip(variation: int): (s: string)
    ensures |s| >= 1
    ensures s[0] == '+' <==> variation > 0
    ensures s[0] == '-' <==> variation < 0
  {
    (if variation > 0 then "+" else "") + IntToString(variation)
  }

  /** Reads a tooltip back: an optional '+' and then an integer. */
  function TooltipValue(s: string): Option<int>
  {
    if |s| > 0 && s[0] == '+' then ParseInteger(s[1..]) else ParseInteger(s)
  }

  lemma TooltipRoundTrip(variation: int)
    ensures TooltipValue(Tooltip(variation)) == Some(variation)
  {
    IntToStringRoundTrip(variation);
    var s := IntToString(variation);
    if variation > 0 {
      assert Tooltip(variation)[1..] == s;
    } else {
      assert Tooltip(variation) == s;
      assert s[0] != '+' by {
        if variation >= 0 { assert IsDigit(s[0]); }
      }
    }
  }

  /**
   * The data handed to Leaflet for one marker. The tier stands for the icon;
   * the popup HTML and the percentage are left out.
   */
  datatype Marker = Marker(
    id: string,
    name: string,
    population2011: int,
    population2024: int,
    variation: int,
    tier: Tier,
    tooltip: string,
    colorTooltip: string,
    lat: Coordinate,
    long: Coordinate)

  /** The marker of one feature whose id is in both dictionaries. */
  function MarkerFor(f: SectionFeature, variationMap: map<string, SectionInfo>, poblacion2024Map: map<string, int>): (m: Marker)
    requires f.id in variationMap && f.id in poblacion2024Map
    ensures m.id == f.id && m.lat == f.lat && m.long == f.long
    ensures m.name == variationMap[f.id].name
    ensures m.population2011 == variationMap[f.id].population2011
    ensures m.population2024 == poblacion2024Map[f.id]
    ensures m.variation == m.population2024 - m.population2011
    ensures m.tier == Classify(m.variation)
    ensures m.colorTooltip == TooltipClass(m.tier)
    ensures m.tooltip == Tooltip(m.variation)
    ensures m.tooltip[0] == '+' <==> m.variation > 0
    ensures TooltipValue(m.tooltip) == Some(m.variation)
  {
    var info := variationMap[f.id];
    var variation := poblacion2024Map[f.id] - info.population2011;
    TooltipRoundTrip(variation);
    var tier := Classify(variation);
    Marker(f.id, info.name, info.population2011, poblacion2024Map[f.id], variation,
           tier, Tooltip(variation), TooltipClass(tier), f.lat, f.long)
  }

  /** The `.map` step: one marker per feature, in order. */
  function MarkersOf(features: seq<SectionFeature>, variationMap: map<string, SectionInfo>, poblacion2024Map: map<string, int>)
    : (r: seq<Marker>)
    requires forall f :: f in features ==> f.id in variationMap && f.id in poblacion2024Map
    ensures |r| == |features|
    ensures forall i :: 0 <= i < |r| ==>
      && r[i].id == features[i].id
      && r[i].lat == features[i].lat && r[i].long == features[i].long
      && r[i].population2011 == variationMap[features[i].id].population2011
      && r[i].population2024 == poblacion2024Map[features[i].id]
      && r[i].variation == r[i].population2024 - r[i].population2011
      && r[i].tier == Classify(r[i].variation)
      && r[i].colorTooltip == TooltipClass(r[i].tier)
      && r[i].tooltip == Tooltip(r[i].variation)
      && TooltipValue(r[i].tooltip) == Some(r[i].variation)
  {
    seq(|features|, i requires 0 <= i < |features| => MarkerFor(features[i], variationMap, poblacion2024Map))
  }

  /** The first `.filter`: the feature's id is in both dictionaries. */
  function FilterJoined(features: seq<SectionFeature>, variationMap: map<string, SectionInfo>, poblacion2024Map: map<string, int>)
    : (r: seq<SectionFeature>)
    ensures IsSubsequence(r, features)
    ensures forall f {:trigger multiset(r)[f]} ::
      multiset(r)[f] == if f.id in variationMap && f.id in poblacion2024Map then multiset(features)[f] else 0
  {
    if features == [] then []
    else
      var rest := FilterJoined(features[1..], variationMap, poblacion2024Map);
      assert features == [features[0]] + features[1..];
      var f := features[0];
      if f.id in variationMap && f.id in poblacion2024Map then [f] + rest else rest
  }

  /** The second `.filter`: latitude and longitude are truthy. */
  function FilterCoords(features: seq<SectionFeature>): (r: seq<SectionFeature>)
    ensures IsSubsequence(r, features)
    ensures forall f {:trigger multiset(r)[f]} ::
      multiset(r)[f] == if IsTruthy(f.lat) && IsTruthy(f.long) then multiset(features)[f] else 0
  {
    if features == [] then []
    else
      var rest := FilterCoords(features[1..]);
      assert features == [features[0]] + features[1..];
      if IsTruthy(features[0].lat) && IsTruthy(features[0].long) then [features[0]] + rest else rest
  }

  /** The two filters in a row keep exactly what the service's single filter keeps. */
  lemma {:induction false} TwoFiltersAreOne(features: seq<SectionFeature>, variationMap: map<string, SectionInfo>, poblacion2024Map: map<string, int>)
    ensures FilterCoords(FilterJoined(features, variationMap, poblacion2024Map))
         == FilterValidFeatures(features, variationMap, poblacion2024Map)
  {
    if features != [] {
      TwoFiltersAreOne(features[1..], variationMap, poblacion2024Map);
      var f := features[0];
      var rest := FilterJoined(features[1..], variationMap, poblacion2024Map);
      if f.id in variationMap && f.id in poblacion2024Map {
        assert ([f] + rest)[1..] == rest;
      }
    }
  }

  /**
   * The marker pipeline of this component: filter on both dictionaries, filter
   * on coordinates, then build one marker per remaining feature.
   */
  function VariationMarkers(features: seq<SectionFeature>, variationMap: map<string, SectionInfo>, poblacion2024Map: map<string, int>)
    : (r: seq<Marker>)
    ensures |r| == |FilterValidFeatures(features, variationMap, poblacion2024Map)|
    ensures forall i :: 0 <= i < |r| ==>
      && r[i].id == FilterValidFeatures(features, variationMap, poblacion2024Map)[i].id
      && r[i].id in variationMap && r[i].id in poblacion2024Map
      && IsTruthy(r[i].lat) && IsTruthy(r[i].long)
      && r[i].variation == poblacion2024Map[r[i].id] - variationMap[r[i].id].population2011
      && r[i].tier == Classify(r[i].variation)
      && r[i].colorTooltip == TooltipClass(r[i].tier)
      && r[i].tooltip == Tooltip(r[i].variation)
      && TooltipValue(r[i].tooltip) == Some(r[i].variation)
  {
    var valid := FilterCoords(FilterJoined(features, variationMap, poblacion2024Map));
    TwoFiltersAreOne(features, variationMap, poblacion2024Map);
    assert forall i :: 0 <= i < |valid| ==> valid[i] in valid;
    MarkersOf(valid, variationMap, poblacion2024Map)
  }

  /** Each kept feature has a marker. */
  lemma EveryValidFeatureHasMarker(features: seq<SectionFeature>, variationMap: map<string, SectionInfo>, poblacion2024Map: map<string, int>, f: SectionFeature)
    requires f in features && IsValidFeature(f, variationMap, poblacion2024Map)
    ensures exists m :: m in VariationMarkers(features, variationMap, poblacion2024Map) && m.id == f.id
  {
    var valid := FilterValidFeatures(features, variationMap, poblacion2024Map);
    var markers := VariationMarkers(features, variationMap, poblacion2024Map);
    var i :| 0 <= i < |valid| && valid[i] == f;
    assert markers[i] in markers;
  }

  /**
   * The data part of `initializeMap`: build both dictionaries from the raw
   * tables (the inline copy of the service's codec), then the markers.
   * Everything a marker shows is traced back to the last record with its key.
   */
  method BuildVariationMarkers(features: seq<SectionFeature>, variationRows: seq<CensusRecord>, poblacion2024Rows: seq<CensusRecord>)
    returns (markers: seq<Marker>)
    ensures markers == VariationMarkers(features, VariationTable(variationRows), Poblacion2024Table(poblacion2024Rows))
    ensures forall m :: m in markers ==>
      && LastKeyed(variationRows, m.id) >= 0
      && LastKeyed(poblacion2024Rows, m.id) >= 0
      && m.population2011 == variationRows[LastKeyed(variationRows, m.id)].population
      && m.population2024 == poblacion2024Rows[LastKeyed(poblacion2024Rows, m.id)].population
      && m.name == variationRows[LastKeyed(variationRows, m.id)].name
      && m.variation == m.population2024 - m.population2011
      && IsTruthy(m.lat) && IsTruthy(m.long)
    ensures forall f ::
      (f in features && LastKeyed(variationRows, f.id) >= 0 && LastKeyed(poblacion2024Rows, f.id) >= 0
       && IsTruthy(f.lat) && IsTruthy(f.long))
      ==> exists m :: m in markers && m.id == f.id
  {
    var variationMap := CreateVariationMap(variationRows);
    var poblacion2024Map := CreatePoblacion2024Map(poblacion2024Rows);
    markers := VariationMarkers(features, variationMap, poblacion2024Map);
    forall f | f in features && LastKeyed(variationRows, f.id) >= 0 && LastKeyed(poblacion2024Rows, f.id) >= 0
      && IsTruthy(f.lat) && IsTruthy(f.long)
      ensures exists m :: m in markers && m.id == f.id
    {
      EveryValidFeatureHasMarker(features, variationMap, poblacion2024Map, f);
    }
  }

  // ---- Perimeter information modal ----

  /** A vertex of a GeoJSON ring. */
  datatype Position = Position(lng: real, lat: real)

  /** The optional properties of the perimeter feature. */
  datatype PerimeterProperties = PerimeterProperties(
    name: Option<string>,
    methodName: Option<string>,
    sectionCount: Option<int>,
    sections: Option<seq<string>>,
    description: Option<string>)

  /** The first feature of the perimeter file: its properties and its rings (`geometry.coordinates`). */
  datatype PerimeterFeature = PerimeterFeature(properties: PerimeterProperties, coordinates: Option<seq<seq<Position>>>)

  const DefaultName := "Perímetro Real de Secciones"
  const DefaultMethod := "polygon-union"
  const DefaultDescription := "Perímetro exterior exacto obtenido por unión de polígonos"

  /** `value || default` for a string property: absent or empty falls back. */
  function OrDefault(value: Option<string>, default: string): (r: string)
    ensures value.Some? && value.value != "" ==> r == value.value
    ensures value.None? || value.value == "" ==> r == default
    ensures default != "" ==> r != ""
  {
    if value.Some? && value.value != "" then value.value else default
  }

  /** `pointsCount`: vertices of the first ring without the closing repeat, or 'N/A'. */
  function PointsCountOf(coordinates: Option<seq<seq<Position>>>): (p: PointsCount)
    ensures p.Count? <==> coordinates.Some? && |coordinates.value| > 0 && |coordinates.value[0]| > 0
    ensures p.Count? ==> 0 <= p.n && p.n + 1 == |coordinates.value[0]|
  {
    if coordinates.Some? && |coordinates.value| > 0 && |coordinates.value[0]| > 0
    then Count(|coordinates.value[0]| - 1)
    else NotAvailable
  }

  /** What `showPerimetroInformation` puts in `perimetroData` for a feature. */
  function PerimeterSummary(f: PerimeterFeature): (d: PerimetroData)
    ensures d.name != "" && d.methodName != "" && d.description != ""
    ensures d.name == DefaultName || f.properties.name == Some(d.name)
    ensures d.methodName == DefaultMethod || f.properties.methodName == Some(d.methodName)
    ensures d.description == DefaultDescription || f.properties.description == Some(d.description)
    ensures f.properties.name.Some? && f.properties.name.value != "" ==> d.name == f.properties.name.value
    ensures f.properties.methodName.Some? && f.properties.methodName.value != "" ==> d.methodName == f.properties.methodName.value
    ensures f.properties.description.Some? && f.properties.description.value != "" ==> d.description == f.properties.description.value
    ensures d.sectionCount == if f.properties.sectionCount.Some? then f.properties.sectionCount.value else 0
    ensures d.sections == if f.properties.sections.Some? then f.properties.sections.value else []
    ensures d.pointsCount == PointsCountOf(f.coordinates)
  {
    var p := f.properties;
    PerimetroData(
      OrDefault(p.name, DefaultName),
      OrDefault(p.methodName, DefaultMethod),
      if p.sectionCount.Some? then p.sectionCount.value else 0,
      if p.sections.Some? then p.sections.value else [],
      OrDefault(p.description, DefaultDescription),
      PointsCountOf(f.coordinates))
  }

  /** `perimetroRealData.features[0]`, when the list exists and is not empty. */
  function FirstFeature(features: Option<seq<PerimeterFeature>>): (r: Option<PerimeterFeature>)
    ensures r.Some? <==> features.Some? && |features.value| > 0
    ensures r.Some? ==> r.value == features.value[0]
  {
    if features.Some? && |features.value| > 0 then Some(features.value[0]) else None
  }

  /** The component's view state. */
  class MapVariationComponent {
    var showMap: bool
    var showPerimetroInfo: bool
    var perimetroData: Option<PerimetroData>
    var showDistritoCentro: bool
    var showPerimetroIntramuros: bool

    /** The modal is open exactly when there is perimeter data to show. */
    ghost predicate Valid()
      reads this
    {
      showPerimetroInfo <==> perimetroData.Some?
    }

    constructor ()
      ensures Valid()
      ensures showMap && !showPerimetroInfo && perimetroData == None
      ensures showDistritoCentro && showPerimetroIntramuros
    {
      showMap := true;
      showPerimetroInfo := false;
      perimetroData := None;
      showDistritoCentro := true;
      showPerimetroIntramuros := true;
    }

    /** Flips `showMap`; re-creating the Leaflet map is left out. */
    method ToggleMap()
      requires Valid()
      modifies this
      ensures Valid()
      ensures showMap == !old(showMap)
      ensures showPerimetroInfo == old(showPerimetroInfo) && perimetroData == old(perimetroData)
      ensures showDistritoCentro == old(showDistritoCentro) && showPerimetroIntramuros == old(showPerimetroIntramuros)
    {
      showMap := !showMap;
    }

    /** Opens the modal with the summary of the first perimeter feature, if there is one. */
    method ShowPerimetroInformation(features: Option<seq<PerimeterFeature>>)
      requires Valid()
      modifies this
      ensures Valid()
      ensures FirstFeature(features).Some? ==>
        showPerimetroInfo && perimetroData == Some(PerimeterSummary(FirstFeature(features).value))
      ensures FirstFeature(features).None? ==>
        showPerimetroInfo == old(showPerimetroInfo) && perimetroData == old(perimetroData)
      ensures showMap == old(showMap)
      ensures showDistritoCentro == old(showDistritoCentro) && showPerimetroIntramuros == old(showPerimetroIntramuros)
    {
      var first := FirstFeature(features);
      if first.Some? {
        perimetroData := Some(PerimeterSummary(first.value));
        showPerimetroInfo := true;
      }
    }

    method ClosePerimetroInfo()
      requires Valid()
      modifies this
      ensures Valid()
      ensures !showPerimetroInfo && perimetroData == None
      ensures showMap == old(showMap)
      ensures showDistritoCentro == old(showDistritoCentro) && showPerimetroIntramuros == old(showPerimetroIntramuros)
    {
      showPerimetroInfo := false;
      perimetroData := None;
    }

    /** Flips `showDistritoCentro`, whether or not the layer exists; adding or removing the layer is left out. */
    method ToggleDistritoCentro()
      requires Valid()
      modifies this
      ensures Valid()
      ensures showDistritoCentro == !old(showDistritoCentro)
      ensures showMap == old(showMap) && showPerimetroIntramuros == old(showPerimetroIntramuros)
      ensures showPerimetroInfo == old(showPerimetroInfo) && perimetroData == old(perimetroData)
    {
      showDistritoCentro := !showDistritoCentro;
    }

    /** Flips `showPerimetroIntramuros`, whether or not the layer exists. */
    method TogglePerimetroIntramuros()
      requires Valid()
      modifies this
      ensures Valid()
      ensures showPerimetroIntramuros == !old(showPerimetroIntramuros)
      ensures showMap == old(showMap) && showDistritoCentro == old(showDistritoCentro)
      ensures showPerimetroInfo == old(showPerimetroInfo) && perimetroData == old(perimetroData)
    {
      showPerimetroIntramuros := !showPerimetroIntramuros;
    }
  }
}
