/**
 * The signal-based variation map (`map-variation/map-variation-optimized.component.ts`):
 * the same view, built on the data service's dictionaries and filter.
 */
module MapVariationOptimized {
  import opened Wrappers
  import opened MapInterfaces
  import opened MapData
  import MapVariation

  /**
   * `addVariationMarkers`' marker list: the service's valid features, each
   * mapped to a marker with the three-tier classification.
   */
  function VariationMarkers(features: seq<SectionFeature>, variationMap: map<string, SectionInfo>, poblacion2024Map: map<string, int>)
    : (r: seq<MapVariation.Marker>)
    ensures var valid := FilterValidFeatures(features, variationMap, poblacion2024Map);
      && |r| == |valid|
      && forall i :: 0 <= i < |r| ==>
        && r[i].id == valid[i].id
        && valid[i].id in variationMap && valid[i].id in poblacion2024Map
        && IsTruthy(r[i].lat) && IsTruthy(r[i].long)
        && r[i].variation == poblacion2024Map[valid[i].id] - variationMap[valid[i].id].population2011
        && r[i].tier == MapVariation.Classify(r[i].variation)
        && r[i].colorTooltip == MapVariation.TooltipClass(r[i].tier)
        && r[i].tooltip == MapVariation.Tooltip(r[i].variation)
        && MapVariation.TooltipValue(r[i].tooltip) == Some(r[i].variation)
  {
    var valid := FilterValidFeatures(features, variationMap, poblacion2024Map);
    assert forall i :: 0 <= i < |valid| ==> valid[i] in valid;
    MapVariation.MarkersOf(valid, variationMap, poblacion2024Map)
  }

  /**
   * The refactored component computes the same markers as the original one
   * (the original also stores `variacion` in its marker object, the refactored
   * one only uses it for the tooltip and the tier).
   */
  lemma SameMarkersAsOriginal(features: seq<SectionFeature>, variationMap: map<string, SectionInfo>, poblacion2024Map: map<string, int>)
    ensures VariationMarkers(features, variationMap, poblacion2024Map)
         == MapVariation.VariationMarkers(features, variationMap, poblacion2024Map)
  {
    MapVariation.TwoFiltersAreOne(features, variationMap, poblacion2024Map);
  }

  /** The markers the `forEach` actually places: those with truthy latitude and longitude. */
  function PlacedMarkers(markers: seq<MapVariation.Marker>): (r: seq<MapVariation.Marker>)
    ensures IsSubsequence(r, markers)
    ensures forall m :: m in r ==> IsTruthy(m.lat) && IsTruthy(m.long)
    ensures forall m :: m in markers && IsTruthy(m.lat) && IsTruthy(m.long) ==> m in r
    ensures forall m {:trigger multiset(r)[m]} :: multiset(r)[m] == if IsTruthy(m.lat) && IsTruthy(m.long) then multiset(markers)[m] else 0
  {
    if markers == [] then []
    else
      var rest := PlacedMarkers(markers[1..]);
      assert markers == [markers[0]] + markers[1..];
      if IsTruthy(markers[0].lat) && IsTruthy(markers[0].long) then [markers[0]] + rest else rest
  }

  lemma {:induction false} PlacedMarkersKeepsAll(markers: seq<MapVariation.Marker>)
    requires forall m :: m in markers ==> IsTruthy(m.lat) && IsTruthy(m.long)
    ensures PlacedMarkers(markers) == markers
  {
    if markers != [] {
      PlacedMarkersKeepsAll(markers[1..]);
      assert [markers[0]] + markers[1..] == markers;
    }
  }

  /** The placement guard `point.lat && point.long` never drops a marker built from valid features. */
  lemma EveryMarkerPlaced(features: seq<SectionFeature>, variationMap: map<string, SectionInfo>, poblacion2024Map: map<string, int>)
    ensures var markers := VariationMarkers(features, variationMap, poblacion2024Map);
      PlacedMarkers(markers) == markers
  {
    var markers := VariationMarkers(features, variationMap, poblacion2024Map);
    forall m | m in markers ensures IsTruthy(m.lat) && IsTruthy(m.long) {
      var i :| 0 <= i < |markers| && markers[i] == m;
    }
    PlacedMarkersKeepsAll(markers);
  }

  /**
   * The data part of `addVariationMarkers`: dictionaries from the service,
   * markers from the service's filter; the placement guard drops none of them.
   */
  method AddVariationMarkers(features: seq<SectionFeature>, variationRows: seq<CensusRecord>, poblacion2024Rows: seq<CensusRecord>)
    returns (markers: seq<MapVariation.Marker>)
    ensures markers == VariationMarkers(features, VariationTable(variationRows), Poblacion2024Table(poblacion2024Rows))
    ensures PlacedMarkers(markers) == markers
  {
    var variationMap := CreateVariationMap(variationRows);
    var poblacion2024Map := CreatePoblacion2024Map(poblacion2024Rows);
    markers := VariationMarkers(features, variationMap, poblacion2024Map);
    EveryMarkerPlaced(features, variationMap, poblacion2024Map);
  }

  /** The component's signals, as plain fields. */
  class MapVariationComponent {
    var showMap: bool
    var showPerimetroInfo: bool
    var showDistritoCentro: bool
    var showPerimetroIntramuros: bool
    var perimetroData: Option<PerimetroData>

    /** The modal is open exactly when there is perimeter data to show. */
    ghost predicate Valid()
      reads this
    {
      showPerimetroInfo <==> perimetroData.Some?
    }

    constructor ()
      ensures Valid()
      ensures showMap && !showPerimetroInfo && perimetroData == None
      ensures showDistritoCentro && showPerimetroIntramuros
    {
      showMap := true;
      showPerimetroInfo := false;
      showDistritoCentro := true;
      showPerimetroIntramuros := true;
      perimetroData := None;
    }

    method ToggleMap()
      requires Valid()
      modifies this
      ensures Valid()
      ensures showMap == !old(showMap)
      ensures showPerimetroInfo == old(showPerimetroInfo) && perimetroData == old(perimetroData)
      ensures showDistritoCentro == old(showDistritoCentro) && showPerimetroIntramuros == old(showPerimetroIntramuros)
    {
      showMap := !showMap;
    }

    /** Sets `perimetroData` from the service's first perimeter feature and opens the modal; without one, nothing changes. */
    method ShowPerimetroInformation(features: Option<seq<MapVariation.PerimeterFeature>>)
      requires Valid()
      modifies this
      ensures Valid()
      ensures MapVariation.FirstFeature(features).Some? ==>
        showPerimetroInfo && perimetroData == Some(MapVariation.PerimeterSummary(MapVariation.FirstFeature(features).value))
      ensures MapVariation.FirstFeature(features).None? ==>
        showPerimetroInfo == old(showPerimetroInfo) && perimetroData == old(perimetroData)
      ensures showMap == old(showMap)
      ensures showDistritoCentro == old(showDistritoCentro) && showPerimetroIntramuros == old(showPerimetroIntramuros)
    {
      var first := MapVariation.FirstFeature(features);
      if first.Some? {
        perimetroData := Some(MapVariation.PerimeterSummary(first.value));
        showPerimetroInfo := true;
      }
    }

    method ClosePerimetroInfo()
      requires Valid()
      modifies this
      ensures Valid()
      ensures !showPerimetroInfo && perimetroData == None
      ensures showMap == old(showMap)
      ensures showDistritoCentro == old(showDistritoCentro) && showPerimetroIntramuros == old(showPerimetroIntramuros)
    {
      showPerimetroInfo := false;
      perimetroData := None;
    }

    method ToggleDistritoCentro()
      requires Valid()
      modifies this
      ensures Valid()
      ensures showDistritoCentro == !old(showDistritoCentro)
      ensures showMap == old(showMap) && showPerimetroIntramuros == old(showPerimetroIntramuros)
      ensures showPerimetroInfo == old(showPerimetroInfo) && perimetroData == old(perimetroData)
    {
      showDistritoCentro := !showDistritoCentro;
    }

    method TogglePerimetroIntramuros()
      requires Valid()
      modifies this
      ensures Valid()
      ensures showPerimetroIntramuros == !old(showPerimetroIntramuros)
      ensures showMap == old(showMap) && showDistritoCentro == old(showDistritoCentro)
      ensures showPerimetroInfo == old(showPerimetroInfo) && perimetroData == old(perimetroData)
    {
      showPerimetroIntramuros := !showPerimetroIntramuros;
    }
  }
}
