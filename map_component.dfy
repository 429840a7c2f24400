/**
 * The district map (`map/map.component.ts`): the highlight style of the
 * census sections, the popup condition, and the outline coordinate arrays.
 */
module MapComponent {
  import opened Wrappers
  import opened MapInterfaces
  import MapData

  /** A Leaflet path style. */
  datatype Style = Style(color: string, fillColor: string, fillOpacity: real)

  /** The style every section starts from: green border and fill, fill opacity 0.1. */
  const DefaultStyle := Style("green", "green", 0.1)

  /** The 23 sections of the Centro district that are highlighted. */
  const CentroSections: set<string> := {
    "01-001", "01-002", "01-003", "01-004", "01-005",
    "02-001", "02-002", "02-003", "02-005", "02-006", "02-007", "02-008",
    "02-011", "02-012", "02-013", "02-017",
    "02-022", "02-023", "02-024", "02-025",
    "03-010", "03-015", "03-018"
  }

  /** The `style` callback: Centro sections get a blue border and red fill; all others the default. */
  function FeatureStyle(f: SectionFeature): (s: Style)
    ensures s.fillOpacity == DefaultStyle.fillOpacity
    ensures f.id in CentroSections <==> s.color == "blue"
    ensures f.id in CentroSections <==> s.fillColor == "red"
    ensures f.id !in CentroSections ==> s == DefaultStyle
  {
    var style := DefaultStyle;
    if f.id in CentroSections then style.(color := "blue", fillColor := "red") else style
  }

  /** The style sees nothing of a feature but its id. */
  lemma StyleDependsOnlyOnId(f: SectionFeature, g: SectionFeature)
    requires f.id == g.id
    ensures FeatureStyle(f) == FeatureStyle(g)
  {
  }

  /** Every highlighted id is a well-formed key that a ten-digit code of the municipality (11020…) produces. */
  lemma CentroSectionsAreSectionKeys(id: string)
    requires id in CentroSections
    ensures MapData.IsSectionKey(id)
    ensures MapData.SectionId("11020" + MapData.KeySuffix(id)) == Some(id)
  {
    var code := "11020" + MapData.KeySuffix(id);
    assert code[5..] == MapData.KeySuffix(id);
    assert id == id[..2] + "-" + id[3..];
  }

  /** The `onEachFeature` popup: bound only when the feature has a non-empty id. */
  function Popup(id: Option<string>): (p: Option<string>)
    ensures p.Some? <==> id.Some? && id.value != ""
    ensures p.Some? ==> |p.value| == 4 + |id.value| && p.value[..4] == "ID: " && p.value[4..] == id.value
  {
    if id.Some? && id.value != "" then Some("ID: " + id.value) else None
  }

  /** A vertex of the `ds02021` outline, whose longitude field is called `long`. */
  datatype LatLong = LatLong(lat: real, long: real)

  /** The `forEach`/`push` conversion of `{lat, lng}` vertices into `[lat, lng]` pairs. */
  method ToLatLngArray(points: seq<Coordinates>) returns (pairs: seq<(real, real)>)
    ensures |pairs| == |points|
    ensures forall i :: 0 <= i < |points| ==> pairs[i] == (points[i].lat, points[i].lng)
  {
    pairs := [];
    var i := 0;
    while i < |points|
      invariant 0 <= i <= |points|
      invariant |pairs| == i
      invariant forall k :: 0 <= k < i ==> pairs[k] == (points[k].lat, points[k].lng)
    {
      pairs := pairs + [(points[i].lat, points[i].lng)];
      i := i + 1;
    }
  }

  /** The same conversion for `ds02021`, reading `.long`. */
  method ToLatLongArray(points: seq<LatLong>) returns (pairs: seq<(real, real)>)
    ensures |pairs| == |points|
    ensures forall i :: 0 <= i < |points| ==> pairs[i] == (points[i].lat, points[i].long)
  {
    pairs := [];
    var i := 0;
    while i < |points|
      invariant 0 <= i <= |points|
      invariant |pairs| == i
      invariant forall k :: 0 <= k < i ==> pairs[k] == (points[k].lat, points[k].long)
    {
      pairs := pairs + [(points[i].lat, points[i].long)];
      i := i + 1;
    }
  }
}
