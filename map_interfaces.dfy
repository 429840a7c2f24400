/** The shared data shapes of the viewer (`interfaces/map.interface.ts`). */
module MapInterfaces {
  import opened Wrappers

  /** The four map variants the viewer can show. */
  datatype MapType = Population | Variation | Basic | Distritos

  /** The string literal TypeScript uses for each variant. */
  function MapTypeName(t: MapType): string
  {
    match t
    case Population => "population"
    case Variation => "variation"
    case Basic => "basic"
    case Distritos => "distritos"
  }

  /** The variant a string names, if it names one. */
  function ParseMapType(s: string): (r: Option<MapType>)
    ensures r.Some? ==> MapTypeName(r.value) == s
  {
    if s == "population" then Some(Population)
    else if s == "variation" then Some(Variation)
    else if s == "basic" then Some(Basic)
    else if s == "distritos" then Some(Distritos)
    else None
  }

  lemma ParseMapTypeName(t: MapType)
    ensures ParseMapType(MapTypeName(t)) == Some(t)
  {
  }

  /**
   * One row of a population table: the raw section code (as `toString()`
   * renders it), the section name, and the population of the table's year.
   */
  datatype CensusRecord = CensusRecord(code: string, name: string, population: int)

  /** A latitude or longitude; only whether it is present and non-zero matters. */
  type Coordinate = Option<real>

  /** JavaScript truthiness of a coordinate: defined and not zero. */
  predicate IsTruthy(c: Coordinate) { c.Some? && c.value != 0.0 }

  /** A census-section feature of the geometry file (geometry itself left out). */
  datatype SectionFeature = SectionFeature(id: string, lat: Coordinate, long: Coordinate)

  /** A vertex `{lat, lng}` of a hand-drawn outline. */
  datatype Coordinates = Coordinates(lat: real, lng: real)

  /** `pointsCount`: a number, or the string 'N/A'. */
  datatype PointsCount = Count(n: int) | NotAvailable

  /** What the perimeter-information modal shows. */
  datatype PerimetroData = PerimetroData(
    name: string,
    methodName: string,  // the `method` property (a Dafny keyword)
    sectionCount: int,
    sections: seq<string>,
    description: string,
    pointsCount: PointsCount)
}
