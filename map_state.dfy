/** The application-wide map selection (`services/map-state.service.ts`). */
module MapState {
  import opened MapInterfaces

  /** How many of the flags are set. */
  function CountTrue(flags: seq<bool>): nat
  {
    if flags == [] then 0 else (if flags[0] then 1 else 0) + CountTrue(flags[1..])
  }

  /** The service: one cell holding the active map variant. */
  class MapStateService {
    var currentMap: MapType

    constructor ()
      ensures currentMap == Variation
    {
      currentMap := Variation;
    }

    /** The read-only view of the cell. */
    function CurrentMap(): MapType
      reads this
    {
      currentMap
    }

    predicate IsPopulationMap() reads this { currentMap == Population }
    predicate IsVariationMap() reads this { currentMap == Variation }
    predicate IsBasicMap() reads this { currentMap == Basic }
    predicate IsDistritosMap() reads this { currentMap == Distritos }

    method SetMap(mapType: MapType)
      modifies this
      ensures CurrentMap() == mapType
    {
      currentMap := mapType;
    }

    method ShowPopulationMap()
      modifies this
      ensures CurrentMap() == Population && IsPopulationMap()
    {
      currentMap := Population;
    }

    method ShowVariationMap()
      modifies this
      ensures CurrentMap() == Variation && IsVariationMap()
    {
      currentMap := Variation;
    }

    method ShowBasicMap()
      modifies this
      ensures CurrentMap() == Basic && IsBasicMap()
    {
      currentMap := Basic;
    }

    method ShowDistritosMap()
      modifies this
      ensures CurrentMap() == Distritos && IsDistritosMap()
    {
      currentMap := Distritos;
    }
  }

  /** In every state exactly one of the four `is…Map` predicates holds, the one of the current variant. */
  lemma ExactlyOneMapActive(s: MapStateService)
    ensures CountTrue([s.IsPopulationMap(), s.IsVariationMap(), s.IsBasicMap(), s.IsDistritosMap()]) == 1
    ensures s.IsPopulationMap() <==> s.CurrentMap() == Population
    ensures s.IsVariationMap() <==> s.CurrentMap() == Variation
    ensures s.IsBasicMap() <==> s.CurrentMap() == Basic
    ensures s.IsDistritosMap() <==> s.CurrentMap() == Distritos
  {
    var flags := [s.IsPopulationMap(), s.IsVariationMap(), s.IsBasicMap(), s.IsDistritosMap()];
    assert CountTrue(flags[3..]) == if flags[3] then 1 else 0 by {
      assert flags[3..][1..] == [];
    }
    assert CountTrue(flags[2..]) == (if flags[2] then 1 else 0) + CountTrue(flags[3..]) by {
      assert flags[2..][1..] == flags[3..];
    }
    assert CountTrue(flags[1..]) == (if flags[1] then 1 else 0) + CountTrue(flags[2..]) by {
      assert flags[1..][1..] == flags[2..];
    }
  }
}
