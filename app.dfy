/** The root component (`app.component.ts`): its own copy of the active map, as a plain string. */
module App {
  import opened Wrappers
  import opened MapInterfaces

  class AppComponent {
    var showMap: string

    /** `showMap` always names one of the four variants. */
    ghost predicate Valid()
      reads this
    {
      ParseMapType(showMap).Some?
    }

    constructor ()
      ensures Valid() && showMap == "variation"
      ensures ParseMapType(showMap) == Some(Variation)
    {
      showMap := "variation";
    }

    method ShowPopulationMap()
      modifies this
      ensures Valid() && showMap == "population"
      ensures ParseMapType(showMap) == Some(Population)
    {
      showMap := "population";
    }

    method ShowVariationMap()
      modifies this
      ensures Valid() && showMap == "variation"
      ensures ParseMapType(showMap) == Some(Variation)
    {
      showMap := "variation";
    }

    method ShowBasicMap()
      modifies this
      ensures Valid() && showMap == "basic"
      ensures ParseMapType(showMap) == Some(Basic)
    {
      showMap := "basic";
    }

    method ShowDistritosMap()
      modifies this
      ensures Valid() && showMap == "distritos"
      ensures ParseMapType(showMap) == Some(Distritos)
    {
      showMap := "distritos";
    }
  }
}
