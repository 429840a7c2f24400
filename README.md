# Census map viewer: data core in Dafny

This project models the data core of a municipal census map viewer, an Angular
application that draws the census sections of Jerez on a Leaflet map. The model
covers the following parts:

- **Section-code codec and dictionaries.** A ten-character national section code
  becomes a `"DD-SSS"` key. The 2011 and 2024 population tables become
  dictionaries under that key, and a later record overwrites an earlier one
  (`MapData`).
- **Feature filter.** A census feature is kept when its `ID` is in both
  dictionaries and its `lat` and `long` are truthy (`MapData.FilterValidFeatures`).
- **Variation markers.** Each kept feature gets `variacion = pob2024 - pob2011`,
  a three-tier class (above 50, below -50, neutral) with its tooltip CSS class,
  and a tooltip with a `+` sign when positive. This appears in the original
  component (`MapVariation`) and in its signal-based rewrite
  (`MapVariationOptimized`). The two are proved to compute the same markers.
- **Population table.** `TOTAL` rows are dropped. The 2024 rows are joined with
  the 2011 rows on the raw code, per-row differences and column totals are
  computed, and numbers are formatted with `.` as the thousands separator and an
  explicit sign (`Table`).
- **View state.** The active map variant lives in the map-state service
  (`MapState`) and, as a plain string, in the root component (`App`). The
  variation components also hold toggle flags and the perimeter modal (their
  classes).
- **District map.** The section style is a pure function of the `ID`, with a
  fixed set of 23 highlighted Centro sections. The map also has a popup
  condition and the vertex-to-pair conversions (`MapComponent`).

## How the model is laid out

- `wrappers.dfy` (`Wrappers`): `Option` and a subsequence predicate.
- `decimal.dfy` (`Decimal`): what `toString()` gives for an integer, and its
  inverse.
- `map_interfaces.dfy` (`MapInterfaces`): the records of
  `interfaces/map.interface.ts`.
  - Each population-table row is one `CensusRecord(code, name, population)`.
    The year is the table the row belongs to.
  - A section code is the string `toString()` gives for it.
  - A coordinate is `Option<real>`. Only its truthiness is used: present and
    non-zero.
- The other files are one module per source file: `map_data.dfy`,
  `map_variation.dfy`, `map_variation_optimized.dfy`, `table.dfy`,
  `map_state.dfy`, `app.dfy` and `map_component.dfy`.

The source builds its dictionaries with `forEach` loops. These are methods with
`while` loops, specified against `LastKeyed`: the index of the last record
carrying a key. The `filter`/`map`/`reduce` chains are functions.

Component state that the methods update is modelled as classes with `modifies`
clauses. Angular signals are plain fields. The perimeter modal keeps the
invariant `showPerimetroInfo <==> perimetroData != null` (`Valid()`).

`map-variation.component.ts` copies the service's codec inline (lines 315-353).
The copy has the same statements, so the model uses the service's two methods
for both components.

Static JSON assets and the perimeter file are inputs to the operations. The
model does not load them.

## Model

| member | source | states |
|---|---|---|
| `MapData.SectionId` | src/app/services/map-data.service.ts:42-48 | A key exists iff the code has 10 characters. The key is 6 characters with `-` at index 2: characters 5-6 of the code, a dash, then characters 7-9. |
| `MapData.SectionIdInverse` | src/app/services/map-data.service.ts:45-48 | Deleting the dash from a key gives back the last five characters of its code. |
| `MapData.SectionIdIgnoresPrefix` | src/app/services/map-data.service.ts:45-48 | Two 10-character codes give the same key iff their last five characters agree. The first five are ignored. |
| `MapData.LastKeyed` | src/app/services/map-data.service.ts:41-55 | The index of the last record whose code gives key `k`, or -1. No later record gives `k`. |
| `MapData.CreateVariationMap` | src/app/services/map-data.service.ts:38-58 | The keys are exactly those some 10-character code produces, and all have the `DD-SSS` shape. Each holds the 2011 population and name of the last record with that key. The result equals `VariationTable`. |
| `MapData.CreatePoblacion2024Map` | src/app/services/map-data.service.ts:60-77 | Same key rule, shape and last-write-wins for the 2024 population. The result equals `Poblacion2024Table`. |
| `MapData.BadCodeIgnored` | src/app/services/map-data.service.ts:44 | Inserting a record whose code is not 10 characters anywhere in a table changes no lookup: same keys, same winning record. |
| `MapData.VariationTableCharacterized` | src/app/services/map-data.service.ts:50-53 | A dictionary whose keys and values follow the last-record rule is the 2011 table value. |
| `MapData.Poblacion2024TableCharacterized` | src/app/services/map-data.service.ts:72 | The same for the 2024 table value. |
| `MapData.FilterValidFeatures` | src/app/services/map-data.service.ts:79-91 | The result is a subsequence of the input in its original order. Every kept feature has its ID in both dictionaries and truthy `lat` and `long`, and every input feature meeting that condition is kept. A valid feature occurs in the result exactly as often as in the input, and an invalid one never. |
| `MapData.VariationTable` | src/app/services/map-data.service.ts:41-55 | The 2011 dictionary as a value: a key is present iff some record's code produces it, and it maps to the population and name of the last such record. |
| `MapData.Poblacion2024Table` | src/app/services/map-data.service.ts:63-74 | The 2024 dictionary as a value: same key rule, mapping to the 2024 population of the last such record. |
| `MapData.FilterValidFeaturesIdempotent` | src/app/services/map-data.service.ts:84-90 | Filtering the filtered list again changes nothing. |
| `Decimal.Digits` | src/app/table/table.component.ts:69 | `toString()` of a non-negative integer: at least one digit and no leading zero except for 0 itself. |
| `Decimal.ValueOfDigits` | src/app/table/table.component.ts:69 | The digits read back as the number. |
| `Decimal.IntToString` | src/app/map-variation/map-variation.component.ts:441 | `toString()` of an integer starts with `-` iff the integer is negative, and the rest is digits. |
| `Decimal.IntToStringRoundTrip` | src/app/map-variation/map-variation.component.ts:441 | Parsing the rendered integer gives back the integer. |
| `MapInterfaces.ParseMapType` | src/app/interfaces/map.interface.ts:1 | A string that parses as a variant is that variant's literal. |
| `MapInterfaces.ParseMapTypeName` | src/app/interfaces/map.interface.ts:1 | Each of the four literals parses back to its own variant. |
| `MapVariation.Classify` | src/app/map-variation/map-variation.component.ts:421-430 | Positive iff variation > 50, negative iff < -50, neutral iff in [-50, 50]. So ±50 are neutral and the tiers never overlap. |
| `MapVariation.ClassifyMonotone` | src/app/map-variation/map-variation.component.ts:421-430 | A larger variation never falls into a lower tier. |
| `MapVariation.Tooltip` | src/app/map-variation/map-variation.component.ts:441 | The tooltip starts with `+` iff variation > 0, and with `-` iff variation < 0. |
| `MapVariation.TooltipRoundTrip` | src/app/map-variation/map-variation.component.ts:441 | Reading the tooltip back gives the variation. |
| `MapVariation.TooltipClass` | src/app/map-variation/map-variation.component.ts:421-430 | `tooltipPositive`, `tooltipNegative` and `tooltipNeutral` each belong to exactly one tier. |
| `MapVariation.MarkerFor` | src/app/map-variation/map-variation.component.ts:411-446 | The marker of one feature: its ID and coordinates, the name and 2011 population of its 2011 entry, its 2024 population, `variation = pob2024 - pob2011`, the tier of that variation and its tooltip class. The tooltip is `Tooltip(variation)`, so it starts with `+` iff the variation is positive, and it reads back as the variation. |
| `MapVariation.MarkersOf` | src/app/map-variation/map-variation.component.ts:411-447 | There is one marker per feature, in order. Each marker carries the feature's ID and coordinates, both populations from the dictionaries, `variation = pob2024 - pob2011`, the tier of that variation, its tooltip class, and the tooltip `Tooltip(variation)`, which reads back as the variation. |
| `MapVariation.FilterJoined` | src/app/map-variation/map-variation.component.ts:392-402 | A subsequence of the features. A feature whose ID is in both dictionaries occurs as often as in the input, and any other feature never. |
| `MapVariation.FilterCoords` | src/app/map-variation/map-variation.component.ts:403-410 | A subsequence of the features. A feature with truthy `lat` and `long` occurs as often as in the input, and any other feature never. |
| `MapVariation.TwoFiltersAreOne` | src/app/map-variation/map-variation.component.ts:391-410 | The dictionary filter followed by the coordinate filter equals the service's single filter. |
| `MapVariation.VariationMarkers` | src/app/map-variation/map-variation.component.ts:391-447 | One marker per valid feature, in order. Each marker's ID is in both dictionaries and its coordinates are truthy, with the variation, tier, tooltip class and the tooltip `Tooltip(variation)` as above. |
| `MapVariation.EveryValidFeatureHasMarker` | src/app/map-variation/map-variation.component.ts:391-410 | Every feature that passes both filters gets a marker. |
| `MapVariation.BuildVariationMarkers` | src/app/map-variation/map-variation.component.ts:314-447 | The markers come from the dictionaries built from the raw tables. Each marker's populations and name are those of the last record with its key. A feature with both keys and truthy coordinates gets a marker. |
| `MapVariation.PointsCountOf` | src/app/map-variation/map-variation.component.ts:87 | The first ring's length minus 1 when the ring exists and is non-empty, otherwise `'N/A'`. |
| `MapVariation.PerimeterSummary` | src/app/map-variation/map-variation.component.ts:89-96 | A truthy property passes through unchanged. A falsy name, method or description becomes its default, so these are never empty. `sectionCount` falls back to 0, `sections` to `[]`, and `pointsCount` comes from `PointsCountOf`. |
| `MapVariation.OrDefault` | src/app/map-variation/map-variation.component.ts:90-94 | The `or`-default of a string property: a present, non-empty value is kept, an absent or empty one becomes the default, and with a non-empty default the result is never empty. |
| `MapVariation.FirstFeature` | src/app/map-variation/map-variation.component.ts:84-85 | The first perimeter feature exists iff the feature list exists and is non-empty. |
| `MapVariation.MapVariationComponent.constructor` | src/app/map-variation/map-variation.component.ts:21-25 | Map shown, modal closed with no data, both overlays shown. |
| `MapVariation.MapVariationComponent.ToggleMap` | src/app/map-variation/map-variation.component.ts:71-80 | Negates `showMap` and nothing else. |
| `MapVariation.MapVariationComponent.ShowPerimetroInformation` | src/app/map-variation/map-variation.component.ts:82-102 | With a first feature: sets `perimetroData` to its summary and opens the modal. Without one, nothing changes. The modal invariant is kept. |
| `MapVariation.MapVariationComponent.ClosePerimetroInfo` | src/app/map-variation/map-variation.component.ts:104-107 | `showPerimetroInfo` becomes false and `perimetroData` null. The other flags are unchanged. |
| `MapVariation.MapVariationComponent.ToggleDistritoCentro` | src/app/map-variation/map-variation.component.ts:109-125 | Negates exactly `showDistritoCentro`, whether or not the layer exists. |
| `MapVariation.MapVariationComponent.TogglePerimetroIntramuros` | src/app/map-variation/map-variation.component.ts:127-143 | Negates exactly `showPerimetroIntramuros`, whether or not the layer exists. |
| `MapVariationOptimized.VariationMarkers` | src/app/map-variation/map-variation-optimized.component.ts:306-345 | One marker per feature of `filterValidFeatures`, in order. Each has its ID in both dictionaries, `variation = pob2024 - pob2011`, the same three tiers and tooltip classes, the tooltip `Tooltip(variation)` (so `+` iff positive) and truthy coordinates. |
| `MapVariationOptimized.SameMarkersAsOriginal` | src/app/map-variation/map-variation-optimized.component.ts:306-345 | The refactored pipeline computes the same marker data as the original component: same features, order, populations, variation, tier, tooltip and tooltip class. |
| `MapVariationOptimized.PlacedMarkers` | src/app/map-variation/map-variation-optimized.component.ts:348-349 | The placed markers are a subsequence of all markers, each with truthy coordinates. Every marker with truthy coordinates is placed, as often as it occurs, and no other marker is. |
| `MapVariationOptimized.EveryMarkerPlaced` | src/app/map-variation/map-variation-optimized.component.ts:348-360 | The `point.lat && point.long` guard drops no marker. |
| `MapVariationOptimized.AddVariationMarkers` | src/app/map-variation/map-variation-optimized.component.ts:274-363 | The markers come from the service's dictionaries of the raw tables and its filter. All of them are placed. |
| `MapVariationOptimized.MapVariationComponent.constructor` | src/app/map-variation/map-variation-optimized.component.ts:20-24 | Initial signal values: map shown, modal closed with null data, both overlays shown. |
| `MapVariationOptimized.MapVariationComponent.ToggleMap` | src/app/map-variation/map-variation-optimized.component.ts:78-86 | Negates `showMap` only. |
| `MapVariationOptimized.MapVariationComponent.ShowPerimetroInformation` | src/app/map-variation/map-variation-optimized.component.ts:88-109 | With a first feature: the summary with defaults, and the modal opens. Without one, neither field changes. |
| `MapVariationOptimized.MapVariationComponent.ClosePerimetroInfo` | src/app/map-variation/map-variation-optimized.component.ts:111-114 | Modal closed and data null. Nothing else changes. |
| `MapVariationOptimized.MapVariationComponent.ToggleDistritoCentro` | src/app/map-variation/map-variation-optimized.component.ts:116-128 | Negates its own signal and leaves the others. |
| `MapVariationOptimized.MapVariationComponent.TogglePerimetroIntramuros` | src/app/map-variation/map-variation-optimized.component.ts:130-142 | Negates its own signal and leaves the others. |
| `Table.WithoutTotal` | src/app/table/table.component.ts:34-35 | A subsequence of the rows with no `TOTAL` code that keeps every other row. A non-TOTAL row occurs as often as in the input. |
| `Table.LastWithCode` | src/app/table/table.component.ts:38-41 | The index of the last row with exactly this raw code, or -1. |
| `Table.Lookup2011` | src/app/table/table.component.ts:45 | The lookup with its `0` fallback: the dictionary's value when the code is present, 0 when it is not. |
| `Table.Population2011For` | src/app/table/table.component.ts:38-45 | With no 2011 row carrying the code, the value is 0. Otherwise it is the population of a row with that code after which no row has it, i.e. the last one. |
| `Table.LookupIsLastRow` | src/app/table/table.component.ts:38-45 | Looking a code up in the dictionary the `forEach` builds gives `Population2011For`. |
| `Table.JoinWithLastRows` | src/app/table/table.component.ts:38-53 | Joining with the dictionary the `forEach` builds gives one row per 2024 row, in order, whose 2011 value is that of the last 2011 row with the same raw code, or 0. |
| `Table.Population2011ByCode` | src/app/table/table.component.ts:38-41 | Keyed by the raw, unconverted code. A code is present iff some row has it, and it holds the population of its last row. |
| `Table.JoinRows` | src/app/table/table.component.ts:44-53 | One row per 2024 row, in order, keeping code, name and 2024 population. The 2011 value is looked up by the raw code and is 0 when absent. The difference is 2024 minus 2011. |
| `Table.SumPopulation2024` | src/app/table/table.component.ts:56-58 | The 2024 column total; non-negative when every entry is. |
| `Table.SumPopulation2011` | src/app/table/table.component.ts:60-62 | The 2011 column total; non-negative when every entry is. |
| `Table.SumsFromTheFront` | src/app/table/table.component.ts:56-62 | Both totals are the first row's value plus the total of the rest, the order in which `reduce` adds them. |
| `Table.TotalDifferenceIsSumOfDifferences` | src/app/table/table.component.ts:56-64 | `totalPoblacion2024 - totalPoblacion2011` equals the sum of the row differences. |
| `Table.TotalBoundsEachRow` | src/app/table/table.component.ts:56-58 | With non-negative populations, each 2024 entry lies between 0 and the column total. |
| `Table.Separate` | src/app/table/table.component.ts:69 | The regex replacement on a digit string. A non-empty input gives a non-empty output with the same first character, so no dot is put in front. `SeparateRoundTrip`, `SeparateShort` and `SeparateGroupsOfThree` pin down where the dots go. |
| `Table.SeparateShort` | src/app/table/table.component.ts:69 | Up to three digits get no dot. |
| `Table.SeparateRoundTrip` | src/app/table/table.component.ts:69 | Deleting the inserted dots gives back the digit string. |
| `Table.SeparateGroupsOfThree` | src/app/table/table.component.ts:69 | With more than 3 digits, the last dot comes before the final three digits, and recursively so. Dots come in groups of three from the right and never at the front. |
| `Table.FormatNumber` | src/app/table/table.component.ts:68-70 | Non-empty. It starts with `-` iff the number is negative; otherwise it starts with a digit, and after a `-` comes a digit. |
| `Table.FormatNumberRoundTrip` | src/app/table/table.component.ts:68-70 | Deleting the dots of `formatNumber(n)` gives `n.toString()`, which reads back as `n`. |
| `Table.FormatNumberWithSign` | src/app/table/table.component.ts:73-82 | `+` and the formatted value for n > 0. For n < 0, `-` and the formatted absolute value, which is `formatNumber(n)`. Exactly `"0"` for 0. |
| `Table.FormatNumberWithSignRoundTrip` | src/app/table/table.component.ts:73-82 | Reading the signed, dotted string back gives `n`. |
| `Table.TableComponent.constructor` | src/app/table/table.component.ts:21-24 | Empty table and zero totals. |
| `Table.TableComponent.LoadData` | src/app/table/table.component.ts:32-65 | `secciones` has one row per non-TOTAL 2024 row, in order. Each row's 2011 value is that of the last non-TOTAL 2011 row with the same raw code, or 0. Each difference is 2024 minus 2011. The totals are the column sums, and `totalDiferencia` is their difference and also the sum of the differences. |
| `MapState.MapStateService.constructor` | src/app/services/map-state.service.ts:8 | The initial map is `variation`. |
| `MapState.MapStateService.SetMap` | src/app/services/map-state.service.ts:36-38 | After `setMap(t)`, `currentMap() == t`. So the last call decides and a repeated call changes nothing. |
| `MapState.MapStateService.ShowPopulationMap` | src/app/services/map-state.service.ts:20-22 | Same effect as `setMap('population')`. |
| `MapState.MapStateService.ShowVariationMap` | src/app/services/map-state.service.ts:24-26 | Same effect as `setMap('variation')`. |
| `MapState.MapStateService.ShowBasicMap` | src/app/services/map-state.service.ts:28-30 | Same effect as `setMap('basic')`. |
| `MapState.MapStateService.ShowDistritosMap` | src/app/services/map-state.service.ts:32-34 | Same effect as `setMap('distritos')`. |
| `MapState.ExactlyOneMapActive` | src/app/services/map-state.service.ts:14-17 | In every state exactly one of the four `is…Map` predicates holds, the one naming the current map. |
| `App.AppComponent.constructor` | src/app/app.component.ts:18 | The initial `showMap` is `'variation'`. |
| `App.AppComponent.ShowPopulationMap` | src/app/app.component.ts:22-24 | `showMap` becomes `'population'`, still one of the four variants. |
| `App.AppComponent.ShowVariationMap` | src/app/app.component.ts:26-28 | `showMap` becomes `'variation'`. |
| `App.AppComponent.ShowBasicMap` | src/app/app.component.ts:30-32 | `showMap` becomes `'basic'`. |
| `App.AppComponent.ShowDistritosMap` | src/app/app.component.ts:34-36 | `showMap` becomes `'distritos'`. |
| `MapComponent.FeatureStyle` | src/app/map/map.component.ts:149-190 | Fill opacity is always 0.1. The border is blue iff the ID is in the Centro set, and likewise the fill is red. Any other ID gets the default green style unchanged. |
| `MapComponent.StyleDependsOnlyOnId` | src/app/map/map.component.ts:149-190 | Two features with the same ID get the same style. |
| `MapComponent.CentroSectionsAreSectionKeys` | src/app/map/map.component.ts:159-183 | Every highlighted ID is a `DD-SSS` key, produced by the ten-character code `11020` + its suffix. |
| `MapComponent.Popup` | src/app/map/map.component.ts:191-196 | A popup is bound iff the ID exists and is non-empty. Its text is `ID: ` followed by the ID. |
| `MapComponent.ToLatLngArray` | src/app/map/map.component.ts:30-33 | Same length as the input, with `[lat, lng]` pairs in source order. |
| `MapComponent.ToLatLongArray` | src/app/map/map.component.ts:65-68 | The same for `ds02021`, whose vertices carry `.long` instead of `.lng`. |

## Left out

- Leaflet is a foreign library, so none of it is modelled. This covers map, tile
  layer, GeoJSON layer, polygon, polyline and marker creation, `addTo`/`remove`,
  `bindPopup`/`bindTooltip`, icons, hover `setStyle` handlers and `getBounds`.
  The model stops at the data handed to Leaflet.
- The marker's percentage `Number(((variacion / poblacion2011) * 100).toFixed(2))`
  is left out. It is floating-point arithmetic, and the source has no
  zero-baseline guard.
- Latitude and longitude values are floats. Only their truthiness (present and
  non-zero) is modelled, and reals have no `NaN`.
- `setTimeout` deferral and `initializeMap` re-creation in `toggleMap` and
  `ngAfterViewInit` are left out (event-loop scheduling), as are all `console.*`
  calls.
- Loading of the static JSON and TS assets is left out. The tables and features
  are parameters.
- HTML popup, title and template strings are left out, except the tooltip's sign
  rule. So is the `Date.toLocaleString` call at
  src/app/map-variation/map-variation.component.ts:296.
- The `[lat, lng]` conversion of `distritoCentro` inside polygon creation
  (src/app/map-variation/map-variation.component.ts:204) is part of the Leaflet
  glue. It is the same pair conversion as `MapComponent.ToLatLngArray`.
- JavaScript `Record` lookups also see inherited keys such as `constructor`. The
  model's dictionaries do not. A section ID equal to such a name would be
  treated differently.
- The model assumes every record has its population field. A present key whose
  value is `undefined` would fail the source's `!== undefined` test.
- Section codes that are JSON numbers are modelled by their `toString()` text.
- CreateVariationMap, CreatePoblacion2024Map: a row whose `Código sección` is
  `null` or missing makes `.toString()` throw (map-data.service.ts:42 and 64,
  and the inline copy in map-variation.component.ts:318). `CensusRecord.code` is
  a plain string, so the model has no such row and no exception.
- PerimeterSummary: `feature.properties.name` throws when a perimeter feature
  has `properties: null` (map-variation.component.ts:90-94,
  map-variation-optimized.component.ts:97-101). The model makes `properties`
  mandatory, with each property optional, so there is no exception path.
- SameMarkersAsOriginal: the original's marker object also stores `variacion`
  (map-variation.component.ts:445) and the refactored one does not
  (map-variation-optimized.component.ts:331-344). Both models keep the variation
  because it is what the tier and the tooltip are computed from; the lemma
  states equality of that shared data, not of the two object shapes.
- `Table.FormatNumber`: covers integers only. JavaScript switches to exponent
  notation from 1e21 and prints fractions, and the model does not follow either.
- The code has only the three-tier marker classifier, and the map-state service
  holds only the active map; the model follows the code.
- map-basic, map-distritos, perimetro-info, navbar, footer, routes and app
  config are not part of this model (UI, router and DOM-event plumbing). Nor is
  `commons/components/map-navigation.component.ts`, which only forwards to
  `MapStateService.setMap`.
- The size of the Centro highlight set (23) shows in the constant itself and is
  not restated as a lemma.
