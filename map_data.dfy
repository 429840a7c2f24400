/**
 * The data service (`services/map-data.service.ts`): the section-code codec,
 * the two dictionaries keyed by "DD-SSS", and the feature filter that joins
 * the geometry with both dictionaries.
 */
module MapData {
  import opened Wrappers
  import opened MapInterfaces

  /** A join key: two district characters, a dash, three section characters. */
  predicate IsSectionKey(k: string) { |k| == 6 && k[2] == '-' }

  /**
   * The key of a national section code: codes of exactly ten characters drop
   * their first five; of the remaining five, two are the district and three
   * the section. Any other length has no key and the record is skipped.
   */
  function SectionId(code: string): (r: Option<string>)
    ensures r.Some? <==> |code| == 10
    ensures r.Some? ==> IsSectionKey(r.value)
    ensures r.Some? ==> r.value[..2] == code[5..7] && r.value[3..] == code[7..]
  {
    if |code| == 10 then
      var lastFive := code[5..];
      Some(lastFive[..2] + "-" + lastFive[2..5])
    else None
  }

  /** The five characters a key was cut from. */
  function KeySuffix(k: string): (s: string)
    requires IsSectionKey(k)
    ensures |s| == 5
  {
    k[..2] + k[3..]
  }

  /** The codec is a bijection between key and last five characters. */
  lemma SectionIdInverse(code: string)
    requires |code| == 10
    ensures KeySuffix(SectionId(code).value) == code[5..]
  {
  }

  /** Two ten-character codes share a key exactly when their last five characters agree. */
  lemma SectionIdIgnoresPrefix(c1: string, c2: string)
    requires |c1| == 10 && |c2| == 10
    ensures SectionId(c1) == SectionId(c2) <==> c1[5..] == c2[5..]
  {
    if SectionId(c1) == SectionId(c2) {
      SectionIdInverse(c1);
      SectionIdInverse(c2);
    }
  }

  /**
   * The index of the last record whose code has key `k`, or -1: the record a
   * dictionary filled front to back keeps for `k`.
   */
  function LastKeyed(items: seq<CensusRecord>, k: string): (j: int)
    ensures -1 <= j < |items|
    ensures j >= 0 ==> SectionId(items[j].code) == Some(k)
    ensures forall l :: j < l < |items| ==> SectionId(items[l].code) != Some(k)
  {
    if items == [] then -1
    else if SectionId(items[|items| - 1].code) == Some(k) then |items| - 1
    else LastKeyed(items[..|items| - 1], k)
  }

  lemma LastKeyedStep(items: seq<CensusRecord>, i: nat, k: string)
    requires i < |items|
    ensures LastKeyed(items[..i + 1], k) ==
      if SectionId(items[i].code) == Some(k) then i else LastKeyed(items[..i], k)
  {
    assert items[..i + 1][..i] == items[..i];
  }

  /** The keys that some record of the table produces. */
  function KeysOf(items: seq<CensusRecord>): set<string>
  {
    set r | r in items && SectionId(r.code).Some? :: SectionId(r.code).value
  }

  lemma KeysOfLastKeyed(items: seq<CensusRecord>, k: string)
    ensures k in KeysOf(items) <==> LastKeyed(items, k) >= 0
  {
    if k in KeysOf(items) {
      var r :| r in items && SectionId(r.code) == Some(k);
      var l :| 0 <= l < |items| && items[l] == r;
    }
  }

  lemma KeysAreLastKeyed(items: seq<CensusRecord>)
    ensures forall k :: k in KeysOf(items) <==> LastKeyed(items, k) >= 0
  {
    forall k ensures k in KeysOf(items) <==> LastKeyed(items, k) >= 0 {
      KeysOfLastKeyed(items, k);
    }
  }

  /** What the 2011 dictionary holds per section. */
  datatype SectionInfo = SectionInfo(population2011: int, name: string)

  /** The 2011 dictionary as a value: each key maps to its last record. */
  function VariationTable(items: seq<CensusRecord>): (m: map<string, SectionInfo>)
    ensures forall k :: k in m <==> LastKeyed(items, k) >= 0
    ensures forall k :: k in m ==>
      m[k] == SectionInfo(items[LastKeyed(items, k)].population, items[LastKeyed(items, k)].name)
  {
    KeysAreLastKeyed(items);
    map k | k in KeysOf(items) ::
      var j := LastKeyed(items, k);
      if j >= 0 then SectionInfo(items[j].population, items[j].name) else SectionInfo(0, "")
  }

  /** A dictionary with the keys and last-record values of the table is `VariationTable`. */
  lemma VariationTableCharacterized(items: seq<CensusRecord>, m: map<string, SectionInfo>)
    requires forall k :: k in m <==> LastKeyed(items, k) >= 0
    requires forall k :: k in m ==>
      m[k] == SectionInfo(items[LastKeyed(items, k)].population, items[LastKeyed(items, k)].name)
    ensures m == VariationTable(items)
  {
    forall k ensures k in KeysOf(items) <==> LastKeyed(items, k) >= 0 {
      KeysOfLastKeyed(items, k);
    }
  }

  /** The 2024 dictionary as a value. */
  function Poblacion2024Table(items: seq<CensusRecord>): (m: map<string, int>)
    ensures forall k :: k in m <==> LastKeyed(items, k) >= 0
    ensures forall k :: k in m ==> m[k] == items[LastKeyed(items, k)].population
  {
    KeysAreLastKeyed(items);
    map k | k in KeysOf(items) ::
      var j := LastKeyed(items, k);
      if j >= 0 then items[j].population else 0
  }

  lemma Poblacion2024TableCharacterized(items: seq<CensusRecord>, m: map<string, int>)
    requires forall k :: k in m <==> LastKeyed(items, k) >= 0
    requires forall k :: k in m ==> m[k] == items[LastKeyed(items, k)].population
    ensures m == Poblacion2024Table(items)
  {
    forall k ensures k in KeysOf(items) <==> LastKeyed(items, k) >= 0 {
      KeysOfLastKeyed(items, k);
    }
  }

  /**
   * `createVariationMap`: the 2011 table keyed by section id. A key is present
   * exactly when some record with a ten-character code produces it, and it holds
   * the population and name of the last such record.
   */
  method CreateVariationMap(items: seq<CensusRecord>) returns (m: map<string, SectionInfo>)
    ensures forall k :: k in m <==> LastKeyed(items, k) >= 0
    ensures forall k :: k in m ==> IsSectionKey(k)
    ensures forall k :: k in m ==>
      m[k] == SectionInfo(items[LastKeyed(items, k)].population, items[LastKeyed(items, k)].name)
    ensures m == VariationTable(items)
  {
    m := map[];
    var i := 0;
    while i < |items|
      invariant 0 <= i <= |items|
      invariant forall k :: k in m <==> LastKeyed(items[..i], k) >= 0
      invariant forall k :: k in m ==>
        m[k] == SectionInfo(items[LastKeyed(items[..i], k)].population, items[LastKeyed(items[..i], k)].name)
    {
      var item := items[i];
      var id := SectionId(item.code);
      if id.Some? {
        m := m[id.value := SectionInfo(item.population, item.name)];
      }
      forall k ensures LastKeyed(items[..i + 1], k) ==
        if SectionId(items[i].code) == Some(k) then i else LastKeyed(items[..i], k)
      {
        LastKeyedStep(items, i, k);
      }
      i := i + 1;
    }
    assert items[..i] == items;
    VariationTableCharacterized(items, m);
  }

  /**
   * `createPoblacion2024Map`: the 2024 table keyed by section id, with the
   * same key rule and last-write-wins as `CreateVariationMap`.
   */
  method CreatePoblacion2024Map(items: seq<CensusRecord>) returns (m: map<string, int>)
    ensures forall k :: k in m <==> LastKeyed(items, k) >= 0
    ensures forall k :: k in m ==> IsSectionKey(k)
    ensures forall k :: k in m ==> m[k] == items[LastKeyed(items, k)].population
    ensures m == Poblacion2024Table(items)
  {
    m := map[];
    var i := 0;
    while i < |items|
      invariant 0 <= i <= |items|
      invariant forall k :: k in m <==> LastKeyed(items[..i], k) >= 0
      invariant forall k :: k in m ==> m[k] == items[LastKeyed(items[..i], k)].population
    {
      var item := items[i];
      var id := SectionId(item.code);
      if id.Some? {
        m := m[id.value := item.population];
      }
      forall k ensures LastKeyed(items[..i + 1], k) ==
        if SectionId(items[i].code) == Some(k) then i else LastKeyed(items[..i], k)
      {
        LastKeyedStep(items, i, k);
      }
      i := i + 1;
    }
    assert items[..i] == items;
    Poblacion2024TableCharacterized(items, m);
  }

  /** Inserting a record whose code is not ten characters long changes no lookup. */
  lemma {:induction false} BadCodeIgnored(front: seq<CensusRecord>, r: CensusRecord, back: seq<CensusRecord>, k: string)
    requires |r.code| != 10
    ensures (LastKeyed(front + [r] + back, k) >= 0) == (LastKeyed(front + back, k) >= 0)
    ensures LastKeyed(front + back, k) >= 0 ==>
      (front + [r] + back)[LastKeyed(front + [r] + back, k)] == (front + back)[LastKeyed(front + back, k)]
    decreases |back|
  {
    var with, without := front + [r] + back, front + back;
    if back == [] {
      assert with[..|with| - 1] == without;
      assert SectionId(with[|with| - 1].code).None?;
      assert LastKeyed(with, k) == LastKeyed(without, k);
    } else {
      var last := back[|back| - 1];
      var rest := back[..|back| - 1];
      var withFront, withoutFront := front + [r] + rest, front + rest;
      assert with[..|with| - 1] == withFront;
      assert without[..|without| - 1] == withoutFront;
      assert with[|with| - 1] == last && without[|without| - 1] == last;
      if SectionId(last.code) != Some(k) {
        BadCodeIgnored(front, r, rest, k);
        assert LastKeyed(with, k) == LastKeyed(withFront, k);
        assert LastKeyed(without, k) == LastKeyed(withoutFront, k);
      }
    }
  }

  /** The join condition of `filterValidFeatures`. */
  predicate IsValidFeature<V>(f: SectionFeature, variationMap: map<string, V>, poblacion2024Map: map<string, int>)
  {
    f.id in variationMap && f.id in poblacion2024Map && IsTruthy(f.lat) && IsTruthy(f.long)
  }

  /**
   * `filterValidFeatures`: the features whose id is in both dictionaries and
   * whose latitude and longitude are truthy, in their original order.
   */
  function FilterValidFeatures<V>(features: seq<SectionFeature>, variationMap: map<string, V>, poblacion2024Map: map<string, int>)
    : (r: seq<SectionFeature>)
    ensures IsSubsequence(r, features)
    ensures forall f :: f in r ==> IsValidFeature(f, variationMap, poblacion2024Map)
    ensures forall f :: f in features && IsValidFeature(f, variationMap, poblacion2024Map) ==> f in r
    ensures forall f {:trigger multiset(r)[f]} :: multiset(r)[f] == if IsValidFeature(f, variationMap, poblacion2024Map) then multiset(features)[f] else 0
  {
    if features == [] then []
    else
      var rest := FilterValidFeatures(features[1..], variationMap, poblacion2024Map);
      assert features == [features[0]] + features[1..];
      if IsValidFeature(features[0], variationMap, poblacion2024Map) then [features[0]] + rest else rest
  }

  /** Filtering an already filtered list changes nothing. */
  lemma {:induction false} FilterValidFeaturesIdempotent<V>(features: seq<SectionFeature>, variationMap: map<string, V>, poblacion2024Map: map<string, int>)
    ensures var once := FilterValidFeatures(features, variationMap, poblacion2024Map);
      FilterValidFeatures(once, variationMap, poblacion2024Map) == once
  {
    if features != [] {
      FilterValidFeaturesIdempotent(features[1..], variationMap, poblacion2024Map);
      var rest := FilterValidFeatures(features[1..], variationMap, poblacion2024Map);
      if IsValidFeature(features[0], variationMap, poblacion2024Map) {
        assert ([features[0]] + rest)[1..] == rest;
      }
    }
  }
}
