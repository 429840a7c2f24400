/**
 * The population table (`table/table.component.ts`): the 2024 table joined
 * with the 2011 table on the raw section code, per-row differences, column
 * totals, and the Spanish-style number formatting of the template.
 */
module Table {
  import opened Wrappers
  import opened Decimal
  import opened MapInterfaces

  /** The code of the summary row that both tables may carry. */
  const TotalCode := "TOTAL"

  /** The `.filter` that drops the summary rows. */
  function WithoutTotal(rows: seq<CensusRecord>): (r: seq<CensusRecord>)
    ensures IsSubsequence(r, rows)
    ensures forall x :: x in r ==> x.code != TotalCode
    ensures forall x :: x in rows && x.code != TotalCode ==> x in r
    ensures forall x {:trigger multiset(r)[x]} :: multiset(r)[x] == if x.code != TotalCode then multiset(rows)[x] else 0
  {
    if rows == [] then []
    else
      var rest := WithoutTotal(rows[1..]);
      assert rows == [rows[0]] + rows[1..];
      if rows[0].code != TotalCode then [rows[0]] + rest else rest
  }

  /** The index of the last row with exactly this raw code, or -1. */
  function LastWithCode(rows: seq<CensusRecord>, code: string): (j: int)
    ensures -1 <= j < |rows|
    ensures j >= 0 ==> rows[j].code == code
    ensures forall l :: j < l < |rows| ==> rows[l].code != code
  {
    if rows == [] then -1
    else if rows[|rows| - 1].code == code then |rows| - 1
    else LastWithCode(rows[..|rows| - 1], code)
  }

  lemma LastWithCodeStep(rows: seq<CensusRecord>, i: nat, code: string)
    requires i < |rows|
    ensures LastWithCode(rows[..i + 1], code) ==
      if rows[i].code == code then i else LastWithCode(rows[..i], code)
  {
    assert rows[..i + 1][..i] == rows[..i];
  }

  /**
   * The `poblacion2011Map` filled by `forEach`: keyed by the raw, unconverted
   * code; a repeated code keeps the population of its last row.
   */
  method Population2011ByCode(rows: seq<CensusRecord>) returns (m: map<string, int>)
    ensures forall c :: c in m <==> LastWithCode(rows, c) >= 0
    ensures forall c :: c in m ==> m[c] == rows[LastWithCode(rows, c)].population
  {
    m := map[];
    var i := 0;
    while i < |rows|
      invariant 0 <= i <= |rows|
      invariant forall c :: c in m <==> LastWithCode(rows[..i], c) >= 0
      invariant forall c :: c in m ==> m[c] == rows[LastWithCode(rows[..i], c)].population
    {
      m := m[rows[i].code := rows[i].population];
      forall c ensures LastWithCode(rows[..i + 1], c) ==
        if rows[i].code == c then i else LastWithCode(rows[..i], c)
      {
        LastWithCodeStep(rows, i, c);
      }
      i := i + 1;
    }
    assert rows[..i] == rows;
  }

  /** `poblacion2011Map[code] || 0`: a missing code reads as 0. */
  function Lookup2011(m: map<string, int>, code: string): (v: int)
    ensures code in m ==> v == m[code]
    ensures code !in m ==> v == 0
  {
    if code in m then m[code] else 0
  }

  /** The 2011 population a code resolves to: that of its last 2011 row, or 0 when it has none. */
  function Population2011For(rows2011: seq<CensusRecord>, code: string): (v: int)
    ensures (forall x :: x in rows2011 ==> x.code != code) ==> v == 0
    ensures (exists x :: x in rows2011 && x.code == code) ==>
      exists j :: 0 <= j < |rows2011| && rows2011[j].code == code && v == rows2011[j].population
        && forall l :: j < l < |rows2011| ==> rows2011[l].code != code
  {
    var j := LastWithCode(rows2011, code);
    if j >= 0 then rows2011[j].population
    else
      assert forall x :: x in rows2011 ==> x.code != code by {
        forall x | x in rows2011 ensures x.code != code {
          var l :| 0 <= l < |rows2011| && rows2011[l] == x;
        }
      }
      0
  }

  /** Looking a code up in the dictionary `Population2011ByCode` builds gives its last row's population, or 0. */
  lemma LookupIsLastRow(rows2011: seq<CensusRecord>, m: map<string, int>, code: string)
    requires forall c :: c in m <==> LastWithCode(rows2011, c) >= 0
    requires forall c :: c in m ==> m[c] == rows2011[LastWithCode(rows2011, c)].population
    ensures Lookup2011(m, code) == Population2011For(rows2011, code)
  {
  }

  /** A row of `secciones`. */
  datatype SectionRow = SectionRow(
    code: string,
    name: string,
    population2024: int,
    population2011: int,
    difference: int)

  /** The `.map` over the 2024 rows: one joined row per 2024 row, in order. */
  function JoinRows(rows2024: seq<CensusRecord>, poblacion2011Map: map<string, int>): (r: seq<SectionRow>)
    ensures |r| == |rows2024|
    ensures forall i :: 0 <= i < |r| ==>
      && r[i].code == rows2024[i].code
      && r[i].name == rows2024[i].name
      && r[i].population2024 == rows2024[i].population
      && r[i].population2011 == Lookup2011(poblacion2011Map, rows2024[i].code)
      && r[i].difference == r[i].population2024 - r[i].population2011
  {
    seq(|rows2024|, i requires 0 <= i < |rows2024| =>
      var p2011 := Lookup2011(poblacion2011Map, rows2024[i].code);
      SectionRow(rows2024[i].code, rows2024[i].name, rows2024[i].population, p2011, rows2024[i].population - p2011))
  }

  /** Every joined row carries the 2011 population of the last 2011 row with its code, or 0. */
  lemma JoinWithLastRows(rows2024: seq<CensusRecord>, rows2011: seq<CensusRecord>, m: map<string, int>)
    requires forall c :: c in m <==> LastWithCode(rows2011, c) >= 0
    requires forall c :: c in m ==> m[c] == rows2011[LastWithCode(rows2011, c)].population
    ensures var r := JoinRows(rows2024, m);
      && |r| == |rows2024|
      && forall i :: 0 <= i < |r| ==>
        && r[i].code == rows2024[i].code
        && r[i].name == rows2024[i].name
        && r[i].population2024 == rows2024[i].population
        && r[i].population2011 == Population2011For(rows2011, rows2024[i].code)
        && r[i].difference == r[i].population2024 - r[i].population2011
  {
    var r := JoinRows(rows2024, m);
    forall i | 0 <= i < |r|
      ensures r[i].population2011 == Population2011For(rows2011, rows2024[i].code)
    {
      LookupIsLastRow(rows2011, m, rows2024[i].code);
    }
  }

  /** The `reduce` over the 2024 column. */
  function SumPopulation2024(rows: seq<SectionRow>): (total: int)
    ensures (forall i :: 0 <= i < |rows| ==> rows[i].population2024 >= 0) ==> total >= 0
  {
    if rows == [] then 0 else SumPopulation2024(rows[..|rows| - 1]) + rows[|rows| - 1].population2024
  }

  /** The `reduce` over the 2011 column (`|| 0` is the identity on a number). */
  function SumPopulation2011(rows: seq<SectionRow>): (total: int)
    ensures (forall i :: 0 <= i < |rows| ==> rows[i].population2011 >= 0) ==> total >= 0
  {
    if rows == [] then 0 else SumPopulation2011(rows[..|rows| - 1]) + rows[|rows| - 1].population2011
  }

  /**
   * The folds above run from the back; `reduce` runs from the front. Both give
   * the same totals: the first row plus the total of the rest.
   */
  lemma {:induction false} SumsFromTheFront(rows: seq<SectionRow>)
    requires rows != []
    ensures SumPopulation2024(rows) == rows[0].population2024 + SumPopulation2024(rows[1..])
    ensures SumPopulation2011(rows) == rows[0].population2011 + SumPopulation2011(rows[1..])
  {
    if |rows| > 1 {
      var front := rows[..|rows| - 1];
      SumsFromTheFront(front);
      assert rows[1..][..|rows| - 2] == front[1..];
    }
  }

  /** The sum of the per-row differences. */
  function SumDifference(rows: seq<SectionRow>): int
  {
    if rows == [] then 0 else SumDifference(rows[..|rows| - 1]) + rows[|rows| - 1].difference
  }

  /** When every row's difference is its own 2024 minus 2011, so is the total. */
  lemma {:induction false} TotalDifferenceIsSumOfDifferences(rows: seq<SectionRow>)
    requires forall i :: 0 <= i < |rows| ==> rows[i].difference == rows[i].population2024 - rows[i].population2011
    ensures SumDifference(rows) == SumPopulation2024(rows) - SumPopulation2011(rows)
  {
    if rows != [] {
      TotalDifferenceIsSumOfDifferences(rows[..|rows| - 1]);
    }
  }

  /** Column totals of non-negative populations are non-negative and bound each entry. */
  lemma {:induction false} TotalBoundsEachRow(rows: seq<SectionRow>, i: nat)
    requires forall k :: 0 <= k < |rows| ==> rows[k].population2024 >= 0
    requires i < |rows|
    ensures 0 <= rows[i].population2024 <= SumPopulation2024(rows)
  {
    var front := rows[..|rows| - 1];
    if i < |rows| - 1 {
      TotalBoundsEachRow(front, i);
    } else if front != [] {
      TotalBoundsEachRow(front, 0);
    }
  }

  // ---- Number formatting ----

  /** The string with every '.' deleted. */
  function RemoveDots(s: string): (r: string)
    ensures '.' !in r
  {
    if s == [] then [] else (if s[0] == '.' then [] else [s[0]]) + RemoveDots(s[1..])
  }

  lemma {:induction false} RemoveDotsAppend(a: string, b: string)
    ensures RemoveDots(a + b) == RemoveDots(a) + RemoveDots(b)
  {
    if a != [] {
      RemoveDotsAppend(a[1..], b);
      assert (a + b)[0] == a[0];
      assert (a + b)[1..] == a[1..] + b;
    } else {
      assert a + b == b;
    }
  }

  /**
   * `replace(/\B(?=(\d{3})+(?!\d))/g, '.')` on a string of digits: a dot goes
   * at every inner position followed by a positive multiple of three digits.
   */
  function Separate(s: string): (r: string)
    ensures |s| > 0 ==> |r| > 0 && r[0] == s[0]
  {
    if |s| <= 1 then s
    else [s[0]] + (if (|s| - 1) % 3 == 0 then "." else "") + Separate(s[1..])
  }

  /** Deleting the separators gives back the digits. */
  lemma {:induction false} SeparateRoundTrip(s: string)
    requires '.' !in s
    ensures RemoveDots(Separate(s)) == s
  {
    if |s| > 1 {
      SeparateRoundTrip(s[1..]);
      var dot := if (|s| - 1) % 3 == 0 then "." else "";
      RemoveDotsAppend([s[0]] + dot, Separate(s[1..]));
      RemoveDotsAppend([s[0]], dot);
      assert [s[0]] + s[1..] == s;
    } else if |s| == 1 {
      assert s == [s[0]];
    }
  }

  lemma {:induction false} SeparateShort(s: string)
    requires |s| <= 3
    ensures Separate(s) == s
  {
    if |s| > 1 {
      SeparateShort(s[1..]);
      assert (|s| - 1) % 3 != 0;
      assert Separate(s) == [s[0]] + Separate(s[1..]);
      assert [s[0]] + s[1..] == s;
    }
  }

  /** One step of `Separate`: the first digit, a dot when a multiple of three digits follows, the rest. */
  lemma SeparateStep(s: string)
    requires |s| > 1
    ensures Separate(s) == [s[0]] + (if (|s| - 1) % 3 == 0 then "." else "") + Separate(s[1..])
  {
  }

  lemma Regroup(front: string, mid: string, tail: string)
    ensures front + (mid + "." + tail) == (front + mid) + "." + tail
  {
  }

  lemma SeparateFour(s: string)
    requires |s| == 4
    ensures Separate(s) == Separate(s[..1]) + "." + s[1..]
  {
    SeparateStep(s);
    SeparateShort(s[1..]);
    assert s[..1] == [s[0]];
  }

  /** Counted from the right, the digits fall in groups of three, with no dot in front. */
  lemma {:induction false} SeparateGroupsOfThree(s: string)
    requires |s| > 3
    ensures Separate(s) == Separate(s[..|s| - 3]) + "." + s[|s| - 3..]
    decreases |s|
  {
    var n := |s|;
    var dot := if (n - 1) % 3 == 0 then "." else "";
    var tail := s[n - 3..];
    var head := s[..n - 3];
    SeparateStep(s);
    if n == 4 {
      SeparateFour(s);
    } else {
      var rest := s[1..];
      SeparateGroupsOfThree(rest);
      assert rest[..|rest| - 3] == head[1..];
      assert rest[|rest| - 3..] == tail;
      SeparateStep(head);
      Regroup([s[0]] + dot, Separate(head[1..]), tail);
    }
  }

  /** `formatNumber` on an integer: the sign, then the digits with '.' between thousands. */
  function FormatNumber(num: int): (r: string)
    ensures |r| >= 1
    ensures r[0] == '-' <==> num < 0
    ensures num >= 0 ==> IsDigit(r[0])
    ensures num < 0 ==> |r| >= 2 && IsDigit(r[1])
  {
    if num < 0 then "-" + Separate(Digits(-num)) else Separate(Digits(num))
  }

  /** Deleting the dots of `formatNumber` gives plain `toString()`, which reads back as the number. */
  lemma FormatNumberRoundTrip(num: int)
    ensures RemoveDots(FormatNumber(num)) == IntToString(num)
    ensures ParseInteger(RemoveDots(FormatNumber(num))) == Some(num)
  {
    var n: nat := if num < 0 then -num else num;
    assert '.' !in Digits(n);
    SeparateRoundTrip(Digits(n));
    if num < 0 {
      RemoveDotsAppend("-", Separate(Digits(n)));
    }
    IntToStringRoundTrip(num);
  }

  /** `formatNumberWithSign`: '+' or '-' in front of the grouped absolute value, and exactly "0" for zero. */
  function FormatNumberWithSign(num: int): (r: string)
    ensures num > 0 ==> r == "+" + FormatNumber(num)
    ensures num < 0 ==> r == "-" + FormatNumber(-num) && r == FormatNumber(num)
    ensures num == 0 ==> r == "0"
  {
    var formattedNum := Separate(Digits(if num < 0 then -num else num));
    if num > 0 then "+" + formattedNum
    else if num < 0 then "-" + formattedNum
    else "0"
  }

  /** Reads a signed, dotted number back. */
  function SignedFormattedValue(s: string): Option<int>
  {
    if |s| > 0 && s[0] == '+' then ParseInteger(RemoveDots(s[1..])) else ParseInteger(RemoveDots(s))
  }

  lemma FormatNumberWithSignRoundTrip(num: int)
    ensures SignedFormattedValue(FormatNumberWithSign(num)) == Some(num)
  {
    FormatNumberRoundTrip(num);
    var r := FormatNumberWithSign(num);
    if num > 0 {
      assert r[1..] == FormatNumber(num);
    } else if num == 0 {
      assert RemoveDots("0") == "0";
      assert Digits(0) == "0";
    }
  }

  /** The table's state. */
  class TableComponent {
    var secciones: seq<SectionRow>
    var totalPoblacion2024: int
    var totalPoblacion2011: int
    var totalDiferencia: int

    constructor ()
      ensures secciones == [] && totalPoblacion2024 == 0 && totalPoblacion2011 == 0 && totalDiferencia == 0
    {
      secciones := [];
      totalPoblacion2024 := 0;
      totalPoblacion2011 := 0;
      totalDiferencia := 0;
    }

    /**
     * `loadData`: one row per non-TOTAL 2024 row, in order, joined with the
     * 2011 population of the same raw code (0 when missing), and the totals.
     */
    method LoadData(poblacionData: seq<CensusRecord>, poblacion2011Data: seq<CensusRecord>)
      modifies this
      ensures var rows2024, rows2011 := WithoutTotal(poblacionData), WithoutTotal(poblacion2011Data);
        && |secciones| == |rows2024|
        && forall i :: 0 <= i < |secciones| ==>
          && secciones[i].code == rows2024[i].code
          && secciones[i].name == rows2024[i].name
          && secciones[i].population2024 == rows2024[i].population
          && secciones[i].population2011 == Population2011For(rows2011, rows2024[i].code)
          && secciones[i].difference == secciones[i].population2024 - secciones[i].population2011
      ensures totalPoblacion2024 == SumPopulation2024(secciones)
      ensures totalPoblacion2011 == SumPopulation2011(secciones)
      ensures totalDiferencia == totalPoblacion2024 - totalPoblacion2011
      ensures totalDiferencia == SumDifference(secciones)
    {
      var secciones2024 := WithoutTotal(poblacionData);
      var secciones2011 := WithoutTotal(poblacion2011Data);
      var poblacion2011Map := Population2011ByCode(secciones2011);
      var rows := JoinRows(secciones2024, poblacion2011Map);
      JoinWithLastRows(secciones2024, secciones2011, poblacion2011Map);
      TotalDifferenceIsSumOfDifferences(rows);
      secciones := rows;
      totalPoblacion2024 := SumPopulation2024(rows);
      totalPoblacion2011 := SumPopulation2011(rows);
      totalDiferencia := totalPoblacion2024 - totalPoblacion2011;
    }
  }
}
