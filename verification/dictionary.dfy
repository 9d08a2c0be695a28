/**
 * The static dictionaries of `src/utils/helper.ts`: the World Bank series code
 * of each indicator (`INDICATORS`) and the ISO 3166-1 alpha-3 code of each
 * supported country name (`COUNTRY_CODES`).
 */
module Dictionary {
  import opened JsString

  /** The indicator identifiers the stats tool's input schema admits. */
  datatype Indicator =
    | LifeExpectancy
    | InfantMortality
    | HealthExpenditure
    | Immunization
    | SkilledBirths
    | HivPrevalence

  /** The identifier of an indicator as it appears on the wire and in cache keys. */
  function Key(i: Indicator): string {
    match i
    case LifeExpectancy => "life_expectancy"
    case InfantMortality => "infant_mortality"
    case HealthExpenditure => "health_expenditure"
    case Immunization => "immunization"
    case SkilledBirths => "skilled_births"
    case HivPrevalence => "hiv_prevalence"
  }

  /** The input schema's enum, in declaration order. */
  const IndicatorEnum: seq<string> := [
    "life_expectancy",
    "infant_mortality",
    "health_expenditure",
    "immunization",
    "skilled_births",
    "hiv_prevalence"
  ]

  /** `INDICATORS`: indicator identifier to World Bank series code. */
  const IndicatorCodes: map<string, string> := map[
    "life_expectancy" := "SP.DYN.LE00.IN",
    "infant_mortality" := "SP.DYN.IMRT.IN",
    "health_expenditure" := "SH.XPD.CHEX.PC.CD",
    "immunization" := "SH.IMM.IDPT",
    "skilled_births" := "SH.STA.BRTC.ZS",
    "hiv_prevalence" := "SH.DYN.AIDS.ZS"
  ]

  /**
   * `COUNTRY_CODES` in declaration order, one constant per commented group of
   * the object literal: lower-case country name paired with its ISO alpha-3 code.
   */
  const CountryTable: seq<(string, string)> := Africa + Americas + Europe + Asia + Oceania

  const Africa: seq<(string, string)> := [
    ("nigeria", "NGA"),
    ("ghana", "GHA"),
    ("kenya", "KEN"),
    ("south africa", "ZAF"),
    ("egypt", "EGY"),
    ("ethiopia", "ETH"),
    ("tanzania", "TZA"),
    ("uganda", "UGA"),
    ("morocco", "MAR"),
    ("algeria", "DZA")
  ]

  const Americas: seq<(string, string)> := [
    ("usa", "USA"),
    ("united states", "USA"),
    ("canada", "CAN"),
    ("brazil", "BRA"),
    ("mexico", "MEX"),
    ("argentina", "ARG"),
    ("colombia", "COL"),
    ("chile", "CHL")
  ]

  const Europe: seq<(string, string)> := [
    ("uk", "GBR"),
    ("united kingdom", "GBR"),
    ("germany", "DEU"),
    ("france", "FRA"),
    ("italy", "ITA"),
    ("spain", "ESP"),
    ("poland", "POL"),
    ("netherlands", "NLD")
  ]

  const Asia: seq<(string, string)> := [
    ("india", "IND"),
    ("china", "CHN"),
    ("japan", "JPN"),
    ("south korea", "KOR"),
    ("indonesia", "IDN"),
    ("pakistan", "PAK"),
    ("bangladesh", "BGD"),
    ("vietnam", "VNM"),
    ("philippines", "PHL"),
    ("thailand", "THA")
  ]

  const Oceania: seq<(string, string)> := [
    ("australia", "AUS"),
    ("new zealand", "NZL")
  ]

  /** `COUNTRY_CODES` as the object lookup sees it. */
  const CountryCodes: map<string, string> := TableToMap(CountryTable)

  /**
   * The record an object literal builds from its entries: every name is a key,
   * and a later entry for a name replaces an earlier one.
   */
  function TableToMap(t: seq<(string, string)>): (m: map<string, string>)
    ensures m.Keys == set i | 0 <= i < |t| :: t[i].0
  {
    if t == [] then map[]
    else
      var m := TableToMap(t[..|t| - 1]);
      assert forall i :: 0 <= i < |t| - 1 ==> t[..|t| - 1][i] == t[i];
      m[t[|t| - 1].0 := t[|t| - 1].1]
  }

  predicate DistinctNames(t: seq<(string, string)>) {
    forall i, j :: 0 <= i < j < |t| ==> t[i].0 != t[j].0
  }

  /** With distinct names, each entry of the table is what the record holds for its name. */
  lemma {:induction false} TableToMapLookup(t: seq<(string, string)>, i: nat)
    requires DistinctNames(t)
    requires i < |t|
    ensures t[i].0 in TableToMap(t) && TableToMap(t)[t[i].0] == t[i].1
    decreases |t|
  {
    if i < |t| - 1 {
      TableToMapLookup(t[..|t| - 1], i);
    }
  }

  /** With distinct names the record has one key per entry. */
  lemma {:induction false} TableToMapSize(t: seq<(string, string)>)
    requires DistinctNames(t)
    ensures |TableToMap(t)| == |t|
    decreases |t|
  {
    if t != [] {
      var p := t[..|t| - 1];
      TableToMapSize(p);
      assert t[|t| - 1].0 !in TableToMap(p);
    }
  }

  /** Three upper-case ASCII letters: the shape of an ISO 3166-1 alpha-3 code. */
  predicate IsAlpha3(code: string) {
    |code| == 3 && forall i :: 0 <= i < 3 ==> IsAsciiUpper(code[i])
  }

  /** Lower-case ASCII letters and inner spaces only. */
  predicate IsLowerName(name: string) {
    && name != []
    && name[0] != ' ' && name[|name| - 1] != ' '
    && forall i :: 0 <= i < |name| ==> ('a' <= name[i] <= 'z' || name[i] == ' ')
  }

  lemma IndicatorTableMatchesEnum()
    ensures IndicatorCodes.Keys == set k | k in IndicatorEnum
    ensures forall i: Indicator :: Key(i) in IndicatorCodes
    ensures |IndicatorEnum| == 6
  {
  }

  lemma IndicatorCodesDistinct()
    ensures forall a, b :: a in IndicatorCodes && b in IndicatorCodes && a != b ==> IndicatorCodes[a] != IndicatorCodes[b]
  {
  }

  /** The entries of `Africa` by position. */
  lemma AfricaEntries()
    ensures Africa[0] == ("nigeria", "NGA")
    ensures Africa[1] == ("ghana", "GHA")
    ensures Africa[2] == ("kenya", "KEN")
    ensures Africa[3] == ("south africa", "ZAF")
    ensures Africa[4] == ("egypt", "EGY")
    ensures Africa[5] == ("ethiopia", "ETH")
    ensures Africa[6] == ("tanzania", "TZA")
    ensures Africa[7] == ("uganda", "UGA")
    ensures Africa[8] == ("morocco", "MAR")
    ensures Africa[9] == ("algeria", "DZA")
  {
  }

  /** The entries of `Americas` by position. */
  lemma AmericasEntries()
    ensures Americas[0] == ("usa", "USA")
    ensures Americas[1] == ("united states", "USA")
    ensures Americas[2] == ("canada", "CAN")
    ensures Americas[3] == ("brazil", "BRA")
    ensures Americas[4] == ("mexico", "MEX")
    ensures Americas[5] == ("argentina", "ARG")
    ensures Americas[6] == ("colombia", "COL")
    ensures Americas[7] == ("chile", "CHL")
  {
  }

  /** The entries of `Europe` by position. */
  lemma EuropeEntries()
    ensures Europe[0] == ("uk", "GBR")
    ensures Europe[1] == ("united kingdom", "GBR")
    ensures Europe[2] == ("germany", "DEU")
    ensures Europe[3] == ("france", "FRA")
    ensures Europe[4] == ("italy", "ITA")
    ensures Europe[5] == ("spain", "ESP")
    ensures Europe[6] == ("poland", "POL")
    ensures Europe[7] == ("netherlands", "NLD")
  {
  }

  /** The entries of `Asia` by position. */
  lemma AsiaEntries()
    ensures Asia[0] == ("india", "IND")
    ensures Asia[1] == ("china", "CHN")
    ensures Asia[2] == ("japan", "JPN")
    ensures Asia[3] == ("south korea", "KOR")
    ensures Asia[4] == ("indonesia", "IDN")
    ensures Asia[5] == ("pakistan", "PAK")
    ensures Asia[6] == ("bangladesh", "BGD")
    ensures Asia[7] == ("vietnam", "VNM")
    ensures Asia[8] == ("philippines", "PHL")
    ensures Asia[9] == ("thailand", "THA")
  {
  }

  /** The entries of `Oceania` by position. */
  lemma OceaniaEntries()
    ensures Oceania[0] == ("australia", "AUS")
    ensures Oceania[1] == ("new zealand", "NZL")
  {
  }

  predicate WellFormedEntry(e: (string, string)) {
    IsLowerName(e.0) && IsAlpha3(e.1)
  }

  predicate AllWellFormed(t: seq<(string, string)>) {
    forall i :: 0 <= i < |t| ==> WellFormedEntry(t[i])
  }

  predicate NamesLower(t: seq<(string, string)>) {
    forall i :: 0 <= i < |t| ==> IsLowerName(t[i].0)
  }

  predicate CodesAlpha3(t: seq<(string, string)>) {
    forall i :: 0 <= i < |t| ==> IsAlpha3(t[i].1)
  }

  lemma AfricaNames() ensures NamesLower(Africa) { AfricaEntries(); }
  lemma AfricaCodes() ensures CodesAlpha3(Africa) { AfricaEntries(); }
  lemma AmericasNames() ensures NamesLower(Americas) { AmericasEntries(); }
  lemma AmericasCodes() ensures CodesAlpha3(Americas) { AmericasEntries(); }
  lemma EuropeNames() ensures NamesLower(Europe) { EuropeEntries(); }
  lemma EuropeCodes() ensures CodesAlpha3(Europe) { EuropeEntries(); }
  lemma AsiaNames() ensures NamesLower(Asia) { AsiaEntries(); }
  lemma AsiaCodes() ensures CodesAlpha3(Asia) { AsiaEntries(); }
  lemma AfricaWellFormed() ensures AllWellFormed(Africa) { AfricaNames(); AfricaCodes(); }
  lemma AmericasWellFormed() ensures AllWellFormed(Americas) { AmericasNames(); AmericasCodes(); }
  lemma EuropeWellFormed() ensures AllWellFormed(Europe) { EuropeNames(); EuropeCodes(); }
  lemma AsiaWellFormed() ensures AllWellFormed(Asia) { AsiaNames(); AsiaCodes(); }
  lemma OceaniaWellFormed() ensures AllWellFormed(Oceania) { OceaniaEntries(); }

  lemma AppendWellFormed(a: seq<(string, string)>, b: seq<(string, string)>)
    requires AllWellFormed(a) && AllWellFormed(b)
    ensures AllWellFormed(a + b)
  {
    forall i | 0 <= i < |a + b|
      ensures WellFormedEntry((a + b)[i])
    {
      if i >= |a| {
        assert (a + b)[i] == b[i - |a|];
      }
    }
  }

  lemma TableWellFormed()
    ensures AllWellFormed(CountryTable)
  {
    AfricaWellFormed();
    AmericasWellFormed();
    EuropeWellFormed();
    AsiaWellFormed();
    OceaniaWellFormed();
    AppendWellFormed(Africa, Americas);
    AppendWellFormed(Africa + Americas, Europe);
    AppendWellFormed(Africa + Americas + Europe, Asia);
    AppendWellFormed(Africa + Americas + Europe + Asia, Oceania);
  }

  /** The two names the table gives to one country each. */
  predicate IsAlias(a: string, b: string) {
    || (a == "usa" && b == "united states") || (a == "united states" && b == "usa")
    || (a == "uk" && b == "united kingdom") || (a == "united kingdom" && b == "uk")
  }

  /** Two entries of `t` share a code only when their names are aliases of each other. */
  predicate OnlyAliasesShareCodes(t: seq<(string, string)>) {
    forall i, j :: 0 <= i < j < |t| && t[i].1 == t[j].1 ==> IsAlias(t[i].0, t[j].0)
  }

  predicate Consistent(t: seq<(string, string)>) {
    DistinctNames(t) && OnlyAliasesShareCodes(t)
  }

  /** No name and no code of `a` occurs in `b`. */
  predicate Separate(a: seq<(string, string)>, b: seq<(string, string)>) {
    NamesApart(a, b) && CodesApart(a, b)
  }

  predicate NamesApart(a: seq<(string, string)>, b: seq<(string, string)>) {
    forall i, j :: 0 <= i < |a| && 0 <= j < |b| ==> a[i].0 != b[j].0
  }

  predicate CodesApart(a: seq<(string, string)>, b: seq<(string, string)>) {
    forall i, j :: 0 <= i < |a| && 0 <= j < |b| ==> a[i].1 != b[j].1
  }

  lemma AfricaNamesDistinct() ensures DistinctNames(Africa) { AfricaEntries(); }
  lemma AfricaCodesUnshared() ensures OnlyAliasesShareCodes(Africa) { AfricaEntries(); }
  lemma AfricaConsistent() ensures Consistent(Africa) { AfricaNamesDistinct(); AfricaCodesUnshared(); }
  lemma AmericasNamesDistinct() ensures DistinctNames(Americas) { AmericasEntries(); }
  lemma AmericasCodesUnshared() ensures OnlyAliasesShareCodes(Americas) { AmericasEntries(); }
  lemma AmericasConsistent() ensures Consistent(Americas) { AmericasNamesDistinct(); AmericasCodesUnshared(); }
  lemma EuropeNamesDistinct() ensures DistinctNames(Europe) { EuropeEntries(); }
  lemma EuropeCodesUnshared() ensures OnlyAliasesShareCodes(Europe) { EuropeEntries(); }
  lemma EuropeConsistent() ensures Consistent(Europe) { EuropeNamesDistinct(); EuropeCodesUnshared(); }
  lemma AsiaNamesDistinct() ensures DistinctNames(Asia) { AsiaEntries(); }
  lemma AsiaCodesUnshared() ensures OnlyAliasesShareCodes(Asia) { AsiaEntries(); }
  lemma AsiaConsistent() ensures Consistent(Asia) { AsiaNamesDistinct(); AsiaCodesUnshared(); }
  lemma OceaniaConsistent() ensures Consistent(Oceania) { OceaniaEntries(); }

  lemma AfricaAmericasNamesApart() ensures NamesApart(Africa, Americas) {}
  lemma AfricaAmericasApart() ensures Separate(Africa, Americas) { AfricaAmericasNamesApart(); }
  lemma AfricaEuropeNamesApart() ensures NamesApart(Africa, Europe) {}
  lemma AfricaEuropeApart() ensures Separate(Africa, Europe) { AfricaEuropeNamesApart(); }
  lemma AfricaAsiaNamesApart() ensures NamesApart(Africa, Asia) {}
  lemma AfricaAsiaApart() ensures Separate(Africa, Asia) { AfricaAsiaNamesApart(); }
  lemma AfricaOceaniaNamesApart() ensures NamesApart(Africa, Oceania) {}
  lemma AfricaOceaniaApart() ensures Separate(Africa, Oceania) { AfricaOceaniaNamesApart(); }
  lemma AmericasEuropeNamesApart() ensures NamesApart(Americas, Europe) {}
  lemma AmericasEuropeApart() ensures Separate(Americas, Europe) { AmericasEuropeNamesApart(); }
  lemma AmericasAsiaNamesApart() ensures NamesApart(Americas, Asia) {}
  lemma AmericasAsiaApart() ensures Separate(Americas, Asia) { AmericasAsiaNamesApart(); }
  lemma AmericasOceaniaNamesApart() ensures NamesApart(Americas, Oceania) {}
  lemma AmericasOceaniaApart() ensures Separate(Americas, Oceania) { AmericasOceaniaNamesApart(); }
  lemma EuropeAsiaNamesApart() ensures NamesApart(Europe, Asia) {}
  lemma EuropeAsiaApart() ensures Separate(Europe, Asia) { EuropeAsiaNamesApart(); }
  lemma EuropeOceaniaNamesApart() ensures NamesApart(Europe, Oceania) {}
  lemma EuropeOceaniaApart() ensures Separate(Europe, Oceania) { EuropeOceaniaNamesApart(); }
  lemma AsiaOceaniaNamesApart() ensures NamesApart(Asia, Oceania) {}
  lemma AsiaOceaniaApart() ensures Separate(Asia, Oceania) { AsiaOceaniaNamesApart(); }

  lemma AfricaSeparate()
    ensures Separate(Africa, Americas) && Separate(Africa, Europe)
    ensures Separate(Africa, Asia) && Separate(Africa, Oceania)
  {
    AfricaAmericasApart();
    AfricaEuropeApart();
    AfricaAsiaApart();
    AfricaOceaniaApart();
  }

  lemma AmericasSeparate()
    ensures Separate(Americas, Europe) && Separate(Americas, Asia) && Separate(Americas, Oceania)
  {
    AmericasEuropeApart();
    AmericasAsiaApart();
    AmericasOceaniaApart();
  }

  lemma EuropeAsiaOceaniaSeparate()
    ensures Separate(Europe, Asia) && Separate(Europe, Oceania) && Separate(Asia, Oceania)
  {
    EuropeAsiaApart();
    EuropeOceaniaApart();
    AsiaOceaniaApart();
  }

  lemma SeparateAppend(a: seq<(string, string)>, b: seq<(string, string)>, c: seq<(string, string)>)
    requires Separate(a, c) && Separate(b, c)
    ensures Separate(a + b, c)
  {
    forall i, j | 0 <= i < |a + b| && 0 <= j < |c|
      ensures (a + b)[i].0 != c[j].0 && (a + b)[i].1 != c[j].1
    {
      if i >= |a| {
        assert (a + b)[i] == b[i - |a|];
      }
    }
  }

  lemma AppendConsistent(a: seq<(string, string)>, b: seq<(string, string)>)
    requires Consistent(a) && Consistent(b) && Separate(a, b)
    ensures Consistent(a + b)
  {
    var t := a + b;
    forall i | 0 <= i < |t|
      ensures i < |a| ==> t[i] == a[i]
      ensures i >= |a| ==> t[i] == b[i - |a|]
    {
    }
  }

  /** The names of `COUNTRY_CODES` are distinct, and only aliases share a code. */
  lemma TableConsistent()
    ensures Consistent(CountryTable)
  {
    AfricaConsistent();
    AmericasConsistent();
    EuropeConsistent();
    AsiaConsistent();
    OceaniaConsistent();
    AfricaSeparate();
    AmericasSeparate();
    EuropeAsiaOceaniaSeparate();
    AppendConsistent(Africa, Americas);
    SeparateAppend(Africa, Americas, Europe);
    AppendConsistent(Africa + Americas, Europe);
    SeparateAppend(Africa, Americas, Asia);
    SeparateAppend(Africa + Americas, Europe, Asia);
    AppendConsistent(Africa + Americas + Europe, Asia);
    SeparateAppend(Africa, Americas, Oceania);
    SeparateAppend(Africa + Americas, Europe, Oceania);
    SeparateAppend(Africa + Americas + Europe, Asia, Oceania);
    AppendConsistent(Africa + Americas + Europe + Asia, Oceania);
  }

  lemma CountryNamesDistinct()
    ensures DistinctNames(CountryTable)
  {
    TableConsistent();
  }

  /** With distinct names, every key of the record comes from an entry of the table, with that entry's code. */
  lemma TableEntry(t: seq<(string, string)>, k: string) returns (i: nat)
    requires DistinctNames(t) && k in TableToMap(t)
    ensures i < |t| && t[i].0 == k && TableToMap(t)[k] == t[i].1
  {
    i :| 0 <= i < |t| && t[i].0 == k;
    TableToMapLookup(t, i);
  }

  /** Every key of `COUNTRY_CODES` is the name at some position of the table, and maps to that entry's code. */
  lemma CountryEntry(k: string) returns (i: nat)
    requires k in CountryCodes
    ensures i < |CountryTable| && CountryTable[i].0 == k && CountryCodes[k] == CountryTable[i].1
  {
    CountryNamesDistinct();
    i := TableEntry(CountryTable, k);
  }

  /** Every value of `COUNTRY_CODES` is three upper-case ASCII letters. */
  lemma CountryCodesAreAlpha3()
    ensures forall k :: k in CountryCodes ==> IsAlpha3(CountryCodes[k])
  {
    TableWellFormed();
    forall k | k in CountryCodes
      ensures IsAlpha3(CountryCodes[k])
    {
      var i := CountryEntry(k);
    }
  }

  /** Every key of `COUNTRY_CODES` is lower-case letters and inner spaces. */
  lemma CountryKeysAreLowerNames()
    ensures forall k :: k in CountryCodes ==> IsLowerName(k)
  {
    TableWellFormed();
    forall k | k in CountryCodes
      ensures IsLowerName(k)
    {
      var i := CountryEntry(k);
    }
  }

  /** `COUNTRY_CODES` has 38 names. */
  lemma CountryNameCount()
    ensures |CountryCodes| == 38
  {
    CountryNamesDistinct();
    TableToMapSize(CountryTable);
  }

  /** The aliases resolve to one code: "usa" and "united states" to USA, "uk" and "united kingdom" to GBR. */
  lemma AliasesShareCode()
    ensures "usa" in CountryCodes && "united states" in CountryCodes
    ensures CountryCodes["usa"] == CountryCodes["united states"] == "USA"
    ensures "uk" in CountryCodes && "united kingdom" in CountryCodes
    ensures CountryCodes["uk"] == CountryCodes["united kingdom"] == "GBR"
  {
    AmericasEntries();
    EuropeEntries();
    CountryNamesDistinct();
    var americasAt := |Africa|;
    var europeAt := |Africa + Americas|;
    assert (Africa + Americas)[americasAt] == Americas[0] && (Africa + Americas)[americasAt + 1] == Americas[1];
    assert (Africa + Americas + Europe)[europeAt] == Europe[0] && (Africa + Americas + Europe)[europeAt + 1] == Europe[1];
    TableToMapLookup(CountryTable, americasAt);
    TableToMapLookup(CountryTable, americasAt + 1);
    TableToMapLookup(CountryTable, europeAt);
    TableToMapLookup(CountryTable, europeAt + 1);
  }

  lemma AliasSymmetric(a: string, b: string)
    requires IsAlias(a, b)
    ensures IsAlias(b, a)
  {
  }

  /** In a consistent table two different names share a code only when they are aliases. */
  lemma TableOnlyAliases(t: seq<(string, string)>)
    requires Consistent(t)
    ensures forall a, b :: a in TableToMap(t) && b in TableToMap(t) && a != b && TableToMap(t)[a] == TableToMap(t)[b] ==> IsAlias(a, b)
  {
    forall a, b | a in TableToMap(t) && b in TableToMap(t) && a != b && TableToMap(t)[a] == TableToMap(t)[b]
      ensures IsAlias(a, b)
    {
      var i := TableEntry(t, a);
      var j := TableEntry(t, b);
      if j < i {
        assert t[j].1 == t[i].1;
        AliasSymmetric(b, a);
      } else {
        assert i < j && t[i].1 == t[j].1;
      }
    }
  }

  /** Two different names of `COUNTRY_CODES` share a code only when they are one of the alias pairs. */
  lemma OnlyAliasesCollide()
    ensures forall a, b :: a in CountryCodes && b in CountryCodes && a != b && CountryCodes[a] == CountryCodes[b] ==> IsAlias(a, b)
  {
    TableConsistent();
    TableOnlyAliases(CountryTable);
  }

  /** An injective map has as many distinct values as keys. */
  lemma {:induction false} InjectiveValueCount(m: map<string, string>)
    requires forall a, b :: a in m && b in m && a != b ==> m[a] != m[b]
    ensures |m.Values| == |m|
    decreases |m|
  {
    if m != map[] {
      var k :| k in m;
      var rest := m - {k};
      InjectiveValueCount(rest);
      assert m.Values == rest.Values + {m[k]} by {
        forall v | v in m.Values
          ensures v in rest.Values + {m[k]}
        {
          var k' :| k' in m && m[k'] == v;
          if k' != k {
            assert rest[k'] == v;
          }
        }
      }
      assert m[k] !in rest.Values;
    }
  }

  /** Dropping names whose code another kept name also has leaves the set of codes unchanged. */
  lemma DropDuplicatesKeepsValues(m: map<string, string>, drop: set<string>)
    requires drop <= m.Keys
    requires forall k :: k in drop ==> exists k' :: k' in m && k' !in drop && m[k'] == m[k]
    ensures (m - drop).Values == m.Values
  {
    forall v | v in m.Values
      ensures v in (m - drop).Values
    {
      var k :| k in m && m[k] == v;
      if k in drop {
        var k' :| k' in m && k' !in drop && m[k'] == m[k];
        assert (m - drop)[k'] == v;
      } else {
        assert (m - drop)[k] == v;
      }
    }
  }

  /** Removing a present key shrinks a map by one. */
  lemma RemoveOne(m: map<string, string>, k: string)
    requires k in m
    ensures |m - {k}| == |m| - 1
  {
    assert (m - {k}).Keys == m.Keys - {k};
  }

  /** A map whose only shared values are those of the two alias pairs has two values fewer than keys. */
  lemma AliasedValueCount(m: map<string, string>)
    requires "usa" in m && "united states" in m && m["usa"] == m["united states"]
    requires "uk" in m && "united kingdom" in m && m["uk"] == m["united kingdom"]
    requires forall a, b :: a in m && b in m && a != b && m[a] == m[b] ==> IsAlias(a, b)
    ensures |m.Values| == |m| - 2
  {
    RemoveOne(m, "united states");
    var m1 := m - {"united states"};
    RemoveOne(m1, "united kingdom");
    var m2 := m1 - {"united kingdom"};
    var drop := {"united states", "united kingdom"};
    assert m2 == m - drop;
    forall k | k in drop
      ensures exists k' :: k' in m && k' !in drop && m[k'] == m[k]
    {
      if k == "united states" {
        assert "usa" !in drop;
      } else {
        assert "uk" !in drop;
      }
    }
    DropDuplicatesKeepsValues(m, drop);
    assert forall a, b :: a in m2 && b in m2 && a != b ==> !IsAlias(a, b);
    InjectiveValueCount(m2);
  }

  /** 38 names share 36 codes. */
  lemma CountryCodeCount()
    ensures |CountryCodes.Values| == 36
  {
    CountryNameCount();
    OnlyAliasesCollide();
    AliasesShareCode();
    AliasedValueCount(CountryCodes);
  }
}
