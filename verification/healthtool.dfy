/**
 * `healthStatsTool.execute` of `src/tools/health-tool.ts`: resolve the
 * country, consult the cache, otherwise query the World Bank indicator API,
 * validate and shape the payload, write it back to the cache, and map every
 * failure to the error message the agent sees.
 *
 * The HTTP request is an input (`FetchOutcome`); the module-level cache handle
 * is an explicit optional cache state threaded through the call.
 */
module HealthTool {
  import opened Wrappers
  import opened Js
  import opened JsString
  import opened Dictionary
  import CacheService

  /** The tool's output record. */
  datatype StatResult = StatResult(
    country: Value,
    countryCode: Value,
    indicator: string,
    indicatorName: string,
    value: Value,
    year: Value,
    unit: string,
    success: bool)

  /** `indicatorNames`: display name per indicator identifier. */
  const IndicatorNames: map<string, string> := map[
    "life_expectancy" := "Life Expectancy at Birth",
    "infant_mortality" := "Infant Mortality Rate",
    "health_expenditure" := "Health Expenditure per Capita",
    "immunization" := "Immunization Coverage (DPT)",
    "skilled_births" := "Births Attended by Skilled Health Staff",
    "hiv_prevalence" := "HIV Prevalence"
  ]

  /** `units`: unit per indicator identifier. */
  const Units: map<string, string> := map[
    "life_expectancy" := "years",
    "infant_mortality" := "per 1,000 live births",
    "health_expenditure" := "USD",
    "immunization" := "% of children ages 12-23 months",
    "skilled_births" := "% of total births",
    "hiv_prevalence" := "% of population ages 15-49"
  ]

  /** What the `fetch` of the indicator URL does. */
  datatype FetchOutcome =
    | Aborted                                   // the 10 s timer fired: an `AbortError`
    | NetworkFailure(message: string)           // `fetch` rejects with another error
    | NotOk(status: nat, statusText: string)    // a response whose `ok` is false
    | UnreadableBody(message: string)           // `response.json()` rejects
    | Received(data: Value)                     // the parsed JSON body

  /** The clock readings and storage outcomes of the cache read and the cache write. */
  datatype ToolEnv = ToolEnv(
    readInit: CacheService.InitOutcome,
    readStorage: CacheService.Storage,
    readNow: int,
    writeInit: CacheService.InitOutcome,
    writeStorage: CacheService.Storage,
    writeNow: int)

  /**
   * One run of `execute`: the returned record or the thrown error's message,
   * the cache state afterwards (`None` when no cache service was installed),
   * and the URL requested from the World Bank, if any.
   */
  datatype Execution = Execution(
    outcome: Result<StatResult, string>,
    cache: Option<CacheService.Cache<StatResult>>,
    request: Option<string>)

  const FailedPrefix: string := "Failed to fetch health data: "

  const TimeoutMessage: string :=
    "Request timeout: " + "World Bank API took too long to respond. Please try again."

  function NotRecognizedMessage(country: string): string {
    "Country '" + country + "' not recognized. Try countries like: Nigeria, USA, India, UK, Kenya, Brazil, Japan, etc."
  }

  function NoDataMessage(country: string, i: Indicator): string {
    "No recent data available for " + country + " - " + Key(i)
    + ". The World Bank may not have this data for this country."
  }

  function ApiErrorMessage(status: nat, statusText: string): string {
    "World Bank API error: " + DecimalString(status) + " " + statusText
  }

  /** `country.toLowerCase().trim()`. */
  function NormalizeCountry(country: string): string {
    Trim(Lower(country))
  }

  /**
   * The country code the lookup accepts: the entry of `COUNTRY_CODES` whose
   * name is the normalised input. Only the table's own entries count.
   */
  function ResolveCountry(country: string): (r: Option<string>)
    ensures r.Some? <==> NormalizeCountry(country) in CountryCodes
    ensures r.Some? ==> r.value == CountryCodes[NormalizeCountry(country)]
  {
    var name := NormalizeCountry(country);
    if name in CountryCodes then Some(CountryCodes[name]) else None
  }

  /** `health:<countryCode>:<indicator>`. */
  function CacheKey(code: string, i: Indicator): string {
    "health:" + code + ":" + Key(i)
  }

  /** The World Bank query for the most recent non-empty value of one series. */
  function ApiUrl(code: string, i: Indicator): string {
    "https://api.worldbank.org/v2/country/" + code + "/indicator/" + IndicatorCodes[Key(i)]
    + "?format=json&mrnev=1&per_page=1"
  }

  /**
   * Validation and shaping of the parsed body `data`: `data[1]` must be a
   * non-empty list whose first element has a truthy `value`; the record takes
   * `country.value`, `countryiso3code`, `value` and `date` from that element.
   * The error messages here are the unwrapped ones.
   */
  function Shape(data: Value, country: string, i: Indicator): (r: Result<StatResult, string>)
    ensures r.Ok? ==> r.value.indicator == Key(i) && r.value.success && Truthy(r.value.value)
    ensures Nullish(data) ==> r == Err(ReadOfNullishMessage(data, "1"))
  {
    if Nullish(data) then Err(ReadOfNullishMessage(data, "1"))
    else
      var points := At(data, 1);
      if !Truthy(points) || Length(points) == Num(0.0) then Err(NoDataMessage(country, i))
      else
        var latest := At(points, 0);
        if Nullish(latest) || !Truthy(Get(latest, "value")) then Err(NoDataMessage(country, i))
        else
          var place := Get(latest, "country");
          if Nullish(place) then Err(ReadOfNullishMessage(place, "value"))
          else
            Ok(StatResult(
              Get(place, "value"),
              Get(latest, "countryiso3code"),
              Key(i),
              IndicatorNames[Key(i)],
              Get(latest, "value"),
              Get(latest, "date"),
              Units[Key(i)],
              true))
  }

  /**
   * What the request yields once the cache missed: the timeout message when
   * it was aborted, the shaped record when the body is usable, and otherwise
   * the wrapped failure.
   */
  function Fetched(country: string, i: Indicator, fetch: FetchOutcome): (r: Result<StatResult, string>)
    ensures r.Ok? ==> fetch.Received? && Shape(fetch.data, country, i) == r
    ensures fetch.Received? && Shape(fetch.data, country, i).Err? ==> r == Err(FailedPrefix + Shape(fetch.data, country, i).error)
  {
    match fetch
    case Aborted => Err(TimeoutMessage)
    case NetworkFailure(m) => Err(FailedPrefix + m)
    case NotOk(status, text) => Err(FailedPrefix + ApiErrorMessage(status, text))
    case UnreadableBody(m) => Err(FailedPrefix + m)
    case Received(data) =>
      match Shape(data, country, i)
      case Err(m) => Err(FailedPrefix + m)
      case Ok(r) => Ok(r)
  }

  /**
   * `execute({country, indicator})` with the corrected lookup: only the
   * table's own names get past the guard (see `ExecuteAsWritten` for the
   * lookup as the source writes it).
   */
  function Execute(country: string, i: Indicator, cache: Option<CacheService.Cache<StatResult>>,
                   env: ToolEnv, fetch: FetchOutcome): (e: Execution)
    ensures e.request.Some? ==> ResolveCountry(country).Some?
  {
    match ResolveCountry(country)
    case None => Execution(Err(NotRecognizedMessage(country)), cache, None)
    case Some(code) => ExecuteFor(country, code, i, cache, env, fetch)
  }

  /**
   * Everything after the guard, for the value `code` the lookup produced: the
   * cache read under `health:<code>:<indicator>`, and on a miss the request,
   * its outcome and the cache write.
   */
  function ExecuteFor(country: string, code: string, i: Indicator, cache: Option<CacheService.Cache<StatResult>>,
                      env: ToolEnv, fetch: FetchOutcome): (e: Execution)
    ensures e.request.None? ==> cache.Some? && e.outcome.Ok?
    ensures e.request.Some? ==> e.request.value == ApiUrl(code, i) && e.outcome == Fetched(country, i, fetch)
    ensures cache.None? ==> e.cache.None? && e.request.Some?
  {
    var key := CacheKey(code, i);
    var read := if cache.Some? then CacheService.Get(cache.value, env.readInit, key, env.readNow, env.readStorage)
                else CacheService.Read(CacheService.Cache(false, map[]), None);
    var afterRead := if cache.Some? then Some(read.cache) else None;
    if read.hit.Some? then Execution(Ok(read.hit.value), afterRead, None)
    else
      var outcome := Fetched(country, i, fetch);
      var afterWrite :=
        if outcome.Ok? && afterRead.Some?
        then Some(CacheService.Set(afterRead.value, env.writeInit, key, outcome.value, CacheService.CacheTtl,
                                   env.writeNow, env.writeStorage))
        else afterRead;
      Execution(outcome, afterWrite, Some(ApiUrl(code, i)))
  }

  /** Messages with different first characters are not prefixes of one another. */
  lemma NotPrefixByFirstChar(a: string, b: string)
    requires a != [] && b != [] && a[0] != b[0]
    ensures !(a <= b)
  {
  }

  // ---------------------------------------------------------------------------
  // Country resolution

  /** Every name of `COUNTRY_CODES` resolves to its own code when typed as stored. */
  lemma CountryNamesResolve(k: string)
    requires k in CountryCodes
    ensures ResolveCountry(k) == Some(CountryCodes[k])
  {
    CountryKeysAreLowerNames();
    assert Lower(k) == k;
    TrimOfTrimmed(k);
  }

  /**
   * The lookup ignores letter case and surrounding white space: a stored name
   * written in capitals and padded with trimmable characters resolves to the
   * same code.
   */
  lemma ResolveIgnoresCaseAndPadding(pre: string, k: string, post: string)
    requires k in CountryCodes
    requires forall i :: 0 <= i < |pre| ==> IsTrimmable(pre[i])
    requires forall i :: 0 <= i < |post| ==> IsTrimmable(post[i])
    ensures ResolveCountry(pre + UpperAscii(k) + post) == Some(CountryCodes[k])
  {
    CountryKeysAreLowerNames();
    LowerOfUpperAscii(pre, k, post);
    TrimIgnoresPadding(pre, k, post);
  }

  // ---------------------------------------------------------------------------
  // Cache keys

  /**
   * Cache keys identify their query: two keys built from alpha-3 codes are
   * equal only when both the code and the indicator are.
   */
  lemma CacheKeyInjective(c1: string, i1: Indicator, c2: string, i2: Indicator)
    requires IsAlpha3(c1) && IsAlpha3(c2)
    requires CacheKey(c1, i1) == CacheKey(c2, i2)
    ensures c1 == c2 && i1 == i2
  {
    var k1 := CacheKey(c1, i1);
    var k2 := CacheKey(c2, i2);
    assert k1[7..10] == c1;
    assert k2[7..10] == c2;
    assert k1[11..] == Key(i1);
    assert k2[11..] == Key(i2);
  }

  /** Every key the tool builds for a resolved country has the `health:` shape with an alpha-3 code. */
  lemma ResolvedKeyShape(country: string, i: Indicator)
    requires ResolveCountry(country).Some?
    ensures IsAlpha3(ResolveCountry(country).value)
    ensures |CacheKey(ResolveCountry(country).value, i)| == 11 + |Key(i)|
  {
    CountryCodesAreAlpha3();
  }

  // ---------------------------------------------------------------------------
  // Execution

  /**
   * An unrecognised country fails before the cache or the network is touched,
   * with the unwrapped "not recognized" message.
   */
  lemma UnrecognizedCountryFailsFirst(country: string, i: Indicator, cache: Option<CacheService.Cache<StatResult>>,
                                      env: ToolEnv, fetch: FetchOutcome)
    requires NormalizeCountry(country) !in CountryCodes
    ensures var e := Execute(country, i, cache, env, fetch);
            && e.outcome == Err(NotRecognizedMessage(country))
            && e.cache == cache && e.request == None
            && !(FailedPrefix <= e.outcome.error)
  {
    assert FailedPrefix[0] == 'F' && NotRecognizedMessage(country)[0] == 'C';
    NotPrefixByFirstChar(FailedPrefix, NotRecognizedMessage(country));
  }

  /** The cache read the tool performs, and whether it hits. */
  predicate CacheMisses(country: string, i: Indicator, cache: Option<CacheService.Cache<StatResult>>, env: ToolEnv)
    requires ResolveCountry(country).Some?
  {
    cache.Some? ==>
      CacheService.Get(cache.value, env.readInit, CacheKey(ResolveCountry(country).value, i), env.readNow, env.readStorage).hit.None?
  }

  /**
   * After a miss, the outcome is what the request yields, the request goes to
   * the country's URL, and the (initialised) cache is written only when that
   * outcome is a record.
   */
  lemma MissedExecution(country: string, i: Indicator, cache: Option<CacheService.Cache<StatResult>>,
                        env: ToolEnv, fetch: FetchOutcome)
    requires ResolveCountry(country).Some? && CacheMisses(country, i, cache, env)
    ensures var code := ResolveCountry(country).value;
            var afterRead := if cache.Some? then Some(CacheService.Init(cache.value, env.readInit)) else None;
            var outcome := Fetched(country, i, fetch);
            Execute(country, i, cache, env, fetch)
            == Execution(
                 outcome,
                 if outcome.Ok? && afterRead.Some?
                 then Some(CacheService.Set(afterRead.value, env.writeInit, CacheKey(code, i), outcome.value,
                                            CacheService.CacheTtl, env.writeNow, env.writeStorage))
                 else afterRead,
                 Some(ApiUrl(code, i)))
  {
  }

  /**
   * A cache hit is returned unchanged and consumes no network outcome; the
   * cache is only read.
   */
  lemma CacheHitShortCircuits(country: string, i: Indicator, c: CacheService.Cache<StatResult>,
                              env: ToolEnv, fetch: FetchOutcome)
    requires ResolveCountry(country).Some?
    requires !CacheMisses(country, i, Some(c), env)
    ensures var read := CacheService.Get(c, env.readInit, CacheKey(ResolveCountry(country).value, i), env.readNow, env.readStorage);
            var e := Execute(country, i, Some(c), env, fetch);
            e.outcome == Ok(read.hit.value) && e.request == None && e.cache == Some(read.cache)
  {
  }

  /** Without a cache service nothing is read or written, and the network is always queried. */
  lemma NoCacheServiceMeansNoCache(country: string, i: Indicator, env: ToolEnv, fetch: FetchOutcome)
    requires ResolveCountry(country).Some?
    ensures var e := Execute(country, i, None, env, fetch);
            e.cache == None && e.request == Some(ApiUrl(ResolveCountry(country).value, i))
  {
  }

  /** An aborted request yields the distinct timeout message, not the wrapped one. */
  lemma AbortIsTimeout(country: string, i: Indicator, cache: Option<CacheService.Cache<StatResult>>, env: ToolEnv)
    requires ResolveCountry(country).Some? && CacheMisses(country, i, cache, env)
    ensures Execute(country, i, cache, env, Aborted).outcome == Err(TimeoutMessage)
  {
    MissedExecution(country, i, cache, env, Aborted);
  }

  /** The timeout message is not one of the wrapped ones. */
  lemma TimeoutIsNotWrapped()
    ensures !(FailedPrefix <= TimeoutMessage)
  {
    NotPrefixByFirstChar(FailedPrefix, TimeoutMessage);
  }

  /** A non-ok HTTP status fails with a message naming the status, behind the wrapping prefix. */
  lemma NotOkIsWrapped(country: string, i: Indicator, cache: Option<CacheService.Cache<StatResult>>, env: ToolEnv,
                       status: nat, statusText: string)
    requires ResolveCountry(country).Some? && CacheMisses(country, i, cache, env)
    ensures var e := Execute(country, i, cache, env, NotOk(status, statusText));
            && e.outcome == Err(FailedPrefix + ApiErrorMessage(status, statusText))
            && e.cache == (if cache.Some? then Some(CacheService.Init(cache.value, env.readInit)) else None)
  {
    MissedExecution(country, i, cache, env, NotOk(status, statusText));
  }

  /** The payload shapes that carry no usable data point. */
  lemma ShapeRejectsMissingData(data: Value, country: string, i: Indicator,
                                meta: Value, first: map<string, Value>, rest: seq<Value>)
    requires "value" in first ==> first["value"] == Null || first["value"] == Num(0.0)
    requires || data == Arr([meta])
             || data == Arr([meta, Null])
             || data == Arr([meta, Arr([])])
             || data == Arr([meta, Arr([Obj(first)] + rest)])
    ensures Shape(data, country, i) == Err(NoDataMessage(country, i))
  {
    if data == Arr([meta]) {
      assert At(data, 1) == Undefined;
    } else if data == Arr([meta, Null]) {
      assert At(data, 1) == Null;
    } else if data == Arr([meta, Arr([])]) {
      assert Length(At(data, 1)) == Num(0.0);
    } else {
      assert At(data, 1) == Arr([Obj(first)] + rest);
      assert At(At(data, 1), 0) == Obj(first);
      assert !Truthy(Get(Obj(first), "value"));
    }
  }

  /**
   * The World Bank answers `[metadata, points]`. No points, an empty list, or
   * a first point whose `value` is missing, `null` or `0` is the wrapped
   * "no data" error, and nothing is written to the cache.
   */
  lemma NoDataIsWrapped(country: string, i: Indicator, cache: Option<CacheService.Cache<StatResult>>, env: ToolEnv,
                        data: Value, meta: Value, first: map<string, Value>, rest: seq<Value>)
    requires ResolveCountry(country).Some? && CacheMisses(country, i, cache, env)
    requires "value" in first ==> first["value"] == Null || first["value"] == Num(0.0)
    requires || data == Arr([meta])
             || data == Arr([meta, Null])
             || data == Arr([meta, Arr([])])
             || data == Arr([meta, Arr([Obj(first)] + rest)])
    ensures var e := Execute(country, i, cache, env, Received(data));
            && e.outcome == Err(FailedPrefix + NoDataMessage(country, i))
            && e.cache == (if cache.Some? then Some(CacheService.Init(cache.value, env.readInit)) else None)
  {
    ShapeRejectsMissingData(data, country, i, meta, first, rest);
    assert Fetched(country, i, Received(data)) == Err(FailedPrefix + NoDataMessage(country, i));
    MissedExecution(country, i, cache, env, Received(data));
  }

  /**
   * A record shaped from a payload carries the requested indicator, its
   * display name and unit from the fixed tables, `success = true`, the
   * country name and code of the payload's first point, and that point's
   * truthy (so non-null, non-zero) value.
   */
  lemma ShapedRecord(data: Value, country: string, i: Indicator)
    requires Shape(data, country, i).Ok?
    ensures !Nullish(data) && !Nullish(At(data, 1))
    ensures var latest := At(At(data, 1), 0);
            var r := Shape(data, country, i).value;
            && !Nullish(latest) && !Nullish(Get(latest, "country"))
            && r.indicator == Key(i)
            && r.indicatorName == IndicatorNames[Key(i)] && r.unit == Units[Key(i)]
            && r.success
            && r.country == Get(Get(latest, "country"), "value")
            && r.countryCode == Get(latest, "countryiso3code")
            && r.value == Get(latest, "value") && Truthy(r.value)
            && r.year == Get(latest, "date")
            && r.value != Null && r.value != Num(0.0)
  {
  }

  /**
   * A record that came from the network is the shaped payload, and it is what
   * the cache now holds under the query's key for `CACHE_TTL`, when the write
   * went through.
   */
  lemma FetchedResultIsCached(country: string, i: Indicator, cache: Option<CacheService.Cache<StatResult>>,
                              env: ToolEnv, fetch: FetchOutcome)
    requires var e := Execute(country, i, cache, env, fetch); e.outcome.Ok? && e.request.Some?
    ensures fetch.Received? && Shape(fetch.data, country, i) == Execute(country, i, cache, env, fetch).outcome
    ensures var e := Execute(country, i, cache, env, fetch);
            var key := CacheKey(ResolveCountry(country).value, i);
            e.cache.Some? && e.cache.value.initialized && env.writeStorage == CacheService.Succeeds ==>
              && key in e.cache.value.table
              && e.cache.value.table[key]
                 == CacheService.Entry(e.outcome.value, env.writeNow, env.writeNow + CacheService.CacheTtl)
  {
    RequestMeansMiss(country, i, cache, env, fetch);
    MissedExecution(country, i, cache, env, fetch);
  }

  /** The network is only asked after the name resolved and the cache missed. */
  lemma RequestMeansMiss(country: string, i: Indicator, cache: Option<CacheService.Cache<StatResult>>,
                         env: ToolEnv, fetch: FetchOutcome)
    requires Execute(country, i, cache, env, fetch).request.Some?
    ensures ResolveCountry(country).Some? && CacheMisses(country, i, cache, env)
  {
  }

  /**
   * Fetching is memoised: once a record has been fetched and written, asking
   * again for any name of the same country and the same indicator before
   * `CACHE_TTL` has elapsed returns the same record without a request.
   */
  lemma RepeatedQueryHitsCache(country: string, i: Indicator, c: CacheService.Cache<StatResult>, env: ToolEnv,
                               fetch: FetchOutcome, country': string, env': ToolEnv, fetch': FetchOutcome)
    requires var e := Execute(country, i, Some(c), env, fetch);
             && e.outcome.Ok? && e.request.Some?
             && e.cache.Some? && e.cache.value.initialized && env.writeStorage == CacheService.Succeeds
    requires ResolveCountry(country') == ResolveCountry(country)
    requires env'.readStorage == CacheService.Succeeds && env'.readNow < env.writeNow + CacheService.CacheTtl
    ensures var e := Execute(country, i, Some(c), env, fetch);
            var e' := Execute(country', i, e.cache, env', fetch');
            e'.outcome == e.outcome && e'.request == None
  {
    FetchedResultIsCached(country, i, Some(c), env, fetch);
  }

  // ---------------------------------------------------------------------------
  // The lookup as written

  /** Members every plain object inherits from `Object.prototype`. */
  const ObjectPrototypeMembers: set<string> := {
    "constructor", "hasOwnProperty", "isPrototypeOf", "propertyIsEnumerable",
    "toString", "toLocaleString", "valueOf", "__proto__",
    "__defineGetter__", "__defineSetter__", "__lookupGetter__", "__lookupSetter__"
  }

  /** What `COUNTRY_CODES[countryLower]` yields on the object literal. */
  datatype Lookup = Own(code: string) | Inherited(member: string) | Absent

  /**
   * The lookup as written: an index into a plain object, which also finds the
   * members inherited from `Object.prototype` (functions, or the prototype
   * object itself). All of these are truthy, so `!countryCode` rejects only
   * `Absent`.
   */
  function LookupAsWritten(country: string): (r: Lookup)
    ensures r.Absent? <==> NormalizeCountry(country) !in CountryCodes && NormalizeCountry(country) !in ObjectPrototypeMembers
  {
    var name := NormalizeCountry(country);
    if name in CountryCodes then Own(CountryCodes[name])
    else if name in ObjectPrototypeMembers then Inherited(name)
    else Absent
  }

  /**
   * The guard as written lets "constructor" through although no country has
   * that name; the corrected lookup rejects it.
   */
  lemma InheritedNamePassesGuard()
    ensures !LookupAsWritten("Constructor ").Absent?
    ensures ResolveCountry("Constructor ").None?
  {
    ConstructorNormalizes();
    CountryNameIsNotConstructor();
  }

  /** "Constructor " lower-cases and trims to "constructor". */
  lemma ConstructorNormalizes()
    ensures NormalizeCountry("Constructor ") == "constructor"
  {
    assert Lower("Constructor ") == "constructor ";
    assert Trim("constructor ") == "constructor" by {
      TrimIgnoresPadding([], "constructor", " ");
      assert [] + "constructor" + " " == "constructor ";
    }
  }

  lemma CountryNameIsNotConstructor()
    ensures "constructor" !in CountryCodes
  {
    var n := "constructor";
    assert Unnamed(Africa, n) by { AfricaEntries(); }
    assert Unnamed(Americas, n) by { AmericasEntries(); }
    assert Unnamed(Europe, n) by { EuropeEntries(); }
    assert Unnamed(Asia, n) by { AsiaEntries(); }
    assert Unnamed(Oceania, n);
    UnnamedAppend(Africa, Americas, n);
    UnnamedAppend(Africa + Americas, Europe, n);
    UnnamedAppend(Africa + Americas + Europe, Asia, n);
    UnnamedAppend(Africa + Americas + Europe + Asia, Oceania, n);
  }

  /** No entry of `t` carries the name `n`. */
  predicate Unnamed(t: seq<(string, string)>, n: string) {
    forall i :: 0 <= i < |t| ==> t[i].0 != n
  }

  lemma UnnamedAppend(a: seq<(string, string)>, b: seq<(string, string)>, n: string)
    requires Unnamed(a, n) && Unnamed(b, n)
    ensures Unnamed(a + b, n)
  {
    forall i | 0 <= i < |a + b|
      ensures (a + b)[i].0 != n
    {
      if i >= |a| {
        assert (a + b)[i] == b[i - |a|];
      }
    }
  }

  predicate HasAsciiUpper(s: string) {
    exists j :: 0 <= j < |s| && IsAsciiUpper(s[j])
  }

  /** Every inherited member but "constructor" and "__proto__" is spelled with a capital letter. */
  lemma InheritedMembersWithCapitals()
    ensures forall m :: m in ObjectPrototypeMembers && m != "constructor" && m != "__proto__" ==> HasAsciiUpper(m)
  {
    assert IsAsciiUpper("hasOwnProperty"[3]);
    assert IsAsciiUpper("isPrototypeOf"[2]);
    assert IsAsciiUpper("propertyIsEnumerable"[8]);
    assert IsAsciiUpper("toString"[2]);
    assert IsAsciiUpper("toLocaleString"[2]);
    assert IsAsciiUpper("valueOf"[5]);
    assert IsAsciiUpper("__defineGetter__"[8]);
    assert IsAsciiUpper("__defineSetter__"[8]);
    assert IsAsciiUpper("__lookupGetter__"[8]);
    assert IsAsciiUpper("__lookupSetter__"[8]);
  }

  /** "__proto__" is no country name: the names are letters and spaces. */
  lemma CountryNameIsNotProto()
    ensures "__proto__" !in CountryCodes
  {
    CountryKeysAreLowerNames();
    assert !IsLowerName("__proto__") by {
      assert "__proto__"[0] == '_';
    }
  }

  /**
   * After lower-casing and trimming, exactly two inherited members are
   * reachable: "constructor" and "__proto__".
   */
  lemma ReachableInheritedMembers(country: string)
    ensures LookupAsWritten(country).Inherited? <==> NormalizeCountry(country) in {"constructor", "__proto__"}
  {
    var name := NormalizeCountry(country);
    NormalizedHasNoUpper(country);
    InheritedMembersWithCapitals();
    CountryNameIsNotConstructor();
    CountryNameIsNotProto();
    assert !HasAsciiUpper(name);
  }

  /** Normalised names contain no upper-case ASCII letter. */
  lemma NormalizedHasNoUpper(country: string)
    ensures forall j :: 0 <= j < |NormalizeCountry(country)| ==> !IsAsciiUpper(NormalizeCountry(country)[j])
  {
    var l := Lower(country);
    TrimIsSlice(l);
  }

  /**
   * The text a template literal makes of an inherited member: V8's source
   * text of a built-in function, or "[object Object]" for `__proto__`, which
   * on the literal is `Object.prototype`.
   */
  function InheritedText(member: string): string {
    if member == "__proto__" then "[object Object]"
    else if member == "constructor" then ObjectConstructorText
    else "function " + member + "() { [native code] }"
  }

  const ObjectConstructorText: string := "function Object() { [native code] }"

  /**
   * `execute({country, indicator})` as written: whatever the object lookup
   * yields that is truthy, including an inherited member, goes on to the
   * cache and the request with its text standing in for the code.
   */
  function ExecuteAsWritten(country: string, i: Indicator, cache: Option<CacheService.Cache<StatResult>>,
                            env: ToolEnv, fetch: FetchOutcome): (e: Execution)
    ensures e.request.Some? ==> !LookupAsWritten(country).Absent?
  {
    match LookupAsWritten(country)
    case Absent => Execution(Err(NotRecognizedMessage(country)), cache, None)
    case Own(code) => ExecuteFor(country, code, i, cache, env, fetch)
    case Inherited(member) => ExecuteFor(country, InheritedText(member), i, cache, env, fetch)
  }

  /** The tool as written and the corrected tool differ only on names that reach an inherited member. */
  lemma AsWrittenAgreesOffInherited(country: string, i: Indicator, cache: Option<CacheService.Cache<StatResult>>,
                                    env: ToolEnv, fetch: FetchOutcome)
    ensures !LookupAsWritten(country).Inherited? ==>
              ExecuteAsWritten(country, i, cache, env, fetch) == Execute(country, i, cache, env, fetch)
    ensures LookupAsWritten(country).Inherited? ==>
              Execute(country, i, cache, env, fetch) == Execution(Err(NotRecognizedMessage(country)), cache, None)
  {
    ResolveAcceptsOnlyTableNames(country);
  }

  /**
   * As written, "Constructor " is served like a country whose code is the
   * text of the `Object` function: without a cache service the tool asks the
   * World Bank for that "country", where the corrected tool sends nothing.
   */
  lemma InheritedNameIsFetched(i: Indicator, cache: Option<CacheService.Cache<StatResult>>, env: ToolEnv, fetch: FetchOutcome)
    ensures ExecuteAsWritten("Constructor ", i, cache, env, fetch)
            == ExecuteFor("Constructor ", ObjectConstructorText, i, cache, env, fetch)
    ensures ExecuteAsWritten("Constructor ", i, None, env, fetch).request == Some(ApiUrl(ObjectConstructorText, i))
    ensures Execute("Constructor ", i, cache, env, fetch).request == None
  {
    ConstructorNormalizes();
    InheritedNamePassesGuard();
    ResolveAcceptsOnlyTableNames("Constructor ");
  }

  /** The corrected lookup accepts exactly the table's own names. */
  lemma ResolveAcceptsOnlyTableNames(country: string)
    ensures ResolveCountry(country).Some? <==> LookupAsWritten(country).Own?
    ensures ResolveCountry(country).None? <==> LookupAsWritten(country).Inherited? || LookupAsWritten(country).Absent?
  {
  }
}
