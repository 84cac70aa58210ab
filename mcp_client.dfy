/**
  Three handlers of the chatbot's tool client, each over the loaded airport
  database: the airport search, the border-crossing airports grouped by
  country, and the fuel availability and prices of an airport.
 */
module McpHandlers {
  import opened Wrappers
  import opened Seqs
  import opened PyStr
  import opened PyValue
  import opened Buckets
  import opened Airports

  type Dict = seq<(string, Value)>

  // ---------------------------------------------------------------- search

  /** An airport matches the (uppercased, stripped) query by ident, name, IATA code or municipality. */
  predicate SearchMatch(q: string, a: Airport) {
    || Contains(a.ident, q)
    || (OptTruthy(a.name) && Contains(Upper(a.name.value), q))
    || (OptTruthy(a.iataCode) && Contains(a.iataCode.value, q))
    || (OptTruthy(a.municipality) && Contains(Upper(a.municipality.value), q))
  }

  /** The matching airports, in database order. */
  function Matching(airports: seq<Airport>, q: string): (r: seq<Airport>)
    ensures |r| <= |airports|
    ensures forall a :: a in r ==> a in airports && SearchMatch(q, a)
    ensures forall a :: a in airports && SearchMatch(q, a) ==> a in r
  {
    if airports == [] then []
    else
      var last := airports[|airports| - 1];
      Matching(airports[..|airports| - 1], q) + (if SearchMatch(q, last) then [last] else [])
  }

  lemma {:induction false} MatchingConcat(a: seq<Airport>, b: seq<Airport>, q: string)
    ensures Matching(a + b, q) == Matching(a, q) + Matching(b, q)
  {
    if b != [] {
      var b' := b[..|b| - 1];
      assert (a + b)[..|a + b| - 1] == a + b';
      MatchingConcat(a, b', q);
    } else {
      assert a + b == a;
    }
  }

  /** The summaries of a list of airports, in order. */
  function Summaries(airports: seq<Airport>): (r: seq<Value>)
    ensures |r| == |airports|
    ensures forall i :: 0 <= i < |airports| ==> r[i] == SearchSummary(airports[i])
  {
    if airports == [] then [] else Summaries(airports[..|airports| - 1]) + [SearchSummary(airports[|airports| - 1])]
  }

  /** The dict a search appends for a matching airport. */
  function SearchSummary(a: Airport): Value {
    VDict([
      ("ident", VStr(a.ident)),
      ("name", OptStr(a.name)),
      ("municipality", OptStr(a.municipality)),
      ("country", OptStr(a.isoCountry)),
      ("latitude_deg", OptReal(a.latitudeDeg)),
      ("longitude_deg", OptReal(a.longitudeDeg)),
      ("longest_runway_length_ft", OptReal(a.longestRunwayLengthFt)),
      ("point_of_entry", VBool(a.pointOfEntry))])
  }

  /**
    How many matches the loop keeps at most: it appends before testing
    `len(matches) >= max_results`, so at least one, and otherwise the least
    count that reaches the bound.
   */
  function Limit(maxResults: real): (n: nat)
    ensures n >= 1 && n as real >= maxResults
    ensures n > 1 ==> ((n - 1) as real) < maxResults
  {
    if maxResults <= 1.0 then 1
    else if maxResults.Floor as real == maxResults then maxResults.Floor
    else maxResults.Floor + 1
  }

  /** `sub in s` for `q` at any position: the empty query occurs in every string. */
  lemma EmptyOccurs(s: string)
    ensures Contains(s, "")
  {
    assert OccursAt(s, "", 0);
  }

  /**
    The airports a search returns: the first matches, at most `Limit` of them.
    `maxResults` is None when it is not a number: comparing it raises at the
    first match.
   */
  function SearchSpec(airports: seq<Airport>, q: string, maxResults: Option<real>): Query<seq<Airport>> {
    var found := Matching(airports, q);
    if found == [] then Found([])
    else if maxResults.None? then Raises
    else Found(found[..Min(|found|, Limit(maxResults.value))])
  }

  /** The result dict of a search with the given matches. */
  function SearchResultDict(matches: seq<Value>): Dict {
    [("count", VInt(|matches|)),
     ("airports", VList(matches)),
     ("visualization", VDict([("type", VStr("markers")), ("data", VList(matches))]))]
  }

  function SearchResult(airports: seq<Airport>, query: string, maxResults: Option<real>): Query<Dict> {
    match SearchSpec(airports, Strip(Upper(query)), maxResults)
    case Raises => Raises
    case Found(found) => Found(SearchResultDict(Summaries(found)))
  }

  /**
    The search keeps the first matching airports in database order: every
    returned airport matches, at most `Limit` are returned, they are a prefix
    of all the matches, and fewer than `Limit` means every match.
   */
  lemma SearchSpecMeaning(airports: seq<Airport>, q: string, maxResults: real)
    ensures var r := SearchSpec(airports, q, Some(maxResults));
      var found := Matching(airports, q);
      && r.Found?
      && |r.value| <= Limit(maxResults)
      && r.value == found[..|r.value|]
      && (forall a :: a in r.value ==> a in airports && SearchMatch(q, a))
      && (|r.value| < Limit(maxResults) ==> r.value == found)
  {
  }

  /** The bound is checked after the append: a bound of zero or less still returns the first match. */
  lemma SearchAtLeastOne(airports: seq<Airport>, q: string, maxResults: real)
    requires maxResults <= 0.0
    requires exists a :: a in airports && SearchMatch(q, a)
    ensures var r := SearchSpec(airports, q, Some(maxResults)); r.Found? && |r.value| == 1
  {
    var a :| a in airports && SearchMatch(q, a);
    assert a in Matching(airports, q);
  }

  /** An empty (or all-blank) query matches every airport. */
  lemma EmptyQueryMatchesAll(airports: seq<Airport>, maxResults: real)
    ensures SearchSpec(airports, "", Some(maxResults)).value ==
      airports[..Min(|airports|, Limit(maxResults))]
  {
    forall i | 0 <= i < |airports| ensures SearchMatch("", airports[i]) {
      EmptyOccurs(airports[i].ident);
    }
    MatchingAll(airports, "");
  }

  lemma {:induction false} MatchingAll(airports: seq<Airport>, q: string)
    requires forall i :: 0 <= i < |airports| ==> SearchMatch(q, airports[i])
    ensures Matching(airports, q) == airports
  {
    if airports != [] {
      var p := airports[..|airports| - 1];
      forall i | 0 <= i < |p| ensures SearchMatch(q, p[i]) {
        assert p[i] == airports[i];
      }
      MatchingAll(p, q);
      assert SearchMatch(q, airports[|airports| - 1]);
      assert p + [airports[|airports| - 1]] == airports;
    }
  }

  /** The matches of a prefix are a prefix of the matches. */
  lemma MatchingPrefix(airports: seq<Airport>, i: nat, q: string)
    requires i <= |airports|
    ensures Matching(airports, q) == Matching(airports[..i], q) + Matching(airports[i..], q)
  {
    assert airports == airports[..i] + airports[i..];
    MatchingConcat(airports[..i], airports[i..], q);
  }

  /** The loop stops at the match that reaches the bound: what it has then is the search's answer. */
  lemma SearchStopsAtBound(airports: seq<Airport>, q: string, maxResults: real, i: nat)
    requires i < |airports|
    requires var f := Matching(airports[..i + 1], q);
      f != [] && |f| as real >= maxResults && (|f| == 1 || ((|f| - 1) as real) < maxResults)
    ensures SearchSpec(airports, q, Some(maxResults)) == Found(Matching(airports[..i + 1], q))
  {
    var f := Matching(airports[..i + 1], q);
    MatchingPrefix(airports, i + 1, q);
    var found := Matching(airports, q);
    assert found[..|f|] == f;
    assert Limit(maxResults) == |f|;
  }

  /** A loop that ran to the end without reaching the bound returned every match. */
  lemma SearchRanOut(airports: seq<Airport>, q: string, maxResults: Option<real>)
    requires var f := Matching(airports, q);
      f == [] || (maxResults.Some? && (|f| as real) < maxResults.value)
    ensures SearchSpec(airports, q, maxResults) == Found(Matching(airports, q))
  {
    var f := Matching(airports, q);
    if f != [] {
      assert |f| < Limit(maxResults.value);
      assert f[..|f|] == f;
    }
  }

  lemma SearchStep(airports: seq<Airport>, q: string, i: nat)
    requires i < |airports|
    ensures SearchMatch(q, airports[i]) ==>
      && Matching(airports[..i + 1], q) == Matching(airports[..i], q) + [airports[i]]
      && Summaries(Matching(airports[..i + 1], q)) ==
         Summaries(Matching(airports[..i], q)) + [SearchSummary(airports[i])]
    ensures !SearchMatch(q, airports[i]) ==> Matching(airports[..i + 1], q) == Matching(airports[..i], q)
  {
    assert airports[..i + 1][..i] == airports[..i];
    assert Matching(airports[..i], q) + [] == Matching(airports[..i], q);
  }

  /** When the first match finds no numeric bound to compare with, the search raises. */
  lemma SearchRaises(airports: seq<Airport>, q: string, i: nat)
    requires i < |airports| && SearchMatch(q, airports[i])
    ensures SearchSpec(airports, q, None) == Raises
  {
    SearchStep(airports, q, i);
    MatchingPrefix(airports, i + 1, q);
  }

  /** The summaries of the airports a search returns. */
  function SearchSummaries(airports: seq<Airport>, q: string, maxResults: Option<real>): Query<seq<Value>> {
    match SearchSpec(airports, q, maxResults)
    case Raises => Raises
    case Found(found) => Found(Summaries(found))
  }

  /** The loop of `_search_airports`, for the normalised query `q`. */
  method CollectMatches(airports: seq<Airport>, q: string, maxResults: Option<real>) returns (r: Query<seq<Value>>)
    ensures r == SearchSummaries(airports, q, maxResults)
  {
    var matches: seq<Value> := [];
    var i := 0;
    while i < |airports|
      invariant 0 <= i <= |airports|
      invariant matches == Summaries(Matching(airports[..i], q))
      invariant matches == [] || (maxResults.Some? && (|matches| as real) < maxResults.value)
    {
      var a := airports[i];
      SearchStep(airports, q, i);
      if SearchMatch(q, a) {
        if maxResults.None? {
          SearchRaises(airports, q, i);
          return Raises;
        }
        matches := matches + [SearchSummary(a)];
        if |matches| as real >= maxResults.value {
          SearchStopsAtBound(airports, q, maxResults.value, i);
          return Found(matches);
        }
      }
      i := i + 1;
    }
    assert airports[..i] == airports;
    SearchRanOut(airports, q, maxResults);
    return Found(matches);
  }

  /** `_search_airports(query, max_results)` */
  method SearchAirports(airports: seq<Airport>, query: string, maxResults: Option<real>) returns (r: Query<Dict>)
    ensures r == SearchResult(airports, query, maxResults)
  {
    var q := Strip(Upper(query));
    var matches := CollectMatches(airports, q, maxResults);
    if matches.Raises? {
      return Raises;
    }
    return Found(SearchResultDict(matches.value));
  }

  // ------------------------------------------------------- border crossing

  /** `a.iso_country or "Unknown"`: the group an airport goes to. */
  function CountryKey(a: Airport): string {
    if OptTruthy(a.isoCountry) then a.isoCountry.value else "Unknown"
  }

  /** `(a.iso_country or "").upper() == c` */
  predicate InCountry(c: string, a: Airport) {
    Upper(a.isoCountry.GetOr("")) == c
  }

  /** The airports of country `c`, in order. */
  function InCountryOnly(airports: seq<Airport>, c: string): (r: seq<Airport>)
    ensures |r| <= |airports|
    ensures forall a :: a in r <==> a in airports && InCountry(c, a)
  {
    if airports == [] then []
    else
      var last := airports[|airports| - 1];
      InCountryOnly(airports[..|airports| - 1], c) + (if InCountry(c, last) then [last] else [])
  }

  /** The dict each border-crossing airport contributes, to its group and to the flat list. */
  function BorderSummary(a: Airport): Value {
    VDict([
      ("ident", VStr(a.ident)),
      ("name", OptStr(a.name)),
      ("municipality", OptStr(a.municipality)),
      ("country", OptStr(a.isoCountry)),
      ("latitude_deg", OptReal(a.latitudeDeg)),
      ("longitude_deg", OptReal(a.longitudeDeg))])
  }

  function BorderSummaries(airports: seq<Airport>): (r: seq<Value>)
    ensures |r| == |airports|
    ensures forall i :: 0 <= i < |airports| ==> r[i] == BorderSummary(airports[i])
  {
    if airports == [] then [] else BorderSummaries(airports[..|airports| - 1]) + [BorderSummary(airports[|airports| - 1])]
  }

  /** `grouped` as the loop fills it. */
  function Grouped(airports: seq<Airport>): map<string, seq<Value>> {
    if airports == [] then map[]
    else
      var last := airports[|airports| - 1];
      AddTo(Grouped(airports[..|airports| - 1]), CountryKey(last), BorderSummary(last))
  }

  /** The airports of one group, in order. */
  function WithKey(airports: seq<Airport>, k: string): (r: seq<Airport>)
    ensures forall a :: a in r <==> a in airports && CountryKey(a) == k
  {
    if airports == [] then []
    else
      var last := airports[|airports| - 1];
      WithKey(airports[..|airports| - 1], k) + (if CountryKey(last) == k then [last] else [])
  }

  lemma BorderSummariesAppend(airports: seq<Airport>, a: Airport)
    ensures BorderSummaries(airports + [a]) == BorderSummaries(airports) + [BorderSummary(a)]
  {
    assert (airports + [a])[..|airports|] == airports;
  }

  /** The groups are the keys that occur: the dict's keys are the key order's entries. */
  lemma {:induction false} GroupedKeys(airports: seq<Airport>)
    ensures forall k :: k in Grouped(airports) <==> k in KeyOrder(airports, CountryKey)
  {
    if airports != [] {
      GroupedKeys(airports[..|airports| - 1]);
    }
  }

  /** Each group holds the summaries of exactly the airports with its key, in list order. */
  lemma {:induction false} GroupedBuckets(airports: seq<Airport>, k: string)
    ensures BucketOf(Grouped(airports), k) == BorderSummaries(WithKey(airports, k))
  {
    if airports != [] {
      var p := airports[..|airports| - 1];
      var last := airports[|airports| - 1];
      GroupedBuckets(p, k);
      if CountryKey(last) == k {
        BorderSummariesAppend(WithKey(p, k), last);
      } else {
        assert WithKey(airports, k) == WithKey(p, k) + [];
      }
    }
  }

  /** Every airport lands in exactly one group: the group sizes add up to the count. */
  lemma {:induction false} GroupSizesSum(airports: seq<Airport>)
    ensures SumSizes(Grouped(airports), KeyOrder(airports, CountryKey)) == |airports|
  {
    if airports != [] {
      var p := airports[..|airports| - 1];
      var x := airports[|airports| - 1];
      var m' := Grouped(p);
      var ks' := KeyOrder(p, CountryKey);
      GroupSizesSum(p);
      KeyOrderKeys(p, CountryKey);
      GroupedKeys(p);
      SumSizesBump(m', Grouped(airports), ks', CountryKey(x));
      if CountryKey(x) !in ks' {
        assert CountryKey(x) !in m' && BucketOf(m', CountryKey(x)) == [];
        assert KeyOrder(airports, CountryKey)[..|ks'|] == ks';
      }
    }
  }

  /** The `by_country` dict: the groups in insertion order. */
  function GroupEntries(order: seq<string>, grouped: map<string, seq<Value>>): (r: Dict)
    ensures |r| == |order|
    ensures forall i :: 0 <= i < |order| ==> r[i] == (order[i], VList(BucketOf(grouped, order[i])))
  {
    if order == [] then []
    else
      var k := order[|order| - 1];
      GroupEntries(order[..|order| - 1], grouped) + [(k, VList(BucketOf(grouped, k)))]
  }

  /** The result dict for the selected border-crossing airports. */
  function BorderResultDict(selected: seq<Airport>): Dict {
    var all := BorderSummaries(selected);
    [("count", VInt(|all|)),
     ("by_country", VDict(GroupEntries(KeyOrder(selected, CountryKey), Grouped(selected)))),
     ("airports", VList(all)),
     ("visualization", VDict([("type", VStr("markers")), ("data", VList(all)), ("style", VStr("customs"))]))]
  }

  /**
    The airports kept for the `country` argument: all of them when it is
    falsy, those whose country matches it case-insensitively otherwise;
    a truthy non-string argument raises at `.upper()`.
   */
  function BorderSelection(airports: seq<Airport>, country: Value): Query<seq<Airport>> {
    if !Truthy(country) then Found(airports)
    else if country.VStr? then Found(InCountryOnly(airports, Upper(country.s)))
    else Raises
  }

  function BorderResult(airports: seq<Airport>, country: Value): Query<Dict> {
    match BorderSelection(airports, country)
    case Raises => Raises
    case Found(selected) => Found(BorderResultDict(selected))
  }

  /** A country filter keeps exactly the airports of that country, whatever the letter case. */
  lemma BorderSelectionMeaning(airports: seq<Airport>, country: string)
    requires country != ""
    ensures var r := BorderSelection(airports, VStr(country));
      && r.Found?
      && forall a :: a in r.value <==> a in airports && Upper(a.isoCountry.GetOr("")) == Upper(country)
  {
  }

  lemma GroupStep(airports: seq<Airport>, i: nat)
    requires i < |airports|
    ensures Grouped(airports[..i + 1]) == AddTo(Grouped(airports[..i]), CountryKey(airports[i]), BorderSummary(airports[i]))
    ensures KeyOrder(airports[..i + 1], CountryKey) ==
      if CountryKey(airports[i]) in KeyOrder(airports[..i], CountryKey) then KeyOrder(airports[..i], CountryKey)
      else KeyOrder(airports[..i], CountryKey) + [CountryKey(airports[i])]
    ensures BorderSummaries(airports[..i + 1]) == BorderSummaries(airports[..i]) + [BorderSummary(airports[i])]
  {
    assert airports[..i + 1][..i] == airports[..i];
  }

  /**
    The grouping loop of `_get_border_crossing_airports`: `grouped` with its
    keys in insertion order, and the flat list.
   */
  method GroupBorderAirports(airports: seq<Airport>)
      returns (grouped: map<string, seq<Value>>, order: seq<string>, all: seq<Value>)
    ensures grouped == Grouped(airports)
    ensures order == KeyOrder(airports, CountryKey)
    ensures all == BorderSummaries(airports)
  {
    grouped, order, all := map[], [], [];
    var i := 0;
    while i < |airports|
      invariant 0 <= i <= |airports|
      invariant grouped == Grouped(airports[..i])
      invariant order == KeyOrder(airports[..i], CountryKey)
      invariant all == BorderSummaries(airports[..i])
    {
      var a := airports[i];
      GroupStep(airports, i);
      GroupedKeys(airports[..i]);
      var countryCode := CountryKey(a);
      if countryCode !in grouped {
        order := order + [countryCode];
      }
      var airportData := BorderSummary(a);
      grouped := AppendTo(grouped, countryCode, airportData);
      all := all + [airportData];
      i := i + 1;
    }
    assert airports[..i] == airports;
  }

  /** `_get_border_crossing_airports(country)` on the model's border-crossing airports. */
  method BorderCrossingAirports(airports: seq<Airport>, country: Value) returns (r: Query<Dict>)
    ensures r == BorderResult(airports, country)
  {
    var selected := airports;
    if Truthy(country) {
      if !country.VStr? {
        return Raises;
      }
      var c := Upper(country.s);
      selected := InCountryOnly(airports, c);
    }
    var grouped, order, all := GroupBorderAirports(selected);
    return Found([
      ("count", VInt(|all|)),
      ("by_country", VDict(GroupEntries(order, grouped))),
      ("airports", VList(all)),
      ("visualization", VDict([("type", VStr("markers")), ("data", VList(all)), ("style", VStr("customs"))]))]);
  }

  // ------------------------------------------------------------ fuel prices

  /**
    The pricing key a fuel type reads its price from, checked in this order on
    the lowercased type: avgas, then Jet A1 (`jeta1` or `jet a1`), then super.
   */
  function FuelPriceKey(fuelType: string): (k: Option<string>)
    ensures Contains(Lower(fuelType), "avgas") ==> k == Some("avgas_price")
    ensures k == Some("jeta1_price") <==>
      !Contains(Lower(fuelType), "avgas") && (Contains(Lower(fuelType), "jeta1") || Contains(Lower(fuelType), "jet a1"))
    ensures k == Some("superplus_price") <==>
      !Contains(Lower(fuelType), "avgas") && !Contains(Lower(fuelType), "jeta1") &&
      !Contains(Lower(fuelType), "jet a1") && Contains(Lower(fuelType), "super")
    ensures k.None? <==>
      !Contains(Lower(fuelType), "avgas") && !Contains(Lower(fuelType), "jeta1") &&
      !Contains(Lower(fuelType), "jet a1") && !Contains(Lower(fuelType), "super")
  {
    var l := Lower(fuelType);
    if Contains(l, "avgas") then Some("avgas_price")
    else if Contains(l, "jeta1") || Contains(l, "jet a1") then Some("jeta1_price")
    else if Contains(l, "super") then Some("superplus_price")
    else None
  }

  /** One entry of `fuel_list`, field by field. */
  datatype FuelInfo = FuelInfo(fuelType: Value, available: bool, price: Value, currency: Value, provider: Value)

  /** The entry as the dict the tool returns. */
  function FuelInfoValue(e: FuelInfo): Value {
    VDict([("fuel_type", e.fuelType), ("available", VBool(e.available)), ("price", e.price),
           ("currency", e.currency), ("provider", e.provider)])
  }

  /**
    The entry of `fuel_list` for one fuel: Raises where Python raises (a fuel
    that is not a dict; with pricing data, a pricing value that is not a dict
    or a fuel type that is not a string).
   */
  function FuelEntry(fuel: Value, pricing: Value): (r: Query<FuelInfo>)
    ensures r.Found? ==>
      && fuel.VDict?
      && r.value.fuelType == Get(fuel.entries, "fuel_type", VStr("Unknown"))
      && r.value.available == Truthy(Get(fuel.entries, "available", VNone))
      && r.value.provider == Get(fuel.entries, "provider", VNone)
  {
    if !fuel.VDict? then Raises
    else
      var fuelType := Get(fuel.entries, "fuel_type", VStr("Unknown"));
      var available := Truthy(Get(fuel.entries, "available", VNone));
      var provider := Get(fuel.entries, "provider", VNone);
      if !Truthy(pricing) then Found(FuelInfo(fuelType, available, VNone, VNone, provider))
      else if !pricing.VDict? || !fuelType.VStr? then Raises
      else
        var currency := Get(pricing.entries, "currency", VStr("EUR"));
        match FuelPriceKey(fuelType.s)
        case None => Found(FuelInfo(fuelType, available, VNone, currency, provider))
        case Some(k) => Found(FuelInfo(fuelType, available, Get(pricing.entries, k, VNone), currency, provider))
  }

  /**
    With pricing data, a fuel's price is the pricing value under its price
    key (None without a key) and its currency the pricing currency, EUR by
    default; without pricing data both are None.
   */
  lemma FuelEntryPricing(fuel: Value, pricing: Value)
    requires fuel.VDict?
    ensures !Truthy(pricing) ==>
      FuelEntry(fuel, pricing).Found? && FuelEntry(fuel, pricing).value.price == VNone && FuelEntry(fuel, pricing).value.currency == VNone
    ensures Truthy(pricing) ==>
      (FuelEntry(fuel, pricing).Found? <==> pricing.VDict? && Get(fuel.entries, "fuel_type", VStr("Unknown")).VStr?)
    ensures Truthy(pricing) && FuelEntry(fuel, pricing).Found? ==>
      var e := FuelEntry(fuel, pricing).value;
      && e.currency == (if HasKey(pricing.entries, "currency") then Lookup(pricing.entries, "currency").value else VStr("EUR"))
      && e.price == match FuelPriceKey(e.fuelType.s)
                    case None => VNone
                    case Some(k) => Get(pricing.entries, k, VNone)
  {
  }

  /** `fuel_list` as the loop builds it; an exception in any entry ends it. */
  function FuelEntries(fuels: seq<Value>, pricing: Value): Query<seq<Value>> {
    if fuels == [] then Found([])
    else
      match FuelEntries(fuels[..|fuels| - 1], pricing)
      case Raises => Raises
      case Found(es) =>
        match FuelEntry(fuels[|fuels| - 1], pricing)
        case Raises => Raises
        case Found(e) => Found(es + [FuelInfoValue(e)])
  }

  lemma FuelEntriesStep(fuels: seq<Value>, pricing: Value, i: nat)
    requires i < |fuels|
    ensures FuelEntries(fuels[..i + 1], pricing) ==
      if FuelEntries(fuels[..i], pricing).Raises? || FuelEntry(fuels[i], pricing).Raises? then Raises
      else Found(FuelEntries(fuels[..i], pricing).value + [FuelInfoValue(FuelEntry(fuels[i], pricing).value)])
  {
    assert fuels[..i + 1][..i] == fuels[..i];
  }

  /** The fuel list raises exactly when the entry of some fuel raises. */
  lemma {:induction false} FuelEntriesRaises(fuels: seq<Value>, pricing: Value)
    ensures FuelEntries(fuels, pricing).Raises? <==> exists i :: 0 <= i < |fuels| && FuelEntry(fuels[i], pricing).Raises?
  {
    if fuels != [] {
      var n := |fuels| - 1;
      FuelEntriesRaises(fuels[..n], pricing);
      FuelEntriesStep(fuels, pricing, n);
      assert fuels[..n + 1] == fuels;
      assert forall i :: 0 <= i < n ==> fuels[..n][i] == fuels[i];
    }
  }

  /** Otherwise it has one entry per fuel, in order, each the one `FuelEntry` gives. */
  lemma {:induction false} FuelEntriesValues(fuels: seq<Value>, pricing: Value)
    requires FuelEntries(fuels, pricing).Found?
    ensures |FuelEntries(fuels, pricing).value| == |fuels|
    ensures forall i :: 0 <= i < |fuels| ==>
      FuelEntry(fuels[i], pricing).Found? && FuelEntries(fuels, pricing).value[i] == FuelInfoValue(FuelEntry(fuels[i], pricing).value)
  {
    if fuels != [] {
      var n := |fuels| - 1;
      FuelEntriesStep(fuels, pricing, n);
      assert fuels[..n + 1] == fuels;
      FuelEntriesValues(fuels[..n], pricing);
      assert forall i :: 0 <= i < n ==> fuels[..n][i] == fuels[i];
    }
  }

  /** `_get_fuel_prices` in full. */
  function FuelPrices(st: EnrichmentStorage, icaoCode: Value): Query<Dict> {
    if !icaoCode.VStr? then Raises
    else
      var icao := Upper(Strip(icaoCode.s));
      match (FuelAvailability(st, icao), PricingData(st, icao))
      case (Raises, _) => Raises
      case (_, Raises) => Raises
      case (Found(fuels), Found(pricing)) =>
        if fuels == [] && !Truthy(pricing) then
          Found([("found", VBool(false)), ("icao_code", VStr(icao)),
                 ("message", VStr("No fuel data available for " + icao + "."))])
        else
          match FuelEntries(fuels, pricing)
          case Raises => Raises
          case Found(fuelList) =>
            if !Truthy(pricing) then
              Found([("found", VBool(true)), ("icao_code", VStr(icao)), ("fuels", VList(fuelList)),
                     ("fuel_provider", VNone), ("payment_available", VNone), ("ppr_required", VNone),
                     ("last_updated", VNone)])
            else if !pricing.VDict? then Raises
            else
              var pe := pricing.entries;
              Found([("found", VBool(true)), ("icao_code", VStr(icao)), ("fuels", VList(fuelList)),
                     ("fuel_provider", Get(pe, "fuel_provider", VNone)),
                     ("payment_available", VBool(Truthy(Get(pe, "payment_available", VNone)))),
                     ("ppr_required", VBool(Truthy(Get(pe, "ppr_available", VNone)))),
                     ("last_updated", Get(pe, "last_updated", VNone))])
  }

  /**
    An airport is reported as not found exactly when it has no fuels and no
    pricing data; otherwise every fuel is listed, and without pricing no
    fuel carries a price or a currency.
   */
  lemma FuelPricesFound(st: EnrichmentStorage, icaoCode: string)
    ensures var icao := Upper(Strip(icaoCode));
      var r := FuelPrices(st, VStr(icaoCode));
      && ((FuelAvailability(st, icao) == Found([]) && PricingData(st, icao).Found? && !Truthy(PricingData(st, icao).value))
            ==> r.Found? && Lookup(r.value, "found") == Some(VBool(false)))
      && (r.Found? && Lookup(r.value, "found") == Some(VBool(false)) ==>
            FuelAvailability(st, icao) == Found([]) && !Truthy(PricingData(st, icao).value))
  {
  }

  /** The `for fuel in fuels` loop. */
  method BuildFuelList(fuels: seq<Value>, pricing: Value) returns (r: Query<seq<Value>>)
    ensures r == FuelEntries(fuels, pricing)
  {
    var fuelList: seq<Value> := [];
    var i := 0;
    while i < |fuels|
      invariant 0 <= i <= |fuels|
      invariant FuelEntries(fuels[..i], pricing) == Found(fuelList)
    {
      FuelEntriesStep(fuels, pricing, i);
      var entry := FuelEntry(fuels[i], pricing);
      if entry.Raises? {
        FuelEntriesAfterRaise(fuels, pricing, i + 1);
        return Raises;
      }
      fuelList := fuelList + [FuelInfoValue(entry.value)];
      i := i + 1;
    }
    assert fuels[..i] == fuels;
    return Found(fuelList);
  }

  lemma {:induction false} FuelEntriesAfterRaise(fuels: seq<Value>, pricing: Value, i: nat)
    requires i <= |fuels| && FuelEntries(fuels[..i], pricing).Raises?
    ensures FuelEntries(fuels, pricing).Raises?
  {
    if i < |fuels| {
      var p := fuels[..|fuels| - 1];
      assert p[..i] == fuels[..i];
      FuelEntriesAfterRaise(p, pricing, i);
    } else {
      assert fuels[..i] == fuels;
    }
  }

  /** `_get_fuel_prices(icao_code)` against the enrichment storage. */
  method GetFuelPrices(st: EnrichmentStorage, icaoCode: Value) returns (r: Query<Dict>)
    ensures r == FuelPrices(st, icaoCode)
  {
    if !icaoCode.VStr? {
      return Raises;
    }
    var icao := Upper(Strip(icaoCode.s));
    var fuels := FuelAvailability(st, icao);
    var pricing := PricingData(st, icao);
    if fuels.Raises? || pricing.Raises? {
      return Raises;
    }
    if fuels.value == [] && !Truthy(pricing.value) {
      return Found([("found", VBool(false)), ("icao_code", VStr(icao)),
                    ("message", VStr("No fuel data available for " + icao + "."))]);
    }
    var fuelList := BuildFuelList(fuels.value, pricing.value);
    if fuelList.Raises? {
      return Raises;
    }
    if !Truthy(pricing.value) {
      return Found([("found", VBool(true)), ("icao_code", VStr(icao)), ("fuels", VList(fuelList.value)),
                    ("fuel_provider", VNone), ("payment_available", VNone), ("ppr_required", VNone),
                    ("last_updated", VNone)]);
    }
    if !pricing.value.VDict? {
      return Raises;
    }
    var pe := pricing.value.entries;
    return Found([("found", VBool(true)), ("icao_code", VStr(icao)), ("fuels", VList(fuelList.value)),
                  ("fuel_provider", Get(pe, "fuel_provider", VNone)),
                  ("payment_available", VBool(Truthy(Get(pe, "payment_available", VNone)))),
                  ("ppr_required", VBool(Truthy(Get(pe, "ppr_available", VNone)))),
                  ("last_updated", Get(pe, "last_updated", VNone))]);
  }
}
