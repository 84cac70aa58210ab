/**
  The cost-optimised prioritisation strategy: every airport gets a priority
  level (1: border crossing with procedures, 2: procedures only, 3: the rest)
  and a score (its C172 landing fee, else a large base plus its distance from
  the route, else a larger constant), and the list is sorted stably by
  (level, score), lowest first.
 */
module CostOptimized {
  import opened Wrappers
  import opened PyValue
  import opened Airports

  /** The fee used when none is known; fees at or above it count as unknown too. */
  const MissingFee: real := 999999.0
  /** Base added to the route distance of an airport without a fee. */
  const DistanceBase: real := 900000.0

  datatype Metadata = Metadata(
    hasBorder: bool,
    hasProcedures: bool,
    landingFee: Option<real>,
    distanceNm: Option<real>
  )

  datatype ScoredAirport = ScoredAirport(
    airport: Airport,
    priorityLevel: int,
    score: real,
    metadata: Metadata
  )

  /** Priority level from the two attributes. */
  function PriorityLevel(hasBorder: bool, hasProcedures: bool): (level: int)
    ensures 1 <= level <= 3
    ensures level == 1 <==> hasBorder && hasProcedures
    ensures level == 2 <==> !hasBorder && hasProcedures
    ensures level == 3 <==> !hasProcedures
  {
    if hasBorder && hasProcedures then 1
    else if hasProcedures then 2
    else 3
  }

  /** The landing fee the loop settles on: the parsed C172 fee, or the default. */
  function LandingFee(ident: string, storage: Option<EnrichmentStorage>): real {
    if storage.Some? && C172Fee(storage.value, ident).Some? then C172Fee(storage.value, ident).value
    else MissingFee
  }

  /** `context['route_distances'].get(ident)` when the context has route distances. */
  function DistanceOf(ident: string, routeDistances: Option<map<string, real>>): Option<real> {
    if routeDistances.Some? && ident in routeDistances.value then Some(routeDistances.value[ident]) else None
  }

  /** One iteration of the scoring loop. */
  function ScoreOne(a: Airport, storage: Option<EnrichmentStorage>, routeDistances: Option<map<string, real>>): (s: ScoredAirport)
    ensures s.airport == a
  {
    var hasProcedures := a.procedureCount > 0;
    var hasBorder := a.pointOfEntry;
    var fee := LandingFee(a.ident, storage);
    var distance := DistanceOf(a.ident, routeDistances);
    var score :=
      if fee < MissingFee then fee
      else if distance.Some? then DistanceBase + distance.value
      else MissingFee;
    ScoredAirport(a, PriorityLevel(hasBorder, hasProcedures), score,
      Metadata(hasBorder, hasProcedures, if fee < MissingFee then Some(fee) else None, distance))
  }

  /** The scored list before sorting: one entry per airport, in input order. */
  function ScoreAll(airports: seq<Airport>, storage: Option<EnrichmentStorage>, routeDistances: Option<map<string, real>>): (r: seq<ScoredAirport>)
    ensures |r| == |airports|
    ensures forall i :: 0 <= i < |airports| ==> r[i] == ScoreOne(airports[i], storage, routeDistances)
  {
    if airports == [] then []
    else
      var earlier := ScoreAll(airports[..|airports| - 1], storage, routeDistances);
      earlier + [ScoreOne(airports[|airports| - 1], storage, routeDistances)]
  }

  /** The sort key `(priority_level, score)`, compared lexicographically. */
  predicate KeyLe(x: ScoredAirport, y: ScoredAirport) {
    x.priorityLevel < y.priorityLevel || (x.priorityLevel == y.priorityLevel && x.score <= y.score)
  }

  predicate SameKey(x: ScoredAirport, y: ScoredAirport) {
    x.priorityLevel == y.priorityLevel && x.score == y.score
  }

  predicate Sorted(s: seq<ScoredAirport>) {
    forall i, j :: 0 <= i < j < |s| ==> KeyLe(s[i], s[j])
  }

  /** Insert `x` after every element whose key is not greater than its own. */
  function Insert(t: seq<ScoredAirport>, x: ScoredAirport): (r: seq<ScoredAirport>)
    ensures |r| == |t| + 1
  {
    if t == [] then [x]
    else if KeyLe(t[|t| - 1], x) then t + [x]
    else Insert(t[..|t| - 1], x) + [t[|t| - 1]]
  }

  /** `sorted(s, key=lambda x: (x.priority_level, x.score))`: a stable insertion sort. */
  function SortByKey(s: seq<ScoredAirport>): (r: seq<ScoredAirport>)
    ensures |r| == |s|
  {
    if s == [] then [] else Insert(SortByKey(s[..|s| - 1]), s[|s| - 1])
  }

  /** The elements of `s` whose key equals that of `k`, in order. */
  function WithKeyOf(s: seq<ScoredAirport>, k: ScoredAirport): seq<ScoredAirport> {
    if s == [] then []
    else WithKeyOf(s[..|s| - 1], k) + (if SameKey(s[|s| - 1], k) then [s[|s| - 1]] else [])
  }

  lemma {:induction false} InsertMultiset(t: seq<ScoredAirport>, x: ScoredAirport)
    ensures multiset(Insert(t, x)) == multiset(t) + multiset{x}
  {
    if t != [] && !KeyLe(t[|t| - 1], x) {
      InsertMultiset(t[..|t| - 1], x);
      assert t == t[..|t| - 1] + [t[|t| - 1]];
    }
  }

  lemma {:induction false} InsertSorted(t: seq<ScoredAirport>, x: ScoredAirport)
    requires Sorted(t)
    ensures Sorted(Insert(t, x))
  {
    if t != [] {
      var last := t[|t| - 1];
      if !KeyLe(last, x) {
        var t' := t[..|t| - 1];
        InsertSorted(t', x);
        InsertMultiset(t', x);
        var m := Insert(t', x);
        forall y | y in m ensures KeyLe(y, last) {
          assert y in multiset(m);
          if y != x {
            assert y in multiset(t');
            var i :| 0 <= i < |t'| && t'[i] == y;
            assert t[i] == y;
          }
        }
        var r := m + [last];
        forall i, j | 0 <= i < j < |r| ensures KeyLe(r[i], r[j]) {
          if j == |r| - 1 {
            assert r[i] in m;
          }
        }
      }
    }
  }

  lemma {:induction false} InsertWithKey(t: seq<ScoredAirport>, x: ScoredAirport, k: ScoredAirport)
    ensures WithKeyOf(Insert(t, x), k) == WithKeyOf(t, k) + (if SameKey(x, k) then [x] else [])
  {
    if t == [] {
      assert Insert(t, x) == [] + [x];
    } else {
      var t' := t[..|t| - 1];
      var last := t[|t| - 1];
      if KeyLe(last, x) {
        assert (t + [x])[..|t|] == t;
      } else {
        InsertWithKey(t', x, k);
        var m := Insert(t', x);
        assert (m + [last])[..|m|] == m;
      }
    }
  }

  /** The sort orders by (priority_level, score). */
  lemma {:induction false} SortByKeySorted(s: seq<ScoredAirport>)
    ensures Sorted(SortByKey(s))
  {
    if s != [] {
      SortByKeySorted(s[..|s| - 1]);
      InsertSorted(SortByKey(s[..|s| - 1]), s[|s| - 1]);
    }
  }

  /** The sort only reorders. */
  lemma {:induction false} SortByKeyPermutation(s: seq<ScoredAirport>)
    ensures multiset(SortByKey(s)) == multiset(s)
  {
    if s != [] {
      SortByKeyPermutation(s[..|s| - 1]);
      InsertMultiset(SortByKey(s[..|s| - 1]), s[|s| - 1]);
      assert s == s[..|s| - 1] + [s[|s| - 1]];
    }
  }

  /** The sort is stable: the elements with any one key keep their input order. */
  lemma {:induction false} SortByKeyStable(s: seq<ScoredAirport>, k: ScoredAirport)
    ensures WithKeyOf(SortByKey(s), k) == WithKeyOf(s, k)
  {
    if s != [] {
      SortByKeyStable(s[..|s| - 1], k);
      InsertWithKey(SortByKey(s[..|s| - 1]), s[|s| - 1], k);
    }
  }

  /**
    `CostOptimizedStrategy.score`: the loop appends one scored entry per
    airport, then the list is sorted by (level, score).
   */
  method Score(airports: seq<Airport>, storage: Option<EnrichmentStorage>, routeDistances: Option<map<string, real>>)
    returns (scored: seq<ScoredAirport>)
    ensures scored == SortByKey(ScoreAll(airports, storage, routeDistances))
    ensures Sorted(scored)
    ensures multiset(scored) == multiset(ScoreAll(airports, storage, routeDistances))
  {
    scored := [];
    for i := 0 to |airports|
      invariant scored == ScoreAll(airports[..i], storage, routeDistances)
    {
      var entry := ScoreOne(airports[i], storage, routeDistances);
      scored := scored + [entry];
      assert airports[..i + 1][..i] == airports[..i];
    }
    assert airports[..|airports|] == airports;
    SortByKeySorted(scored);
    SortByKeyPermutation(scored);
    scored := SortByKey(scored);
  }

  /** Level 1 needs a border crossing and procedures; a border crossing alone gets level 3. */
  lemma ScoreOneLevel(a: Airport, storage: Option<EnrichmentStorage>, routeDistances: Option<map<string, real>>)
    ensures ScoreOne(a, storage, routeDistances).priorityLevel ==
      (if a.pointOfEntry && a.procedureCount > 0 then 1 else if a.procedureCount > 0 then 2 else 3)
    ensures a.pointOfEntry && a.procedureCount == 0 ==> ScoreOne(a, storage, routeDistances).priorityLevel == 3
  {
  }

  /**
    The score is the parsed fee when there is one below the default; else the
    distance base plus the route distance when known; else the default. The
    metadata's landing fee is None exactly when the fee was not used.
   */
  lemma ScoreOneScore(a: Airport, storage: Option<EnrichmentStorage>, routeDistances: Option<map<string, real>>)
    ensures var s := ScoreOne(a, storage, routeDistances);
      var fee := if storage.Some? then C172Fee(storage.value, a.ident) else None;
      var d := DistanceOf(a.ident, routeDistances);
      && (fee.Some? && fee.value < MissingFee ==> s.score == fee.value && s.metadata.landingFee == fee)
      && (!(fee.Some? && fee.value < MissingFee) ==> s.metadata.landingFee.None?)
      && (!(fee.Some? && fee.value < MissingFee) && d.Some? ==> s.score == DistanceBase + d.value)
      && (!(fee.Some? && fee.value < MissingFee) && d.None? ==> s.score == MissingFee)
  {
  }

  /** A failing pricing query scores exactly like an airport without pricing data. */
  lemma ScoreOneLookupFailure(a: Airport, st: EnrichmentStorage, routeDistances: Option<map<string, real>>)
    requires PricingData(st, a.ident) == Raises
    ensures ScoreOne(a, Some(st), routeDistances) ==
      ScoreOne(a, Some(EnrichmentStorage(st.pricing[a.ident := Found(VNone)], st.fuels)), routeDistances)
    ensures ScoreOne(a, Some(st), routeDistances) == ScoreOne(a, None, routeDistances)
  {
    C172FeeMissing(st, a.ident);
    var st' := EnrichmentStorage(st.pricing[a.ident := Found(VNone)], st.fuels);
    C172FeeMissing(st', a.ident);
  }

  /** Exactly one scored entry per input airport: the output's airports are the input's, reordered. */
  lemma ScoreKeepsAirports(airports: seq<Airport>, storage: Option<EnrichmentStorage>, routeDistances: Option<map<string, real>>, x: ScoredAirport)
    ensures multiset(SortByKey(ScoreAll(airports, storage, routeDistances)))[x]
      == multiset(ScoreAll(airports, storage, routeDistances))[x]
    ensures x in SortByKey(ScoreAll(airports, storage, routeDistances)) ==> x.airport in airports
  {
    var all := ScoreAll(airports, storage, routeDistances);
    SortByKeyPermutation(all);
    if x in SortByKey(all) {
      assert x in multiset(all);
      var i :| 0 <= i < |all| && all[i] == x;
    }
  }
}
