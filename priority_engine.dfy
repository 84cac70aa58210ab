/**
  The strategy registry and the priority engine. The registry maps strategy
  names to strategies; the cost-optimised strategy is registered when the
  module is imported. The engine looks a strategy up (falling back to
  cost_optimized), lets it score the airports and returns the first
  `max_results` of them.
 */
module PriorityEngine {
  import opened Wrappers
  import opened Seqs
  import opened Airports
  import opened CostOptimized

  /** The scoring algorithms in the repository: only the cost-optimised one. */
  datatype Algorithm = CostOptimizedAlgorithm

  /** A strategy object: its `name` attribute and its `score` method. */
  datatype Strategy = Strategy(name: string, algorithm: Algorithm)

  const DefaultStrategyName: string := "cost_optimized"

  /** `CostOptimizedStrategy()` */
  const CostOptimizedStrategy: Strategy := Strategy(DefaultStrategyName, CostOptimizedAlgorithm)

  /** `strategy.score(...)` for each algorithm. */
  method RunStrategy(s: Strategy, airports: seq<Airport>, storage: Option<EnrichmentStorage>, routeDistances: Option<map<string, real>>)
    returns (scored: seq<ScoredAirport>)
    ensures scored == SortByKey(ScoreAll(airports, storage, routeDistances))
  {
    match s.algorithm
    case CostOptimizedAlgorithm =>
      scored := Score(airports, storage, routeDistances);
  }

  /** The class-level `_strategies` dict of `StrategyRegistry`, with its key order. */
  class StrategyRegistry {
    var strategies: map<string, Strategy>
    var names: seq<string>   // the dict's keys in insertion order

    ghost predicate Valid()
      reads this
    {
      && (forall i, j :: 0 <= i < j < |names| ==> names[i] != names[j])
      && (forall k :: k in strategies <==> k in names)
      && DefaultStrategyName in strategies
    }

    /** The registry as it stands after the module is imported: cost_optimized registered. */
    constructor ()
      ensures Valid()
      ensures strategies == map[DefaultStrategyName := CostOptimizedStrategy]
      ensures names == [DefaultStrategyName]
    {
      strategies := map[DefaultStrategyName := CostOptimizedStrategy];
      names := [DefaultStrategyName];
    }

    /** `register`: keyed by the strategy's name; re-registering a name replaces it in place. */
    method Register(s: Strategy)
      requires Valid()
      modifies this
      ensures Valid()
      ensures strategies == old(strategies)[s.name := s]
      ensures names == if s.name in old(strategies) then old(names) else old(names) + [s.name]
    {
      if s.name !in strategies {
        names := names + [s.name];
      }
      strategies := strategies[s.name := s];
    }

    /** `get`: the registered strategy, None for an unregistered name. */
    function Get(name: string): (r: Option<Strategy>)
      reads this
      ensures r.Some? <==> name in strategies
      ensures r.Some? ==> r.value == strategies[name]
    {
      if name in strategies then Some(strategies[name]) else None
    }

    /** `list_all`: every registered name exactly once, in registration order. */
    function ListAll(): (r: seq<string>)
      reads this
      requires Valid()
      ensures forall k :: k in r <==> k in strategies
      ensures forall i, j :: 0 <= i < j < |r| ==> r[i] != r[j]
      ensures DefaultStrategyName in r
    {
      names
    }
  }

  /** `[item.airport for item in items]` */
  function AirportsOf(items: seq<ScoredAirport>): (r: seq<Airport>)
    ensures |r| == |items|
    ensures forall i :: 0 <= i < |items| ==> r[i] == items[i].airport
  {
    seq(|items|, i requires 0 <= i < |items| => items[i].airport)
  }

  /** The strategy `apply` uses: the named one, else cost_optimized. */
  function ChosenStrategy(registry: StrategyRegistry, name: string): (s: Strategy)
    reads registry
    requires registry.Valid()
    ensures name in registry.strategies ==> s == registry.strategies[name]
    ensures name !in registry.strategies ==> s == registry.strategies[DefaultStrategyName]
  {
    var found := registry.Get(name);
    if found.Some? then found.value else registry.Get(DefaultStrategyName).value
  }

  /** What `apply` returns: the first `maxResults` airports of the strategy's order. */
  function ApplySpec(airports: seq<Airport>, storage: Option<EnrichmentStorage>,
                     routeDistances: Option<map<string, real>>, maxResults: int): seq<Airport>
  {
    if airports == [] then []
    else AirportsOf(SlicePrefix(SortByKey(ScoreAll(airports, storage, routeDistances)), maxResults))
  }

  class Engine {
    const enrichmentStorage: Option<EnrichmentStorage>

    constructor (storage: Option<EnrichmentStorage>)
      ensures enrichmentStorage == storage
    {
      enrichmentStorage := storage;
    }

    /** `PriorityEngine.apply`. The priority counts it computes only feed a log line. */
    method Apply(registry: StrategyRegistry, airports: seq<Airport>, strategy: string,
                 routeDistances: Option<map<string, real>>, maxResults: int)
      returns (result: seq<Airport>)
      requires registry.Valid()
      ensures result == ApplySpec(airports, enrichmentStorage, routeDistances, maxResults)
    {
      if airports == [] {
        return [];
      }
      var chosen := registry.Get(strategy);
      if chosen.None? {
        chosen := registry.Get(DefaultStrategyName);
      }
      var scored := RunStrategy(chosen.value, airports, enrichmentStorage, routeDistances);
      result := AirportsOf(SlicePrefix(scored, maxResults));
    }
  }

  /** Empty input gives the empty list, and never more than `maxResults` airports (for `maxResults` >= 0). */
  lemma ApplyBounds(airports: seq<Airport>, storage: Option<EnrichmentStorage>,
                    routeDistances: Option<map<string, real>>, maxResults: int)
    ensures ApplySpec([], storage, routeDistances, maxResults) == []
    ensures maxResults >= 0 ==>
      |ApplySpec(airports, storage, routeDistances, maxResults)| == (if maxResults < |airports| then maxResults else |airports|)
  {
  }

  /**
    Every returned airport is an input airport, and when `maxResults` cuts
    nothing off the result is a permutation of the input. The (level, score)
    order is stated on the strategy's scored list that `RunStrategy` returns.
   */
  lemma ApplyOrdered(airports: seq<Airport>, storage: Option<EnrichmentStorage>,
                     routeDistances: Option<map<string, real>>, maxResults: int)
    ensures var r := ApplySpec(airports, storage, routeDistances, maxResults);
      forall i :: 0 <= i < |r| ==> r[i] in airports
    ensures maxResults >= |airports| ==>
      multiset(ApplySpec(airports, storage, routeDistances, maxResults)) == multiset(airports)
  {
    var all := ScoreAll(airports, storage, routeDistances);
    var sorted := SortByKey(all);
    SortByKeyPermutation(all);
    var r := ApplySpec(airports, storage, routeDistances, maxResults);
    if airports != [] {
      forall i | 0 <= i < |r| ensures r[i] in airports {
        assert sorted[i] in multiset(all);
        var j :| 0 <= j < |all| && all[j] == sorted[i];
      }
      if maxResults >= |airports| {
        assert SlicePrefix(sorted, maxResults) == sorted;
        SortKeepsAirports(all);
        assert AirportsOf(all) == airports;
      }
    }
  }

  lemma {:induction false} InsertAirports(t: seq<ScoredAirport>, x: ScoredAirport)
    ensures multiset(AirportsOf(Insert(t, x))) == multiset(AirportsOf(t)) + multiset{x.airport}
  {
    if t == [] {
      assert AirportsOf([x]) == [x.airport];
    } else {
      var t' := t[..|t| - 1];
      var last := t[|t| - 1];
      assert AirportsOf(t) == AirportsOf(t') + [last.airport];
      if KeyLe(last, x) {
        assert AirportsOf(t + [x]) == AirportsOf(t) + [x.airport];
      } else {
        InsertAirports(t', x);
        var m := Insert(t', x);
        assert AirportsOf(m + [last]) == AirportsOf(m) + [last.airport];
      }
    }
  }

  /** Sorting the scored list reorders its airports and nothing more. */
  lemma {:induction false} SortKeepsAirports(s: seq<ScoredAirport>)
    ensures multiset(AirportsOf(SortByKey(s))) == multiset(AirportsOf(s))
  {
    if s != [] {
      var s' := s[..|s| - 1];
      SortKeepsAirports(s');
      InsertAirports(SortByKey(s'), s[|s| - 1]);
      assert AirportsOf(s) == AirportsOf(s') + [s[|s| - 1].airport];
    }
  }
}
