/**
  The fuel filters: some entry of the airport's fuel list must name the fuel
  (AVGAS, or Jet A / Jet A-1) and be marked available.
 */
module FuelFilters {
  import opened Wrappers
  import opened PyStr
  import opened PyValue
  import opened Airports

  /** `fuel.get('fuel_type', '').lower()`; None where Python raises (no dict, or a non-string type). */
  function FuelTypeLower(fuel: Value): (r: Option<string>)
    ensures r.Some? ==> fuel.VDict?
  {
    match GetAttr(fuel, "fuel_type", VStr(""))
    case Some(VStr(t)) => Some(Lower(t))
    case _ => None
  }

  predicate AvgasType(t: string) {
    Contains(t, "avgas")
  }

  predicate JetAType(t: string) {
    Contains(t, "jeta1") || Contains(t, "jet a1") || Contains(t, "jet a")
  }

  /** One step of the generator: `<type test> and fuel.get('available', False)`; None where it raises. */
  function FuelMatches(fuel: Value, isType: string -> bool): (r: Option<bool>)
    ensures r.Some? <==> FuelTypeLower(fuel).Some?
  {
    match FuelTypeLower(fuel)
    case None => None
    case Some(t) => Some(isType(t) && Truthy(Get(fuel.entries, "available", VBool(false))))
  }

  /** `any(...)` over the fuel list: stops at the first true element, raises at the first failing one before it. */
  function AnyFuel(fuels: seq<Value>, isType: string -> bool): (r: Option<bool>)
  {
    if fuels == [] then Some(false)
    else match FuelMatches(fuels[0], isType)
      case None => None
      case Some(true) => Some(true)
      case Some(false) => AnyFuel(fuels[1..], isType)
  }

  /** The guard chain shared by both filters; a raised exception gives False. */
  predicate FuelFilter(a: Airport, value: Value, storage: Option<EnrichmentStorage>, isType: string -> bool) {
    if !Truthy(value) then true
    else if storage.None? then false
    else match FuelAvailability(storage.value, a.ident)
      case Raises => false
      case Found(fuels) =>
        if fuels == [] then false
        else AnyFuel(fuels, isType) == Some(true)
  }

  /** `HasAvgasFilter.apply` */
  predicate HasAvgasFilter(a: Airport, value: Value, storage: Option<EnrichmentStorage>) {
    FuelFilter(a, value, storage, AvgasType)
  }

  /** `HasJetAFilter.apply` */
  predicate HasJetAFilter(a: Airport, value: Value, storage: Option<EnrichmentStorage>) {
    FuelFilter(a, value, storage, JetAType)
  }

  /** A fuel list in which every entry is a dict with a string (or missing) fuel type. */
  predicate WellFormedFuels(fuels: seq<Value>) {
    forall i :: 0 <= i < |fuels| ==> FuelTypeLower(fuels[i]).Some?
  }

  /** Some entry names the fuel and is available. */
  predicate SomeFuel(fuels: seq<Value>, isType: string -> bool) {
    exists i :: 0 <= i < |fuels| && FuelMatches(fuels[i], isType) == Some(true)
  }

  /** On a well-formed list, `any` is the plain existential. */
  lemma {:induction false} AnyFuelExists(fuels: seq<Value>, isType: string -> bool)
    requires WellFormedFuels(fuels)
    ensures AnyFuel(fuels, isType) == Some(SomeFuel(fuels, isType))
  {
    if fuels != [] {
      var rest := fuels[1..];
      assert WellFormedFuels(rest) by {
        forall i | 0 <= i < |rest| ensures FuelTypeLower(rest[i]).Some? {
          assert rest[i] == fuels[i + 1];
        }
      }
      AnyFuelExists(rest, isType);
      if FuelMatches(fuels[0], isType) == Some(false) {
        if SomeFuel(fuels, isType) {
          var i :| 0 <= i < |fuels| && FuelMatches(fuels[i], isType) == Some(true);
          assert i > 0 && rest[i - 1] == fuels[i];
        }
        if SomeFuel(rest, isType) {
          var i :| 0 <= i < |rest| && FuelMatches(rest[i], isType) == Some(true);
          assert fuels[i + 1] == rest[i];
        }
      }
    }
  }

  /** Any true entry ahead of the first failing one decides the result, so order can matter on malformed lists. */
  lemma AnyFuelShortCircuits(good: Value, isType: string -> bool)
    requires FuelMatches(good, isType) == Some(true)
    ensures AnyFuel([good, VNone], isType) == Some(true)
    ensures AnyFuel([VNone, good], isType) == None
  {
    assert [good, VNone][1..] == [VNone];
  }

  /**
    With a store and a truthy value, on a well-formed list each filter holds iff
    some entry names its fuel and is available; so the list's order does not matter.
   */
  lemma FuelFilterMeaning(a: Airport, value: Value, st: EnrichmentStorage, fuels: seq<Value>, isType: string -> bool)
    requires Truthy(value)
    requires FuelAvailability(st, a.ident) == Found(fuels) && WellFormedFuels(fuels)
    ensures FuelFilter(a, value, Some(st), isType) <==> SomeFuel(fuels, isType)
  {
    AnyFuelExists(fuels, isType);
  }

  /** Reordering a well-formed fuel list does not change either filter. */
  lemma FuelFilterOrderFree(fuels: seq<Value>, other: seq<Value>, isType: string -> bool)
    requires WellFormedFuels(fuels) && multiset(other) == multiset(fuels)
    ensures WellFormedFuels(other)
    ensures AnyFuel(other, isType) == AnyFuel(fuels, isType)
  {
    forall i | 0 <= i < |other| ensures FuelTypeLower(other[i]).Some? {
      assert other[i] in multiset(fuels);
      var j :| 0 <= j < |fuels| && fuels[j] == other[i];
    }
    AnyFuelExists(fuels, isType);
    AnyFuelExists(other, isType);
    if SomeFuel(fuels, isType) {
      var j :| 0 <= j < |fuels| && FuelMatches(fuels[j], isType) == Some(true);
      assert fuels[j] in multiset(other);
      var i :| 0 <= i < |other| && other[i] == fuels[j];
    }
    if SomeFuel(other, isType) {
      var i :| 0 <= i < |other| && FuelMatches(other[i], isType) == Some(true);
      assert other[i] in multiset(fuels);
      var j :| 0 <= j < |fuels| && fuels[j] == other[i];
    }
  }

  /** No value, a falsy value, no store, an empty list and a failing query: the guards. */
  lemma FuelFilterGuards(a: Airport, value: Value, storage: Option<EnrichmentStorage>, isType: string -> bool)
    ensures !Truthy(value) ==> FuelFilter(a, value, storage, isType)
    ensures Truthy(value) && storage.None? ==> !FuelFilter(a, value, storage, isType)
    ensures Truthy(value) && storage.Some? && FuelAvailability(storage.value, a.ident) in {Raises, Found([])}
      ==> !FuelFilter(a, value, storage, isType)
  {
  }

  /** The "jet a1" test is subsumed by "jet a": the Jet A filter is the "jeta1" or "jet a" test. */
  lemma JetATypeSimplified(t: string)
    ensures JetAType(t) <==> Contains(t, "jeta1") || Contains(t, "jet a")
  {
    if Contains(t, "jet a1") {
      var i :| 0 <= i <= |t| && OccursAt(t, "jet a1", i);
      assert t[i..i + 5] == t[i..i + 6][..5];
      assert OccursAt(t, "jet a", i);
    }
  }
}
