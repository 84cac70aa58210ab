/**
  The attribute filters of the airport search: by country and by the four
  boolean attributes (procedures, AIP data, hard runway, point of entry).
  A filter's `apply` decides whether one airport passes for the value the
  planner put in the filter profile.
 */
module BasicFilters {
  import opened Wrappers
  import opened PyStr
  import opened PyValue
  import opened Airports

  /** `CountryFilter.apply` */
  predicate CountryFilter(a: Airport, value: Value) {
    if !Truthy(value) then true
    else Upper(a.isoCountry.GetOr("")) == Upper(Str(value))
  }

  /** The shape shared by the boolean filters: no value passes all, else the flag must equal `bool(value)`. */
  predicate FlagFilter(flag: bool, value: Value) {
    value.VNone? || flag == Truthy(value)
  }

  /** `HasProceduresFilter.apply` */
  predicate HasProceduresFilter(a: Airport, value: Value) {
    FlagFilter(a.hasProcedures, value)
  }

  /** `HasAipDataFilter.apply` */
  predicate HasAipDataFilter(a: Airport, value: Value) {
    FlagFilter(a.aipEntryCount > 0, value)
  }

  /** `HasHardRunwayFilter.apply` */
  predicate HasHardRunwayFilter(a: Airport, value: Value) {
    FlagFilter(a.hasHardRunway, value)
  }

  /** `PointOfEntryFilter.apply` */
  predicate PointOfEntryFilter(a: Airport, value: Value) {
    FlagFilter(a.pointOfEntry, value)
  }

  /** A falsy country value passes every airport; a string value compares case-insensitively with the airport's country. */
  lemma CountryFilterMeaning(a: Airport, code: string)
    ensures CountryFilter(a, VStr("")) && CountryFilter(a, VNone)
    ensures code != "" ==> (CountryFilter(a, VStr(code)) <==> Upper(a.isoCountry.GetOr("")) == Upper(code))
    ensures code != "" ==> (CountryFilter(a, VStr(code)) <==> CountryFilter(a, VStr(Lower(code))))
    ensures code != "" ==> (CountryFilter(a, VStr(code)) <==> CountryFilter(a, VStr(Upper(code))))
    ensures a.isoCountry.None? && code != "" ==> !CountryFilter(a, VStr(code))
  {
    UpperOfLower(code);
    UpperIdempotent(code);
  }

  /** Two country codes that differ other than by case never both pass the same airport. */
  lemma CountryFilterExclusive(a: Airport, c1: string, c2: string)
    requires c1 != "" && c2 != "" && Upper(c1) != Upper(c2)
    ensures !(CountryFilter(a, VStr(c1)) && CountryFilter(a, VStr(c2)))
  {
  }

  /** No value (None) passes every airport through every boolean filter. */
  lemma FlagFiltersPassWithoutValue(a: Airport)
    ensures HasProceduresFilter(a, VNone) && HasAipDataFilter(a, VNone)
    ensures HasHardRunwayFilter(a, VNone) && PointOfEntryFilter(a, VNone)
  {
  }

  /** For each boolean filter exactly one of `apply(True)` and `apply(False)` holds. */
  lemma FlagFiltersComplementary(a: Airport)
    ensures HasProceduresFilter(a, VBool(true)) != HasProceduresFilter(a, VBool(false))
    ensures HasAipDataFilter(a, VBool(true)) != HasAipDataFilter(a, VBool(false))
    ensures HasHardRunwayFilter(a, VBool(true)) != HasHardRunwayFilter(a, VBool(false))
    ensures PointOfEntryFilter(a, VBool(true)) != PointOfEntryFilter(a, VBool(false))
    ensures HasAipDataFilter(a, VBool(true)) <==> a.aipEntryCount > 0
    ensures PointOfEntryFilter(a, VBool(true)) <==> a.pointOfEntry
  {
  }

  /** Any value other than None acts as `bool(value)`: a non-empty string such as "no" asks for the attribute. */
  lemma FlagFilterTruthiness(flag: bool, value: Value)
    requires !value.VNone?
    ensures FlagFilter(flag, value) == FlagFilter(flag, VBool(Truthy(value)))
    ensures FlagFilter(flag, VStr("no")) == flag
  {
  }
}
