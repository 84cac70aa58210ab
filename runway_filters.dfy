/** The runway-length filters: the longest runway must be at most / at least the value in feet. */
module RunwayFilters {
  import opened Wrappers
  import opened PyValue
  import opened Airports

  /** `MaxRunwayLengthFilter.apply` */
  predicate MaxRunwayLengthFilter(a: Airport, value: Value) {
    if value.VNone? then true
    else match ToFloat(value)
      case None => true
      case Some(maxLength) =>
        a.longestRunwayLengthFt.Some? && a.longestRunwayLengthFt.value <= maxLength
  }

  /** `MinRunwayLengthFilter.apply` */
  predicate MinRunwayLengthFilter(a: Airport, value: Value) {
    if value.VNone? then true
    else match ToFloat(value)
      case None => true
      case Some(minLength) =>
        a.longestRunwayLengthFt.Some? && a.longestRunwayLengthFt.value >= minLength
  }

  /** A value that is None or that `float()` rejects (also a list or dict) passes every airport. */
  lemma RunwayFiltersInactive(a: Airport, value: Value)
    requires value.VNone? || ToFloat(value).None?
    ensures MaxRunwayLengthFilter(a, value) && MinRunwayLengthFilter(a, value)
  {
  }

  /** An airport without runway data fails every active filter. */
  lemma RunwayFiltersNeedData(a: Airport, value: Value)
    requires !value.VNone? && ToFloat(value).Some?
    requires a.longestRunwayLengthFt.None?
    ensures !MaxRunwayLengthFilter(a, value) && !MinRunwayLengthFilter(a, value)
  {
  }

  /**
    With runway data and a numeric value: Max holds iff the length is at most
    the value, Min iff at least, and both iff the length equals it.
   */
  lemma RunwayFiltersCompare(a: Airport, value: Value, v: real)
    requires !value.VNone? && ToFloat(value) == Some(v)
    requires a.longestRunwayLengthFt.Some?
    ensures MaxRunwayLengthFilter(a, value) <==> a.longestRunwayLengthFt.value <= v
    ensures MinRunwayLengthFilter(a, value) <==> a.longestRunwayLengthFt.value >= v
    ensures MaxRunwayLengthFilter(a, value) && MinRunwayLengthFilter(a, value) <==> a.longestRunwayLengthFt.value == v
  {
  }

  /** Max is monotone and Min antitone in the limit, for string, int and float values alike. */
  lemma RunwayFiltersMonotone(a: Airport, v1: Value, v2: Value)
    requires IsNumber(v1) || v1.VStr?
    requires IsNumber(v2) || v2.VStr?
    requires ToFloat(v1).Some? && ToFloat(v2).Some? && ToFloat(v1).value <= ToFloat(v2).value
    ensures MaxRunwayLengthFilter(a, v1) ==> MaxRunwayLengthFilter(a, v2)
    ensures MinRunwayLengthFilter(a, v2) ==> MinRunwayLengthFilter(a, v1)
  {
  }
}
