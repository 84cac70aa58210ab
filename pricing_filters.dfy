/** The landing-fee filter: the airport's C172 landing fee must be at most the value. */
module PricingFilters {
  import opened Wrappers
  import opened PyStr
  import opened PyValue
  import opened Airports

  /** `MaxLandingFeeFilter.apply`; `storage` is None when no enrichment store was given. */
  predicate MaxLandingFeeFilter(a: Airport, value: Value, storage: Option<EnrichmentStorage>) {
    if value.VNone? then true
    else if storage.None? then false
    else match ToFloat(value)
      case None => true
      case Some(maxFee) =>
        var fee := C172Fee(storage.value, a.ident);
        fee.Some? && fee.value <= maxFee
  }

  /** None passes; without a store nothing else passes, not even a value `float()` rejects. */
  lemma LandingFeeGuards(a: Airport, value: Value)
    ensures MaxLandingFeeFilter(a, VNone, None)
    ensures !value.VNone? ==> !MaxLandingFeeFilter(a, value, None)
    ensures MaxLandingFeeFilter(a, VStr("cheap"), None) == false
  {
  }

  /** With a store, a value `float()` rejects turns the filter off. */
  lemma LandingFeeUnparseableValue(a: Airport, value: Value, st: EnrichmentStorage)
    requires !value.VNone? && ToFloat(value).None?
    ensures MaxLandingFeeFilter(a, value, Some(st))
  {
  }

  /** An airport whose store yields no usable C172 fee fails every active filter. */
  lemma LandingFeeMissingData(a: Airport, value: Value, st: EnrichmentStorage)
    requires !value.VNone? && ToFloat(value).Some?
    requires C172Fee(st, a.ident).None?
    ensures !MaxLandingFeeFilter(a, value, Some(st))
  {
  }

  /** Otherwise the filter holds iff the fee is at most the value, so it is monotone in the value. */
  lemma LandingFeeCompare(a: Airport, st: EnrichmentStorage, v1: Value, v2: Value)
    requires !v1.VNone? && !v2.VNone? && ToFloat(v1).Some? && ToFloat(v2).Some?
    ensures MaxLandingFeeFilter(a, v1, Some(st)) <==>
      C172Fee(st, a.ident).Some? && C172Fee(st, a.ident).value <= ToFloat(v1).value
    ensures ToFloat(v1).value <= ToFloat(v2).value && MaxLandingFeeFilter(a, v1, Some(st))
      ==> MaxLandingFeeFilter(a, v2, Some(st))
  {
  }
}
