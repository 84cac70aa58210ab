/**
  The airport record and the enrichment store as the filters, the cost
  strategy and the tool client see them. Both classes come from the
  `euro_aip` package, which is not part of this model: an airport is the
  attributes the modelled code reads, and the store is what its two queries
  return for each ident, or that they raise.
 */
module Airports {
  import opened Wrappers
  import opened PyStr
  import opened PyValue

  datatype Airport = Airport(
    ident: string,
    name: Option<string>,
    iataCode: Option<string>,
    municipality: Option<string>,
    isoCountry: Option<string>,
    latitudeDeg: Option<real>,
    longitudeDeg: Option<real>,
    longestRunwayLengthFt: Option<real>,
    hasProcedures: bool,     // the `has_procedures` attribute, taken as given
    procedureCount: nat,     // len(airport.procedures)
    aipEntryCount: nat,      // len(airport.aip_entries)
    hasHardRunway: bool,     // bool(getattr(airport, "has_hard_runway", False))
    pointOfEntry: bool       // bool(getattr(airport, "point_of_entry", False))
  )

  /** What a store query gives back: a value, or an exception. */
  datatype Query<T> = Found(value: T) | Raises

  datatype EnrichmentStorage = EnrichmentStorage(
    pricing: map<string, Query<Value>>,   // get_pricing_data(ident)
    fuels: map<string, Query<seq<Value>>> // get_fuel_availability(ident)
  )

  /** `storage.get_pricing_data(ident)`: a pricing dict, None for an unknown airport, or an exception. */
  function PricingData(st: EnrichmentStorage, ident: string): (r: Query<Value>)
    ensures ident !in st.pricing ==> r == Found(VNone)
    ensures ident in st.pricing ==> r == st.pricing[ident]
  {
    if ident in st.pricing then st.pricing[ident] else Found(VNone)
  }

  /** `storage.get_fuel_availability(ident)`: a list of fuel dicts (empty for an unknown airport), or an exception. */
  function FuelAvailability(st: EnrichmentStorage, ident: string): (r: Query<seq<Value>>)
    ensures ident !in st.fuels ==> r == Found([])
    ensures ident in st.fuels ==> r == st.fuels[ident]
  {
    if ident in st.fuels then st.fuels[ident] else Found([])
  }

  /**
    The C172 landing fee the store yields for an airport: the pricing query
    succeeds, its result is a non-empty dict, `landing_fee_c172` is present
    and not None, and `float()` accepts it. Every other outcome is None.
   */
  function C172Fee(st: EnrichmentStorage, ident: string): (fee: Option<real>)
    ensures fee.Some? ==> PricingData(st, ident).Found? && PricingData(st, ident).value.VDict?
    ensures fee.Some? ==> HasKey(PricingData(st, ident).value.entries, "landing_fee_c172")
  {
    match PricingData(st, ident)
    case Raises => None
    case Found(pricing) =>
      if !Truthy(pricing) then None
      else match GetAttr(pricing, "landing_fee_c172", VNone)
        case None => None
        case Some(fee) => if fee.VNone? then None else ToFloat(fee)
  }

  /** A failing query, no pricing, an empty record, and a missing or None fee all yield no fee. */
  lemma C172FeeMissing(st: EnrichmentStorage, ident: string)
    ensures PricingData(st, ident) == Raises ==> C172Fee(st, ident).None?
    ensures PricingData(st, ident) == Found(VNone) ==> C172Fee(st, ident).None?
    ensures PricingData(st, ident) == Found(VDict([])) ==> C172Fee(st, ident).None?
    ensures (PricingData(st, ident).Found? && PricingData(st, ident).value.VDict?
             && Get(PricingData(st, ident).value.entries, "landing_fee_c172", VNone) == VNone)
            ==> C172Fee(st, ident).None?
  {
  }

  /** A fee that `float()` rejects yields no fee either. */
  lemma C172FeeUnparseable(st: EnrichmentStorage, ident: string)
    requires PricingData(st, ident) == Found(VDict([("landing_fee_c172", VStr("n/a"))]))
    ensures C172Fee(st, ident).None?
  {
    var pricing := VDict([("landing_fee_c172", VStr("n/a"))]);
    assert Truthy(pricing);
    assert Lookup(pricing.entries, "landing_fee_c172") == Some(VStr("n/a"));
    assert GetAttr(pricing, "landing_fee_c172", VNone) == Some(VStr("n/a"));
    StripSpaceFree("n/a");
    ParseFloatRejects("n/a");
    assert ToFloat(VStr("n/a")).None?;
  }
}
