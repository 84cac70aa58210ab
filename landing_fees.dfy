/**
  Landing fees of the per-airport JSON files: the aircraft types with known
  maximum take-off mass (MTOW), the MTOW bands fees are grouped in, and the
  fee record of an airport, which holds the mean landing fee of each band
  among the aircraft types listed with a usable price.
 */
module LandingFees {
  import opened Wrappers
  import opened Seqs
  import opened PyStr
  import opened PyValue
  import opened Buckets

  /** An MTOW band: `(min_kg, max_kg, band_name)`, both bounds included. */
  datatype Band = Band(minKg: int, maxKg: int, name: string)

  predicate InBand(b: Band, mtowKg: int) {
    b.minKg <= mtowKg <= b.maxKg
  }

  /** `FEE_BANDS` */
  const FeeBands: seq<Band> := [
    Band(0, 749, "fee_band_0_749kg"),
    Band(750, 1199, "fee_band_750_1199kg"),
    Band(1200, 1499, "fee_band_1200_1499kg"),
    Band(1500, 1999, "fee_band_1500_1999kg"),
    Band(2000, 3999, "fee_band_2000_3999kg"),
    Band(4000, 99999, "fee_band_4000_plus_kg")
  ]

  /** The band an MTOW no band contains falls back to. */
  const FallbackBand: string := "fee_band_4000_plus_kg"

  /** `AIRCRAFT_MTOW_MAP` of the directory source: lower-case aircraft type to MTOW in kg. */
  const AircraftMtow: map<string, int> := map[
    "c172" := 1157, "pa28" := 1111, "c152" := 757, "c182" := 1406, "a210" := 1814,
    "sr22" := 1633, "c210" := 1814, "m20" := 1315, "pa32" := 1542,
    "pa34" := 2155, "be76" := 1769, "da42" := 1785,
    "tbm850" := 3354, "tbm85" := 3354, "tbm9" := 3354, "pc12" := 4740,
    "c510" := 4536, "c525" := 5670
  ]

  /** The first band of `bands` containing the MTOW, else the fallback. */
  function FirstBand(bands: seq<Band>, mtowKg: int): (name: string)
    ensures (forall i :: 0 <= i < |bands| ==> !InBand(bands[i], mtowKg)) ==> name == FallbackBand
  {
    if bands == [] then FallbackBand
    else if InBand(bands[0], mtowKg) then bands[0].name
    else
      var name := FirstBand(bands[1..], mtowKg);
      assert forall i :: 1 <= i < |bands| ==> bands[i] == bands[1..][i - 1];
      name
  }

  /** `_get_fee_band`: the loop over `FEE_BANDS` returning the first band that contains the MTOW. */
  function FeeBandOf(mtowKg: int): string {
    FirstBand(FeeBands, mtowKg)
  }

  /** Bands in increasing order, each starting right after the previous one ends. */
  predicate Contiguous(bands: seq<Band>) {
    && (forall i :: 0 <= i < |bands| ==> bands[i].minKg <= bands[i].maxKg)
    && (forall i :: 0 <= i < |bands| - 1 ==> bands[i].maxKg + 1 == bands[i + 1].minKg)
  }

  /** In contiguous bands, a value lies in at most one band. */
  lemma {:induction false} ContiguousDisjoint(bands: seq<Band>, mtowKg: int, i: int, j: int)
    requires Contiguous(bands)
    requires 0 <= i < j < |bands|
    ensures !(InBand(bands[i], mtowKg) && InBand(bands[j], mtowKg))
  {
    if j == i + 1 {
    } else {
      ContiguousDisjoint(bands, mtowKg, i, j - 1);
      ContiguousMonotone(bands, i, j - 1);
    }
  }

  lemma {:induction false} ContiguousMonotone(bands: seq<Band>, i: int, j: int)
    requires Contiguous(bands)
    requires 0 <= i <= j < |bands|
    ensures bands[i].maxKg <= bands[j].maxKg
  {
    if i < j {
      ContiguousMonotone(bands, i, j - 1);
    }
  }

  /** In contiguous bands, the first match is the band that contains the value. */
  lemma {:induction false} FirstBandContaining(bands: seq<Band>, mtowKg: int, i: int)
    requires Contiguous(bands)
    requires 0 <= i < |bands| && InBand(bands[i], mtowKg)
    ensures FirstBand(bands, mtowKg) == bands[i].name
  {
    if i > 0 {
      ContiguousDisjoint(bands, mtowKg, 0, i);
      var rest := bands[1..];
      assert Contiguous(rest) by {
        assert forall k :: 0 <= k < |rest| ==> rest[k] == bands[k + 1];
      }
      assert rest[i - 1] == bands[i];
      FirstBandContaining(rest, mtowKg, i - 1);
    }
  }

  /** Contiguous bands cover exactly the values from the first band's start to the last band's end. */
  lemma {:induction false} ContiguousCover(bands: seq<Band>, mtowKg: int)
    requires Contiguous(bands) && bands != []
    requires bands[0].minKg <= mtowKg <= bands[|bands| - 1].maxKg
    ensures exists i :: 0 <= i < |bands| && InBand(bands[i], mtowKg)
  {
    if !InBand(bands[0], mtowKg) {
      var rest := bands[1..];
      assert Contiguous(rest) by {
        assert forall k :: 0 <= k < |rest| ==> rest[k] == bands[k + 1];
      }
      ContiguousCover(rest, mtowKg);
      var i :| 0 <= i < |rest| && InBand(rest[i], mtowKg);
      assert bands[i + 1] == rest[i];
    }
  }

  /**
    `FEE_BANDS` partition 0..99999: every MTOW in that range lies in exactly
    one band and `_get_fee_band` names it; any other MTOW, negatives
    included, gets the 4000+ band.
   */
  lemma FeeBandOfMeaning(mtowKg: int)
    ensures 0 <= mtowKg <= 99999 ==> exists i :: (
      && 0 <= i < |FeeBands| && InBand(FeeBands[i], mtowKg) && FeeBandOf(mtowKg) == FeeBands[i].name
      && forall j :: 0 <= j < |FeeBands| && InBand(FeeBands[j], mtowKg) ==> j == i)
    ensures (mtowKg < 0 || mtowKg > 99999) ==> FeeBandOf(mtowKg) == FallbackBand
  {
    assert Contiguous(FeeBands);
    if 0 <= mtowKg <= 99999 {
      ContiguousCover(FeeBands, mtowKg);
      var i :| 0 <= i < |FeeBands| && InBand(FeeBands[i], mtowKg);
      FirstBandContaining(FeeBands, mtowKg, i);
      forall j | 0 <= j < |FeeBands| && InBand(FeeBands[j], mtowKg) ensures j == i {
        if j < i {
          ContiguousDisjoint(FeeBands, mtowKg, j, i);
        } else if i < j {
          ContiguousDisjoint(FeeBands, mtowKg, i, j);
        }
      }
    } else {
      assert forall i :: 0 <= i < |FeeBands| ==> !InBand(FeeBands[i], mtowKg);
    }
  }

  /** The first entry of a fee list: its `netPrice` and `netprice` values, VNone when absent. */
  datatype FeeEntry = FeeEntry(netPrice: Value, netprice: Value)

  /**
    What one aircraft type of `landing_fees` contributes: its band and price,
    or nothing for an unknown type, an empty (or non-list) fee list, a falsy
    net price, or one `float()` rejects.
   */
  function FeePrice(aircraftType: string, fees: seq<FeeEntry>): (c: Option<(string, real)>)
    ensures c.Some? <==>
      (&& Lower(aircraftType) in AircraftMtow && fees != []
       && Truthy(Or(fees[0].netPrice, fees[0].netprice))
       && ToFloat(Or(fees[0].netPrice, fees[0].netprice)).Some?)
    ensures c.Some? ==>
      && c.value.0 == FeeBandOf(AircraftMtow[Lower(aircraftType)])
      && Some(c.value.1) == ToFloat(Or(fees[0].netPrice, fees[0].netprice))
  {
    var key := Lower(aircraftType);
    if key !in AircraftMtow || fees == [] then None
    else
      var netPrice := Or(fees[0].netPrice, fees[0].netprice);
      if !Truthy(netPrice) then None
      else
        match ToFloat(netPrice)
        case None => None
        case Some(price) => Some((FeeBandOf(AircraftMtow[key]), price))
  }

  /** The (band, price) pairs the loop appends, in order. */
  function Contributions(landingFees: seq<(string, seq<FeeEntry>)>): seq<(string, real)> {
    if landingFees == [] then []
    else
      var last := landingFees[|landingFees| - 1];
      var c := FeePrice(last.0, last.1);
      Contributions(landingFees[..|landingFees| - 1]) + (if c.Some? then [c.value] else [])
  }

  /** A pair is contributed iff some aircraft type of the list gives it. */
  lemma {:induction false} ContributionsMeaning(landingFees: seq<(string, seq<FeeEntry>)>)
    ensures forall c :: c in Contributions(landingFees) <==>
      exists i :: 0 <= i < |landingFees| && FeePrice(landingFees[i].0, landingFees[i].1) == Some(c)
  {
    if landingFees != [] {
      var prefix := landingFees[..|landingFees| - 1];
      ContributionsMeaning(prefix);
      assert forall i :: 0 <= i < |prefix| ==> prefix[i] == landingFees[i];
    }
  }

  /** `fee_bands`: each band's prices in the order they were appended. */
  function BandPrices(cs: seq<(string, real)>): map<string, seq<real>> {
    if cs == [] then map[]
    else AddTo(BandPrices(cs[..|cs| - 1]), cs[|cs| - 1].0, cs[|cs| - 1].1)
  }

  /** The prices of the pairs, in order. */
  function Prices(cs: seq<(string, real)>): (ps: seq<real>)
    ensures |ps| == |cs|
    ensures forall i :: 0 <= i < |cs| ==> ps[i] == cs[i].1
  {
    seq(|cs|, i requires 0 <= i < |cs| => cs[i].1)
  }

  /** Each band's list holds exactly the prices contributed to that band, in order. */
  lemma {:induction false} BandPricesMeaning(cs: seq<(string, real)>, b: string)
    ensures BucketOf(BandPrices(cs), b) == Prices(Filter(cs, (c: (string, real)) => c.0 == b))
  {
    if cs != [] {
      var prefix := cs[..|cs| - 1];
      var x := cs[|cs| - 1];
      BandPricesMeaning(prefix, b);
      assert cs == prefix + [x];
      FilterAppend(prefix, x, (c: (string, real)) => c.0 == b);
      var f := Filter(prefix, (c: (string, real)) => c.0 == b);
      if x.0 == b {
        PricesSnoc(f, x);
      }
    }
  }

  lemma PricesSnoc(cs: seq<(string, real)>, x: (string, real))
    ensures Prices(cs + [x]) == Prices(cs) + [x.1]
  {
    assert forall i :: 0 <= i < |cs| ==> (cs + [x])[i] == cs[i];
  }

  /** The keys of `fee_bands` are the bands contributed to. */
  lemma {:induction false} BandPricesKeys(cs: seq<(string, real)>, b: string)
    ensures b in BandPrices(cs) <==> exists i :: 0 <= i < |cs| && cs[i].0 == b
  {
    if cs != [] {
      var prefix := cs[..|cs| - 1];
      BandPricesKeys(prefix, b);
      if exists i :: 0 <= i < |prefix| && prefix[i].0 == b {
        var i :| 0 <= i < |prefix| && prefix[i].0 == b;
        assert cs[i].0 == b;
      }
      if exists i :: 0 <= i < |cs| && cs[i].0 == b {
        var i :| 0 <= i < |cs| && cs[i].0 == b;
        if i < |prefix| {
          assert prefix[i].0 == b;
        }
      }
    }
  }

  function Sum(xs: seq<real>): real {
    if xs == [] then 0.0 else Sum(xs[..|xs| - 1]) + xs[|xs| - 1]
  }

  /** `sum(prices) / len(prices)`; the loader only takes it of a non-empty list. */
  function Mean(xs: seq<real>): real {
    if xs == [] then 0.0 else Sum(xs) / |xs| as real
  }

  lemma {:induction false} SumBounds(xs: seq<real>, lo: real, hi: real)
    requires forall i :: 0 <= i < |xs| ==> lo <= xs[i] <= hi
    ensures |xs| as real * lo <= Sum(xs) <= |xs| as real * hi
  {
    if xs != [] {
      var prefix := xs[..|xs| - 1];
      assert forall i :: 0 <= i < |prefix| ==> prefix[i] == xs[i];
      SumBounds(prefix, lo, hi);
      var n := |prefix| as real;
      assert |xs| as real * lo == n * lo + lo;
      assert |xs| as real * hi == n * hi + hi;
    }
  }

  /** A mean lies between any lower and upper bound of the values it averages. */
  lemma MeanBounds(xs: seq<real>, lo: real, hi: real)
    requires xs != []
    requires forall i :: 0 <= i < |xs| ==> lo <= xs[i] <= hi
    ensures lo <= Mean(xs) <= hi
  {
    SumBounds(xs, lo, hi);
    var n := |xs| as real;
    assert n * lo <= Sum(xs) <= n * hi;
    assert Mean(xs) == Sum(xs) / n;
    assert lo == (n * lo) / n && hi == (n * hi) / n;
  }

  /** The `aerops.data` dict of an airport file: `landing_fees` in file order, `currency` (None when absent), `fees_last_changed`. */
  datatype Aerops = Aerops(landingFees: seq<(string, seq<FeeEntry>)>, currency: Option<Value>, feesLastChanged: Value)

  /** The record `_parse_fees` stores: currency, last change and the mean fee of each band. */
  datatype FeeRecord = FeeRecord(currency: Value, feesLastChanged: Value, bands: map<string, real>)

  /** `_parse_fees`: no record without landing fees or without a single usable price. */
  function FeeRecordOf(aerops: Aerops): Option<FeeRecord> {
    if aerops.landingFees == [] then None
    else
      var feeBands := BandPrices(Contributions(aerops.landingFees));
      if |feeBands| == 0 then None
      else
        Some(FeeRecord(
          aerops.currency.GetOr(VStr("EUR")),
          aerops.feesLastChanged,
          map b | b in feeBands :: Mean(feeBands[b])))
  }

  /** A band is contributed to iff some aircraft type of the list gives a price in it. */
  lemma ContributedBands(lf: seq<(string, seq<FeeEntry>)>, b: string)
    ensures b in BandPrices(Contributions(lf)) <==>
      exists i :: 0 <= i < |lf| && FeePrice(lf[i].0, lf[i].1).Some? && FeePrice(lf[i].0, lf[i].1).value.0 == b
  {
    if b in BandPrices(Contributions(lf)) {
      var i := ContributedFrom(lf, b);
    }
    if exists i :: 0 <= i < |lf| && FeePrice(lf[i].0, lf[i].1).Some? && FeePrice(lf[i].0, lf[i].1).value.0 == b {
      var i :| 0 <= i < |lf| && FeePrice(lf[i].0, lf[i].1).Some? && FeePrice(lf[i].0, lf[i].1).value.0 == b;
      ContributedTo(lf, b, i);
    }
  }

  lemma ContributedFrom(lf: seq<(string, seq<FeeEntry>)>, b: string) returns (i: nat)
    requires b in BandPrices(Contributions(lf))
    ensures i < |lf| && FeePrice(lf[i].0, lf[i].1).Some? && FeePrice(lf[i].0, lf[i].1).value.0 == b
  {
    var cs := Contributions(lf);
    var k := BandWitness(cs, b);
    i := ContributionWitness(lf, cs[k]);
  }

  /** A position of a pair contributed to band `b`, for a band that has prices. */
  lemma {:induction false} BandWitness(cs: seq<(string, real)>, b: string) returns (k: nat)
    requires b in BandPrices(cs)
    ensures k < |cs| && cs[k].0 == b
  {
    var prefix := cs[..|cs| - 1];
    if cs[|cs| - 1].0 == b {
      k := |cs| - 1;
    } else {
      k := BandWitness(prefix, b);
    }
  }

  /** The position of an aircraft type that contributes a collected pair. */
  lemma {:induction false} ContributionWitness(lf: seq<(string, seq<FeeEntry>)>, c: (string, real)) returns (i: nat)
    requires c in Contributions(lf)
    ensures i < |lf| && FeePrice(lf[i].0, lf[i].1) == Some(c)
  {
    var prefix := lf[..|lf| - 1];
    var last := FeePrice(lf[|lf| - 1].0, lf[|lf| - 1].1);
    if last == Some(c) {
      i := |lf| - 1;
    } else {
      i := ContributionWitness(prefix, c);
      assert lf[i] == prefix[i];
    }
  }

  lemma ContributedTo(lf: seq<(string, seq<FeeEntry>)>, b: string, i: int)
    requires 0 <= i < |lf| && FeePrice(lf[i].0, lf[i].1).Some? && FeePrice(lf[i].0, lf[i].1).value.0 == b
    ensures b in BandPrices(Contributions(lf))
  {
    var cs := Contributions(lf);
    var c := FeePrice(lf[i].0, lf[i].1).value;
    assert c in cs by { ContributionsMeaning(lf); }
    var k :| 0 <= k < |cs| && cs[k] == c;
    BandPricesKeys(cs, b);
  }

  /** An airport gets a fee record iff at least one aircraft type gives a usable price. */
  lemma FeeRecordExists(aerops: Aerops)
    ensures var lf := aerops.landingFees;
      FeeRecordOf(aerops).Some? <==> exists i :: 0 <= i < |lf| && FeePrice(lf[i].0, lf[i].1).Some?
  {
    var lf := aerops.landingFees;
    var feeBands := BandPrices(Contributions(lf));
    if exists i :: 0 <= i < |lf| && FeePrice(lf[i].0, lf[i].1).Some? {
      var i :| 0 <= i < |lf| && FeePrice(lf[i].0, lf[i].1).Some?;
      ContributedBands(lf, FeePrice(lf[i].0, lf[i].1).value.0);
      assert |feeBands| > 0;
    } else {
      forall b ensures b !in feeBands {
        ContributedBands(lf, b);
      }
      assert feeBands == map[];
    }
  }

  /**
    A fee record's bands are the bands of the aircraft types with a usable
    price, each holding the mean of the prices given for it; the currency
    defaults to EUR.
   */
  lemma FeeRecordBands(aerops: Aerops, b: string)
    requires FeeRecordOf(aerops).Some?
    ensures var lf := aerops.landingFees; var r := FeeRecordOf(aerops).value;
      && (b in r.bands <==>
            exists i :: 0 <= i < |lf| && FeePrice(lf[i].0, lf[i].1).Some? && FeePrice(lf[i].0, lf[i].1).value.0 == b)
      && (b in r.bands ==> r.bands[b] == Mean(Prices(Filter(Contributions(lf), (c: (string, real)) => c.0 == b))))
      && r.currency == (if aerops.currency.Some? then aerops.currency.value else VStr("EUR"))
  {
    ContributedBands(aerops.landingFees, b);
    BandPricesMeaning(Contributions(aerops.landingFees), b);
  }

  lemma ContributionsStep(landingFees: seq<(string, seq<FeeEntry>)>, i: nat)
    requires i < |landingFees|
    ensures FeePrice(landingFees[i].0, landingFees[i].1).None? ==>
      Contributions(landingFees[..i + 1]) == Contributions(landingFees[..i])
    ensures FeePrice(landingFees[i].0, landingFees[i].1).Some? ==>
      Contributions(landingFees[..i + 1]) == Contributions(landingFees[..i]) + [FeePrice(landingFees[i].0, landingFees[i].1).value]
  {
    assert landingFees[..i + 1][..i] == landingFees[..i];
    assert Contributions(landingFees[..i]) + [] == Contributions(landingFees[..i]);
  }

  lemma BandPricesAppend(cs: seq<(string, real)>, c: (string, real))
    ensures BandPrices(cs + [c]) == AddTo(BandPrices(cs), c.0, c.1)
  {
    assert (cs + [c])[..|cs|] == cs;
  }

  /** `_parse_fees`: the loop over `landing_fees` filling `fee_bands`, then the record of band means. */
  method ParseFees(aerops: Aerops) returns (record: Option<FeeRecord>)
    ensures record == FeeRecordOf(aerops)
  {
    var landingFees := aerops.landingFees;
    if landingFees == [] {
      return None;
    }
    var currency := aerops.currency.GetOr(VStr("EUR"));
    var feeBands: map<string, seq<real>> := map[];
    for i := 0 to |landingFees|
      invariant feeBands == BandPrices(Contributions(landingFees[..i]))
    {
      ContributionsStep(landingFees, i);
      var aircraftType := landingFees[i].0;
      var fees := landingFees[i].1;
      var key := Lower(aircraftType);
      if key !in AircraftMtow {
        assert FeePrice(aircraftType, fees).None?;
        continue;
      }
      var band := FeeBandOf(AircraftMtow[key]);
      if fees != [] {
        var netPrice := Or(fees[0].netPrice, fees[0].netprice);
        if Truthy(netPrice) {
          var price := ToFloat(netPrice);
          if price.Some? {
            assert FeePrice(aircraftType, fees) == Some((band, price.value));
            BandPricesAppend(Contributions(landingFees[..i]), (band, price.value));
            feeBands := AppendTo(feeBands, band, price.value);
          } else {
            assert FeePrice(aircraftType, fees).None?;
          }
        } else {
          assert FeePrice(aircraftType, fees).None?;
        }
      } else {
        assert FeePrice(aircraftType, fees).None?;
      }
    }
    assert landingFees[..|landingFees|] == landingFees;
    if |feeBands| > 0 {
      record := Some(FeeRecord(currency, aerops.feesLastChanged, map b | b in feeBands :: Mean(feeBands[b])));
    } else {
      record := None;
    }
  }
}
