/**
  `AirportJsonDirectorySource`: reviews, airport data and landing-fee data from
  a directory of per-airport JSON files in the airfield.directory format. The
  whole directory is loaded once, on the first query, into four fields: the
  review list, the per-ICAO review dict, the per-ICAO airport dict and the
  per-ICAO fee records.
 */
module AirportJsonSource {
  import opened Wrappers
  import opened Seqs
  import opened PyStr
  import opened PyValue
  import opened Buckets
  import opened ReviewModel
  import opened LandingFees

  /**
    A parsed airport file: the `icao` of its `airfield.data` dict ("" when that
    dict or the key is absent), the `pireps.data` list, and the `aerops.data`
    dict (None when absent or empty).
   */
  datatype AirportJson = AirportJson(airfieldIcao: string, pireps: seq<Pirep>, aerops: Option<Aerops>)

  /**
    One file the glob matched: its stem, and its JSON (None when opening it
    or decoding its JSON fails, or it is empty). A file that is not valid UTF-8
    raises `UnicodeDecodeError`, which the loader does not catch; that case is
    not represented here.
   */
  datatype AirportFile = AirportFile(stem: string, data: Option<AirportJson>)

  /** The directory: missing, or the files the glob matches, in the order it lists them. */
  datatype DirectoryListing = MissingDirectory | Listing(files: seq<AirportFile>)

  /** The constructor's arguments that the loading reads; the directory and glob pattern are in the listing. */
  datatype SourceConfig = SourceConfig(filterAiGenerated: bool, preferredLanguage: string)

  const DefaultConfig: SourceConfig := SourceConfig(true, "EN")

  const SourceName: string := "airfield.directory.json"

  /**
    The ICAO a file is filed under: the upper-cased `icao` of its airfield data,
    else its upper-cased stem when that has four characters; a file with neither
    is skipped, as is one that did not parse.
   */
  function FileIcao(f: AirportFile): (k: Option<string>)
    ensures k.Some? ==> f.data.Some? && k.value != "" && Upper(k.value) == k.value
    ensures f.data.Some? && f.data.value.airfieldIcao != "" ==> k == Some(Upper(f.data.value.airfieldIcao))
    ensures f.data.Some? && f.data.value.airfieldIcao == "" ==> (k.Some? <==> |f.stem| == 4)
  {
    if f.data.None? then None
    else
      var icao := Upper(f.data.value.airfieldIcao);
      UpperIdempotent(f.data.value.airfieldIcao);
      UpperIdempotent(f.stem);
      if icao != "" then Some(icao)
      else if |Upper(f.stem)| == 4 then Some(Upper(f.stem))
      else None
  }

  /**
    The review one pirep gives under `icao`: none for an AI-generated report
    when filtering, nor for a blank text; otherwise the stripped text with the
    report's own id (VNone when absent) and its language, else the preferred one.
   */
  function PirepReview(cfg: SourceConfig, icao: string, p: Pirep): (r: Option<RawReview>)
    ensures r.Some? <==> !DroppedAsAi(cfg.filterAiGenerated, p) && PirepText(p.content, cfg.preferredLanguage) != ""
    ensures r.Some? ==> r.value.icao == icao && r.value.reviewText == PirepText(p.content, cfg.preferredLanguage)
  {
    if DroppedAsAi(cfg.filterAiGenerated, p) then None
    else
      var text := PirepText(p.content, cfg.preferredLanguage);
      if text == "" then None
      else
        Some(RawReview(
          icao, text,
          p.id.GetOr(VNone),
          p.rating,
          Or(p.createdAt, p.updatedAt),
          p.language.GetOr(VStr(cfg.preferredLanguage)),
          p.aiGenerated,
          SourceName))
  }

  /** The reviews one file's pireps give, in list order. */
  function FileReviews(cfg: SourceConfig, icao: string, pireps: seq<Pirep>): seq<RawReview> {
    Collect(pireps, p => PirepReview(cfg, icao, p))
  }

  /** A file's reviews are exactly the reviews its pireps give. */
  lemma FileReviewsMeaning(cfg: SourceConfig, icao: string, pireps: seq<Pirep>)
    ensures forall r :: r in FileReviews(cfg, icao, pireps) <==>
      exists j :: 0 <= j < |pireps| && PirepReview(cfg, icao, pireps[j]) == Some(r)
  {
    CollectMeaning(pireps, p => PirepReview(cfg, icao, p));
  }

  /** The fee record a file's `aerops` data gives, if any. */
  function FileFees(f: AirportFile): Option<FeeRecord> {
    if f.data.Some? && f.data.value.aerops.Some? then FeeRecordOf(f.data.value.aerops.value) else None
  }

  /** What the loader has built: the review list, the airport dict and the fee dict. */
  datatype DirContents = DirContents(
    reviews: seq<RawReview>,
    airportData: map<string, AirportJson>,
    feeData: map<string, FeeRecord>)

  const NoContents: DirContents := DirContents([], map[], map[])

  /**
    One turn of the file loop: a file with an ICAO replaces that ICAO's airport
    data, appends its reviews and, when its fees give a record, replaces that
    ICAO's fee record.
   */
  function FileStep(cfg: SourceConfig, c: DirContents, f: AirportFile): DirContents {
    match FileIcao(f)
    case None => c
    case Some(icao) =>
      var fees := FileFees(f);
      DirContents(
        c.reviews + FileReviews(cfg, icao, f.data.value.pireps),
        c.airportData[icao := f.data.value],
        if fees.Some? then c.feeData[icao := fees.value] else c.feeData)
  }

  /** The file loop of `_load_data` over the listed files. */
  function DirLoad(cfg: SourceConfig, files: seq<AirportFile>): DirContents {
    if files == [] then NoContents
    else FileStep(cfg, DirLoad(cfg, files[..|files| - 1]), files[|files| - 1])
  }

  /** The `_airport_data` entry a file writes. */
  function AirportWrite(f: AirportFile): Option<(string, AirportJson)> {
    if FileIcao(f).Some? then Some((FileIcao(f).value, f.data.value)) else None
  }

  /** The `_fee_data` entry a file writes. */
  function FeeWrite(f: AirportFile): Option<(string, FeeRecord)> {
    if FileIcao(f).Some? && FileFees(f).Some? then Some((FileIcao(f).value, FileFees(f).value)) else None
  }

  /** The airport and fee dicts are the last writes of the files' entries. */
  lemma {:induction false} DirLoadWrites(cfg: SourceConfig, files: seq<AirportFile>)
    ensures DirLoad(cfg, files).airportData == LastWrites(files, AirportWrite)
    ensures DirLoad(cfg, files).feeData == LastWrites(files, FeeWrite)
  {
    if files != [] {
      DirLoadWrites(cfg, files[..|files| - 1]);
    }
  }

  /**
    An ICAO has airport data iff some file is filed under it, and the data kept
    is that of the LAST such file.
   */
  lemma DirLoadAirports(cfg: SourceConfig, files: seq<AirportFile>, k: string)
    ensures k in DirLoad(cfg, files).airportData <==> exists i :: 0 <= i < |files| && FileIcao(files[i]) == Some(k)
    ensures k in DirLoad(cfg, files).airportData ==> exists i :: (
      && 0 <= i < |files| && FileIcao(files[i]) == Some(k)
      && DirLoad(cfg, files).airportData[k] == files[i].data.value
      && forall j :: i < j < |files| ==> FileIcao(files[j]) != Some(k))
  {
    DirLoadWrites(cfg, files);
    LastWritesKeys(files, AirportWrite, k);
    if k in DirLoad(cfg, files).airportData {
      LastWritesValue(files, AirportWrite, k);
    }
  }

  /**
    An ICAO has a fee record iff some file filed under it gives one, and the
    record kept is that of the last such file: a later file with that ICAO but
    no usable fees leaves it in place.
   */
  lemma DirLoadFees(cfg: SourceConfig, files: seq<AirportFile>, k: string)
    ensures k in DirLoad(cfg, files).feeData <==>
      exists i :: 0 <= i < |files| && FileIcao(files[i]) == Some(k) && FileFees(files[i]).Some?
    ensures k in DirLoad(cfg, files).feeData ==> exists i :: (
      && 0 <= i < |files| && FileIcao(files[i]) == Some(k)
      && FileFees(files[i]) == Some(DirLoad(cfg, files).feeData[k])
      && forall j :: i < j < |files| && FileIcao(files[j]) == Some(k) ==> FileFees(files[j]).None?)
  {
    var fees := DirLoad(cfg, files).feeData;
    DirLoadWrites(cfg, files);
    LastWritesKeys(files, FeeWrite, k);
    if k in fees {
      LastWritesValue(files, FeeWrite, k);
      var i :| (&& 0 <= i < |files| && FeeWrite(files[i]) == Some((k, fees[k]))
        && forall j :: i < j < |files| ==> !(FeeWrite(files[j]).Some? && FeeWrite(files[j]).value.0 == k));
      assert FileFees(files[i]) == Some(fees[k]);
      forall j | i < j < |files| && FileIcao(files[j]) == Some(k) ensures FileFees(files[j]).None? {
        assert FeeWrite(files[j]).None? || FeeWrite(files[j]).value.0 != k;
      }
    }
  }

  /** Only an airport with airport data has a fee record. */
  lemma FeeDataHasAirportData(cfg: SourceConfig, files: seq<AirportFile>)
    ensures DirLoad(cfg, files).feeData.Keys <= DirLoad(cfg, files).airportData.Keys
  {
    forall k | k in DirLoad(cfg, files).feeData ensures k in DirLoad(cfg, files).airportData {
      DirLoadFees(cfg, files, k);
      DirLoadAirports(cfg, files, k);
    }
  }

  /** A loaded review has a non-empty stripped text and a non-empty upper-case ICAO, and is not AI-generated when filtering. */
  predicate WellFormedReview(cfg: SourceConfig, r: RawReview) {
    && r.icao != "" && Upper(r.icao) == r.icao
    && r.reviewText != "" && Strip(r.reviewText) == r.reviewText
    && (cfg.filterAiGenerated ==> !Truthy(r.aiGenerated))
    && r.source == SourceName
  }

  lemma PirepReviewWellFormed(cfg: SourceConfig, icao: string, p: Pirep)
    requires icao != "" && Upper(icao) == icao
    requires PirepReview(cfg, icao, p).Some?
    ensures WellFormedReview(cfg, PirepReview(cfg, icao, p).value)
  {
    match p.content
    case TextContent(s) => StripIdempotent(s);
    case ByLanguage(entries) => StripIdempotent(PickText(entries, cfg.preferredLanguage));
  }

  /** Every loaded review is well formed and belongs to an airport that has airport data. */
  lemma {:induction false} DirLoadReviews(cfg: SourceConfig, files: seq<AirportFile>)
    ensures forall r :: r in DirLoad(cfg, files).reviews ==>
      WellFormedReview(cfg, r) && r.icao in DirLoad(cfg, files).airportData
  {
    if files != [] {
      var n := |files| - 1;
      var prefix := files[..n];
      DirLoadReviews(cfg, prefix);
      var c := DirLoad(cfg, prefix);
      match FileIcao(files[n])
      case None =>
      case Some(icao) =>
        var pireps := files[n].data.value.pireps;
        FileReviewsMeaning(cfg, icao, pireps);
        forall r | r in FileReviews(cfg, icao, pireps) ensures WellFormedReview(cfg, r) && r.icao == icao {
          var j :| 0 <= j < |pireps| && PirepReview(cfg, icao, pireps[j]) == Some(r);
          PirepReviewWellFormed(cfg, icao, pireps[j]);
        }
    }
  }

  /** The reviews after one more file. */
  lemma DirLoadStepReviews(cfg: SourceConfig, files: seq<AirportFile>)
    requires files != []
    ensures var f := files[|files| - 1];
      DirLoad(cfg, files).reviews == DirLoad(cfg, files[..|files| - 1]).reviews +
        (if FileIcao(f).Some? then FileReviews(cfg, FileIcao(f).value, f.data.value.pireps) else [])
  {
    var f := files[|files| - 1];
    if FileIcao(f).None? {
      assert DirLoad(cfg, files[..|files| - 1]).reviews + [] == DirLoad(cfg, files[..|files| - 1]).reviews;
    }
  }

  /** Conversely, every review a pirep of a filed airport gives is loaded. */
  lemma {:induction false} DirLoadKeepsReviews(cfg: SourceConfig, files: seq<AirportFile>, i: int, j: int)
    requires 0 <= i < |files| && FileIcao(files[i]).Some?
    requires 0 <= j < |files[i].data.value.pireps|
    requires PirepReview(cfg, FileIcao(files[i]).value, files[i].data.value.pireps[j]).Some?
    ensures PirepReview(cfg, FileIcao(files[i]).value, files[i].data.value.pireps[j]).value in DirLoad(cfg, files).reviews
  {
    var n := |files| - 1;
    var prefix := files[..n];
    var r := PirepReview(cfg, FileIcao(files[i]).value, files[i].data.value.pireps[j]).value;
    DirLoadStepReviews(cfg, files);
    var added := if FileIcao(files[n]).Some? then FileReviews(cfg, FileIcao(files[n]).value, files[n].data.value.pireps) else [];
    assert DirLoad(cfg, files).reviews == DirLoad(cfg, prefix).reviews + added;
    if i < n {
      assert prefix[i] == files[i];
      DirLoadKeepsReviews(cfg, prefix, i, j);
      assert r in DirLoad(cfg, prefix).reviews;
    } else {
      FileReviewsMeaning(cfg, FileIcao(files[n]).value, files[n].data.value.pireps);
      assert r in added;
    }
  }

  /** The four fields; all None until the first load. */
  datatype DirState = DirState(
    reviews: Option<seq<RawReview>>,
    reviewsByIcao: Option<map<string, seq<RawReview>>>,
    airportData: Option<map<string, AirportJson>>,
    feeData: Option<map<string, FeeRecord>>)

  /** The fields after `_load_data`, and whether it raised. */
  datatype LoadResult = LoadResult(state: DirState, raised: bool)

  /**
    `_load_data`: nothing to do once loaded. The fields are set to empty before
    the directory is checked, so a missing directory raises FileNotFoundError
    and leaves them empty, and loaded.
   */
  function AfterLoad(st: DirState, cfg: SourceConfig, listing: DirectoryListing): (r: LoadResult)
    ensures st.reviews.Some? ==> r == LoadResult(st, false)
    ensures st.reviews.None? && listing.MissingDirectory? ==>
      r == LoadResult(DirState(Some([]), Some(map[]), Some(map[]), Some(map[])), true)
    ensures st.reviews.None? && listing.Listing? ==>
      (&& !r.raised
       && r.state.reviews == Some(DirLoad(cfg, listing.files).reviews)
       && r.state.reviewsByIcao == Some(ReviewIndex(r.state.reviews.value))
       && r.state.airportData == Some(DirLoad(cfg, listing.files).airportData)
       && r.state.feeData == Some(DirLoad(cfg, listing.files).feeData))
  {
    if st.reviews.Some? then LoadResult(st, false)
    else
      match listing
      case MissingDirectory => LoadResult(DirState(Some([]), Some(map[]), Some(map[]), Some(map[])), true)
      case Listing(files) =>
        var c := DirLoad(cfg, files);
        LoadResult(DirState(Some(c.reviews), Some(ReviewIndex(c.reviews)), Some(c.airportData), Some(c.feeData)), false)
  }

  /**
    A missing directory raises once: every later load succeeds with no reviews,
    no airports and no fees, even when the directory has appeared since.
   */
  lemma MissingDirectoryRemembered(st: DirState, cfg: SourceConfig, later: DirectoryListing)
    requires st.reviews.None?
    ensures var first := AfterLoad(st, cfg, MissingDirectory);
      && first.raised
      && AfterLoad(first.state, cfg, later) == LoadResult(first.state, false)
      && first.state.reviews == Some([]) && first.state.airportData == Some(map[]) && first.state.feeData == Some(map[])
  {
  }

  /** One more pirep: its review, if any, is appended to the list built so far. */
  lemma PirepStep(cfg: SourceConfig, icao: string, pireps: seq<Pirep>, j: nat, reviews0: seq<RawReview>, reviews: seq<RawReview>)
    requires j < |pireps|
    requires reviews == reviews0 + FileReviews(cfg, icao, pireps[..j])
    ensures PirepReview(cfg, icao, pireps[j]).None? ==> reviews == reviews0 + FileReviews(cfg, icao, pireps[..j + 1])
    ensures PirepReview(cfg, icao, pireps[j]).Some? ==>
      reviews + [PirepReview(cfg, icao, pireps[j]).value] == reviews0 + FileReviews(cfg, icao, pireps[..j + 1])
  {
    CollectStep(pireps, p => PirepReview(cfg, icao, p), j);
  }

  /** The pirep loop of one file, appending to the review list and dict built so far. */
  method LoadPireps(cfg: SourceConfig, icao: string, pireps: seq<Pirep>,
                    reviews0: seq<RawReview>, byIcao0: map<string, seq<RawReview>>)
    returns (reviews: seq<RawReview>, byIcao: map<string, seq<RawReview>>)
    requires byIcao0 == ReviewIndex(reviews0)
    ensures reviews == reviews0 + FileReviews(cfg, icao, pireps)
    ensures byIcao == ReviewIndex(reviews)
  {
    reviews := reviews0;
    byIcao := byIcao0;
    for j := 0 to |pireps|
      invariant reviews == reviews0 + FileReviews(cfg, icao, pireps[..j])
      invariant byIcao == ReviewIndex(reviews)
    {
      var p := pireps[j];
      PirepStep(cfg, icao, pireps, j, reviews0, reviews);
      if cfg.filterAiGenerated && Truthy(p.aiGenerated) {
        continue;
      }
      var text := PirepText(p.content, cfg.preferredLanguage);
      if text == "" {
        continue;
      }
      var review := RawReview(
        icao, text,
        p.id.GetOr(VNone),
        p.rating,
        Or(p.createdAt, p.updatedAt),
        p.language.GetOr(VStr(cfg.preferredLanguage)),
        p.aiGenerated,
        SourceName);
      ReviewIndexAppend(reviews, review);
      byIcao := AppendTo(byIcao, icao, review);
      reviews := reviews + [review];
    }
    assert pireps[..|pireps|] == pireps;
  }

  /** The file loop of `_load_data`. */
  method LoadFiles(cfg: SourceConfig, files: seq<AirportFile>)
    returns (c: DirContents, byIcao: map<string, seq<RawReview>>)
    ensures c == DirLoad(cfg, files)
    ensures byIcao == ReviewIndex(c.reviews)
  {
    c := NoContents;
    byIcao := map[];
    for i := 0 to |files|
      invariant c == DirLoad(cfg, files[..i])
      invariant byIcao == ReviewIndex(c.reviews)
    {
      assert files[..i + 1][..i] == files[..i];
      var f := files[i];
      if f.data.None? {
        continue;
      }
      var data := f.data.value;
      var icao := Upper(data.airfieldIcao);
      if icao == "" {
        icao := Upper(f.stem);
        if |icao| != 4 {
          continue;
        }
      }
      assert FileIcao(f) == Some(icao);
      var reviews;
      reviews, byIcao := LoadPireps(cfg, icao, data.pireps, c.reviews, byIcao);
      var feeData := c.feeData;
      if data.aerops.Some? {
        var record := ParseFees(data.aerops.value);
        if record.Some? {
          feeData := feeData[icao := record.value];
        }
      }
      c := DirContents(reviews, c.airportData[icao := data], feeData);
    }
    assert files[..|files|] == files;
  }

  class Source {
    const config: SourceConfig
    var reviews: Option<seq<RawReview>>
    var reviewsByIcao: Option<map<string, seq<RawReview>>>
    var airportData: Option<map<string, AirportJson>>
    var feeData: Option<map<string, FeeRecord>>

    function State(): DirState
      reads this
    {
      DirState(reviews, reviewsByIcao, airportData, feeData)
    }

    /** The four fields are set together, and the per-ICAO review dict agrees with the list. */
    ghost predicate Valid()
      reads this
    {
      && (reviews.None? <==> reviewsByIcao.None?)
      && (reviews.None? <==> airportData.None?)
      && (reviews.None? <==> feeData.None?)
      && (reviews.Some? ==> reviewsByIcao.value == ReviewIndex(reviews.value))
    }

    constructor (config: SourceConfig)
      ensures Valid()
      ensures this.config == config
      ensures State() == DirState(None, None, None, None)
    {
      this.config := config;
      reviews := None;
      reviewsByIcao := None;
      airportData := None;
      feeData := None;
    }

    /** `_load_data`; `raised` where it raises FileNotFoundError. */
    method LoadData(listing: DirectoryListing) returns (raised: bool)
      requires Valid()
      modifies this
      ensures Valid()
      ensures LoadResult(State(), raised) == AfterLoad(old(State()), config, listing)
    {
      if reviews.Some? {
        return false;
      }
      reviews := Some([]);
      reviewsByIcao := Some(map[]);
      airportData := Some(map[]);
      feeData := Some(map[]);
      match listing
      case MissingDirectory =>
        raised := true;
      case Listing(files) =>
        var c, byIcao := LoadFiles(config, files);
        reviews := Some(c.reviews);
        reviewsByIcao := Some(byIcao);
        airportData := Some(c.airportData);
        feeData := Some(c.feeData);
        raised := false;
    }

    /** `get_reviews`: None where the load raises. */
    method GetReviews(listing: DirectoryListing) returns (result: Option<seq<RawReview>>)
      requires Valid()
      modifies this
      ensures Valid()
      ensures State() == AfterLoad(old(State()), config, listing).state
      ensures result.None? <==> AfterLoad(old(State()), config, listing).raised
      ensures result.Some? ==> result.value == reviews.value
    {
      var raised := LoadData(listing);
      if raised {
        return None;
      }
      result := Some(reviews.value);
    }

    /** `get_reviews_for_icao`: the query is upper-cased before the lookup; an unknown ICAO gives []. */
    method GetReviewsForIcao(listing: DirectoryListing, icao: string) returns (result: Option<seq<RawReview>>)
      requires Valid()
      modifies this
      ensures Valid()
      ensures State() == AfterLoad(old(State()), config, listing).state
      ensures result.None? <==> AfterLoad(old(State()), config, listing).raised
      ensures result.Some? ==> result.value == Bucket(reviews.value, IcaoOf, Upper(icao))
    {
      var raised := LoadData(listing);
      if raised {
        return None;
      }
      ReviewIndexMeaning(reviews.value);
      result := Some(BucketOf(reviewsByIcao.value, Upper(icao)));
    }

    /** `get_icaos`: the ICAO codes that have a review. */
    method GetIcaos(listing: DirectoryListing) returns (result: Option<set<string>>)
      requires Valid()
      modifies this
      ensures Valid()
      ensures State() == AfterLoad(old(State()), config, listing).state
      ensures result.None? <==> AfterLoad(old(State()), config, listing).raised
      ensures result.Some? ==> forall k :: k in result.value <==> exists i :: 0 <= i < |reviews.value| && reviews.value[i].icao == k
    {
      var raised := LoadData(listing);
      if raised {
        return None;
      }
      forall k {
        ReviewIndexKeys(reviews.value, k);
      }
      result := Some(reviewsByIcao.value.Keys);
    }

    /** `get_airport_data`: the data of the upper-cased ICAO, None when unknown; `raised` where the load raises. */
    method GetAirportData(listing: DirectoryListing, icao: string) returns (raised: bool, airport: Option<AirportJson>)
      requires Valid()
      modifies this
      ensures Valid()
      ensures LoadResult(State(), raised) == AfterLoad(old(State()), config, listing)
      ensures raised ==> airport.None?
      ensures !raised ==> (airport.Some? <==> Upper(icao) in airportData.value)
      ensures !raised && airport.Some? ==> airport.value == airportData.value[Upper(icao)]
    {
      raised := LoadData(listing);
      if raised {
        return true, None;
      }
      if Upper(icao) in airportData.value {
        airport := Some(airportData.value[Upper(icao)]);
      } else {
        airport := None;
      }
    }

    /** `get_fee_data`: the fee record of the upper-cased ICAO, None when it has none; `raised` where the load raises. */
    method GetFeeData(listing: DirectoryListing, icao: string) returns (raised: bool, fees: Option<FeeRecord>)
      requires Valid()
      modifies this
      ensures Valid()
      ensures LoadResult(State(), raised) == AfterLoad(old(State()), config, listing)
      ensures raised ==> fees.None?
      ensures !raised ==> (fees.Some? <==> Upper(icao) in feeData.value)
      ensures !raised && fees.Some? ==> fees.value == feeData.value[Upper(icao)]
    {
      raised := LoadData(listing);
      if raised {
        return true, None;
      }
      if Upper(icao) in feeData.value {
        fees := Some(feeData.value[Upper(icao)]);
      } else {
        fees := None;
      }
    }

    /** `get_all_fee_data`: every fee record, None where the load raises. */
    method GetAllFeeData(listing: DirectoryListing) returns (result: Option<map<string, FeeRecord>>)
      requires Valid()
      modifies this
      ensures Valid()
      ensures State() == AfterLoad(old(State()), config, listing).state
      ensures result.None? <==> AfterLoad(old(State()), config, listing).raised
      ensures result.Some? ==> result.value == feeData.value
    {
      var raised := LoadData(listing);
      if raised {
        return None;
      }
      result := Some(feeData.value);
    }
  }
}
