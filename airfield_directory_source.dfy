/**
  `AirfieldDirectorySource`: reviews from an airfield.directory bulk export,
  a JSON file whose `pireps` dict maps each ICAO code to a dict of pilot
  reports keyed by report id. The file is read once and kept; the reviews
  are parsed once, on the first query.
 */
module AirfieldDirectorySource {
  import opened Wrappers
  import opened Seqs
  import opened PyStr
  import opened PyValue
  import opened Buckets
  import opened ReviewModel

  /** An entry of the export's `airports` list: its `icao` ("" when absent) and the whole dict. */
  datatype ExportAirport = ExportAirport(icao: string, data: Value)

  /** The export: `pireps` (ICAO, then report id, in file order) and `airports`; an absent key reads as empty. */
  datatype Export = Export(pireps: seq<(string, seq<(string, Pirep)>)>, airports: seq<ExportAirport>)

  /** The export file: missing (or unreadable), or its parsed JSON. */
  datatype ExportFile = NoExportFile | ExportJson(contents: Export)

  /** The constructor's arguments that the loading reads. */
  datatype SourceConfig = SourceConfig(exportPath: Option<string>, filterAiGenerated: bool, preferredLanguage: string)

  const DefaultConfig: SourceConfig := SourceConfig(None, true, "EN")

  const SourceName: string := "airfield.directory"

  /** A pirep with the upper-cased ICAO and the id of the dict it was filed in. */
  datatype FiledPirep = FiledPirep(icao: string, pirepId: string, pirep: Pirep)

  /** The inner loop's entries for one ICAO. */
  function Filed(icao: string, entries: seq<(string, Pirep)>): (f: seq<FiledPirep>)
    ensures |f| == |entries|
    ensures forall j :: 0 <= j < |entries| ==> f[j] == FiledPirep(icao, entries[j].0, entries[j].1)
  {
    seq(|entries|, j requires 0 <= j < |entries| => FiledPirep(icao, entries[j].0, entries[j].1))
  }

  /** Both loops together: every pirep in visiting order, under `icao.upper()`. */
  function Flatten(groups: seq<(string, seq<(string, Pirep)>)>): seq<FiledPirep> {
    if groups == [] then []
    else Flatten(groups[..|groups| - 1]) + Filed(Upper(groups[|groups| - 1].0), groups[|groups| - 1].1)
  }

  lemma {:induction false} FlattenConcat(a: seq<(string, seq<(string, Pirep)>)>, b: seq<(string, seq<(string, Pirep)>)>)
    ensures Flatten(a + b) == Flatten(a) + Flatten(b)
  {
    if b == [] {
      assert a + b == a;
    } else {
      var b' := b[..|b| - 1];
      assert (a + b)[..|a + b| - 1] == a + b';
      FlattenConcat(a, b');
    }
  }

  /** Every flattened pirep is filed under the upper-cased key of its group. */
  lemma {:induction false} FlattenIcaos(groups: seq<(string, seq<(string, Pirep)>)>)
    ensures forall fp :: fp in Flatten(groups) ==> exists g :: 0 <= g < |groups| && fp.icao == Upper(groups[g].0)
  {
    if groups != [] {
      var g' := groups[..|groups| - 1];
      FlattenIcaos(g');
      forall fp | fp in Flatten(groups) ensures exists g :: 0 <= g < |groups| && fp.icao == Upper(groups[g].0) {
        if fp in Flatten(g') {
          var g :| 0 <= g < |g'| && fp.icao == Upper(g'[g].0);
          assert groups[g] == g'[g];
        } else {
          assert fp.icao == Upper(groups[|groups| - 1].0);
        }
      }
    }
  }

  /** The review a kept pirep gives: `review_id` is the pirep's `id`, else the key it is filed under. */
  function ExportReview(cfg: SourceConfig, fp: FiledPirep, text: string): (r: RawReview)
    ensures r.icao == fp.icao && r.reviewText == text && r.source == SourceName
    ensures r.aiGenerated == fp.pirep.aiGenerated
    ensures r.reviewId == if fp.pirep.id.Some? then fp.pirep.id.value else VStr(fp.pirepId)
  {
    var p := fp.pirep;
    RawReview(
      fp.icao, text,
      if p.id.Some? then p.id.value else VStr(fp.pirepId),
      p.rating,
      Or(p.createdAt, p.updatedAt),
      if p.language.Some? then p.language.value else VStr(cfg.preferredLanguage),
      p.aiGenerated,
      SourceName)
  }

  /**
    One turn of the inner loop: AI-generated reports are dropped when
    filtering; a plain-string content raises AttributeError (`content.get`);
    a report whose chosen text is blank is skipped.
   */
  function PirepOutcome(cfg: SourceConfig, fp: FiledPirep): Outcome<RawReview> {
    if DroppedAsAi(cfg.filterAiGenerated, fp.pirep) then Skip
    else if fp.pirep.content.TextContent? then Raise
    else
      var text := PirepText(fp.pirep.content, cfg.preferredLanguage);
      if text == "" then Skip else Keep(ExportReview(cfg, fp, text))
  }

  /** The two loops of `_parse_reviews`. */
  function ExportLoad(cfg: SourceConfig, e: Export): Loaded<RawReview> {
    Run(Flatten(e.pireps), fp => PirepOutcome(cfg, fp))
  }

  /** A kept review has a non-empty stripped text, an upper-case ICAO, and is not AI-generated when filtering. */
  predicate WellFormedReview(cfg: SourceConfig, r: RawReview) {
    && r.reviewText != "" && Strip(r.reviewText) == r.reviewText
    && Upper(r.icao) == r.icao
    && (cfg.filterAiGenerated ==> !Truthy(r.aiGenerated))
    && r.source == SourceName
  }

  lemma PirepOutcomeWellFormed(cfg: SourceConfig, fp: FiledPirep, r: RawReview)
    requires PirepOutcome(cfg, fp) == Keep(r)
    requires Upper(fp.icao) == fp.icao
    ensures WellFormedReview(cfg, r)
    ensures r.reviewText == Strip(PickText(fp.pirep.content.entries, cfg.preferredLanguage))
  {
    StripIdempotent(PickText(fp.pirep.content.entries, cfg.preferredLanguage));
  }

  lemma ExportItemWellFormed(cfg: SourceConfig, e: Export, r: RawReview)
    requires r in ExportLoad(cfg, e).items
    ensures WellFormedReview(cfg, r)
    ensures exists g :: 0 <= g < |e.pireps| && r.icao == Upper(e.pireps[g].0)
  {
    var all := Flatten(e.pireps);
    RunMeaning(all, fp => PirepOutcome(cfg, fp));
    var i :| 0 <= i < |all| && PirepOutcome(cfg, all[i]) == Keep(r);
    FlattenIcaos(e.pireps);
    assert all[i] in all;
    var g :| 0 <= g < |e.pireps| && all[i].icao == Upper(e.pireps[g].0);
    UpperIdempotent(e.pireps[g].0);
    PirepOutcomeWellFormed(cfg, all[i], r);
  }

  /** Every review parsed from the export is well formed and filed under one of the export's ICAO keys, upper-cased. */
  lemma ExportReviewsWellFormed(cfg: SourceConfig, e: Export)
    ensures forall r :: r in ExportLoad(cfg, e).items ==>
      WellFormedReview(cfg, r) && exists g :: 0 <= g < |e.pireps| && r.icao == Upper(e.pireps[g].0)
  {
    forall r | r in ExportLoad(cfg, e).items
      ensures WellFormedReview(cfg, r) && exists g :: 0 <= g < |e.pireps| && r.icao == Upper(e.pireps[g].0)
    {
      ExportItemWellFormed(cfg, e, r);
    }
  }

  /** The fields: the loaded export, the reviews and the per-ICAO dict. */
  datatype ExportState = ExportState(
    data: Option<Export>,
    reviews: Option<seq<RawReview>>,
    reviewsByIcao: Option<map<string, seq<RawReview>>>)

  /** `_load_data`: raises without an export path or file; once loaded, the file is not read again. */
  function AfterLoadData(data: Option<Export>, cfg: SourceConfig, file: ExportFile): (r: Option<Export>)
    ensures data.Some? ==> r == data
    ensures data.None? ==> (r.Some? <==> cfg.exportPath.Some? && file.ExportJson?)
    ensures data.None? && r.Some? ==> r.value == file.contents
  {
    if data.Some? then data
    else if cfg.exportPath.None? then None
    else
      match file
      case NoExportFile => None
      case ExportJson(contents) => Some(contents)
  }

  /** The fields after `_parse_reviews`, and whether it raised. */
  datatype ParseResult = ParseResult(state: ExportState, raised: bool)

  /**
    `_parse_reviews`: nothing to do once parsed. A failed `_load_data` raises
    before any field is set, so a later call tries again; a pirep that raises
    leaves the reviews parsed before it, and those are kept.
   */
  function AfterParse(st: ExportState, cfg: SourceConfig, file: ExportFile): (r: ParseResult)
    ensures st.reviews.Some? ==> r == ParseResult(st, false)
    ensures st.reviews.None? && AfterLoadData(st.data, cfg, file).None? ==> r == ParseResult(st, true)
    ensures st.reviews.None? && AfterLoadData(st.data, cfg, file).Some? ==>
      (&& r.state.data == AfterLoadData(st.data, cfg, file)
       && r.state.reviews == Some(ExportLoad(cfg, r.state.data.value).items)
       && r.state.reviewsByIcao == Some(ReviewIndex(r.state.reviews.value))
       && r.raised == ExportLoad(cfg, r.state.data.value).raised)
  {
    if st.reviews.Some? then ParseResult(st, false)
    else
      var data := AfterLoadData(st.data, cfg, file);
      if data.None? then ParseResult(st, true)
      else
        var loaded := ExportLoad(cfg, data.value);
        ParseResult(ExportState(data, Some(loaded.items), Some(ReviewIndex(loaded.items))), loaded.raised)
  }

  /** Once parsed, later calls change nothing and do not raise, whatever the file holds by then. */
  lemma AfterParseMemoised(st: ExportState, cfg: SourceConfig, first: ExportFile, second: ExportFile)
    requires AfterParse(st, cfg, first).state.reviews.Some?
    ensures AfterParse(AfterParse(st, cfg, first).state, cfg, second) == ParseResult(AfterParse(st, cfg, first).state, false)
  {
  }

  lemma ExportStep(cfg: SourceConfig, done: seq<FiledPirep>, fp: FiledPirep)
    ensures Run(done + [fp], x => PirepOutcome(cfg, x)) == Advance(Run(done, x => PirepOutcome(cfg, x)), PirepOutcome(cfg, fp))
  {
    RunAppend(done, fp, x => PirepOutcome(cfg, x));
  }

  /** The groups up to `i` and the rest. */
  lemma FlattenSplit(groups: seq<(string, seq<(string, Pirep)>)>, i: nat)
    requires i < |groups|
    ensures Flatten(groups[..i + 1]) == Flatten(groups[..i]) + Filed(Upper(groups[i].0), groups[i].1)
    ensures Flatten(groups) == Flatten(groups[..i + 1]) + Flatten(groups[i + 1..])
  {
    FlattenStep(groups, i);
    FlattenRest(groups, i + 1);
  }

  lemma FlattenRest(groups: seq<(string, seq<(string, Pirep)>)>, i: nat)
    requires i <= |groups|
    ensures Flatten(groups) == Flatten(groups[..i]) + Flatten(groups[i..])
  {
    var a, b := groups[..i], groups[i..];
    assert a + b == groups;
    FlattenConcat(a, b);
  }

  lemma FlattenStep(groups: seq<(string, seq<(string, Pirep)>)>, i: nat)
    requires i < |groups|
    ensures Flatten(groups[..i + 1]) == Flatten(groups[..i]) + Filed(Upper(groups[i].0), groups[i].1)
  {
    var p := groups[..i + 1];
    assert p[..|p| - 1] == groups[..i];
    assert p[|p| - 1] == groups[i];
  }

  /** The inner loop's entries before and after one more report. */
  lemma FiledStep(before: seq<FiledPirep>, icao: string, entries: seq<(string, Pirep)>, j: nat)
    requires j < |entries|
    ensures before + Filed(icao, entries[..j + 1]) == (before + Filed(icao, entries[..j])) + [FiledPirep(icao, entries[j].0, entries[j].1)]
    ensures before + Filed(icao, entries) == (before + Filed(icao, entries[..j + 1])) + Filed(icao, entries[j + 1..])
  {
    var a := Filed(icao, entries[..j]);
    var b := Filed(icao, entries[..j + 1]);
    assert b == a + [FiledPirep(icao, entries[j].0, entries[j].1)];
    assert Filed(icao, entries) == b + Filed(icao, entries[j + 1..]);
  }

  lemma FiledNone(before: seq<FiledPirep>, icao: string, entries: seq<(string, Pirep)>)
    ensures before + Filed(icao, entries[..0]) == before
    ensures before + Filed(icao, entries[..|entries|]) == before + Filed(icao, entries)
  {
    assert entries[..|entries|] == entries;
  }

  /** The inner loop over one ICAO's reports, continuing the list and dict built so far. */
  method ParseGroup(cfg: SourceConfig, ghost before: seq<FiledPirep>, icao: string, entries: seq<(string, Pirep)>,
                    reviews0: seq<RawReview>, byIcao0: map<string, seq<RawReview>>)
    returns (loaded: Loaded<RawReview>, byIcao: map<string, seq<RawReview>>)
    requires Run(before, fp => PirepOutcome(cfg, fp)) == Loaded(reviews0, false)
    requires byIcao0 == ReviewIndex(reviews0)
    ensures loaded == Run(before + Filed(icao, entries), fp => PirepOutcome(cfg, fp))
    ensures byIcao == ReviewIndex(loaded.items)
  {
    var reviews := reviews0;
    byIcao := byIcao0;
    FiledNone(before, icao, entries);
    for j := 0 to |entries|
      invariant Run(before + Filed(icao, entries[..j]), fp => PirepOutcome(cfg, fp)) == Loaded(reviews, false)
      invariant byIcao == ReviewIndex(reviews)
    {
      var fp := FiledPirep(icao, entries[j].0, entries[j].1);
      ghost var done := before + Filed(icao, entries[..j]);
      FiledStep(before, icao, entries, j);
      ExportStep(cfg, done, fp);
      var outcome := PirepOutcome(cfg, fp);
      match outcome
      case Skip =>
      case Raise =>
        RunRaisedConcat(done + [fp], Filed(icao, entries[j + 1..]), fp => PirepOutcome(cfg, fp));
        loaded := Loaded(reviews, true);
        return;
      case Keep(review) =>
        ReviewIndexAppend(reviews, review);
        byIcao := AppendTo(byIcao, review.icao, review);
        reviews := reviews + [review];
    }
    loaded := Loaded(reviews, false);
  }

  /** The two loops of `_parse_reviews`, stopping at the first pirep that raises. */
  method ParsePireps(cfg: SourceConfig, groups: seq<(string, seq<(string, Pirep)>)>)
    returns (loaded: Loaded<RawReview>, byIcao: map<string, seq<RawReview>>)
    ensures loaded == Run(Flatten(groups), fp => PirepOutcome(cfg, fp))
    ensures byIcao == ReviewIndex(loaded.items)
  {
    loaded := Loaded([], false);
    byIcao := map[];
    for i := 0 to |groups|
      invariant Run(Flatten(groups[..i]), fp => PirepOutcome(cfg, fp)) == loaded && !loaded.raised
      invariant byIcao == ReviewIndex(loaded.items)
    {
      FlattenSplit(groups, i);
      loaded, byIcao := ParseGroup(cfg, Flatten(groups[..i]), Upper(groups[i].0), groups[i].1, loaded.items, byIcao);
      if loaded.raised {
        RunRaisedConcat(Flatten(groups[..i + 1]), Flatten(groups[i + 1..]), fp => PirepOutcome(cfg, fp));
        return;
      }
    }
    assert groups[..|groups|] == groups;
  }

  /** `get_airport_data`'s loop: the first airport whose `icao`, upper-cased, is the query upper-cased. */
  method FindAirport(airports: seq<ExportAirport>, icao: string) returns (found: Option<Value>)
    ensures found.None? <==> forall i :: 0 <= i < |airports| ==> Upper(airports[i].icao) != Upper(icao)
    ensures found.Some? ==> exists i :: (&& 0 <= i < |airports| && Upper(airports[i].icao) == Upper(icao)
      && found.value == airports[i].data && forall j :: 0 <= j < i ==> Upper(airports[j].icao) != Upper(icao))
  {
    for i := 0 to |airports|
      invariant forall j :: 0 <= j < i ==> Upper(airports[j].icao) != Upper(icao)
    {
      if Upper(airports[i].icao) == Upper(icao) {
        return Some(airports[i].data);
      }
    }
    return None;
  }

  class Source {
    const config: SourceConfig
    var data: Option<Export>
    var reviews: Option<seq<RawReview>>
    var reviewsByIcao: Option<map<string, seq<RawReview>>>

    function State(): ExportState
      reads this
    {
      ExportState(data, reviews, reviewsByIcao)
    }

    /** Reviews are only ever parsed from loaded data, and the per-ICAO dict agrees with them. */
    ghost predicate Valid()
      reads this
    {
      && (reviews.None? <==> reviewsByIcao.None?)
      && (reviews.Some? ==> data.Some? && reviewsByIcao.value == ReviewIndex(reviews.value))
    }

    constructor (config: SourceConfig)
      ensures Valid()
      ensures this.config == config
      ensures data.None? && reviews.None? && reviewsByIcao.None?
    {
      this.config := config;
      data := None;
      reviews := None;
      reviewsByIcao := None;
    }

    /** `_load_data`; `raised` where it raises ValueError or FileNotFoundError. */
    method LoadData(file: ExportFile) returns (raised: bool)
      requires Valid()
      modifies this
      ensures Valid()
      ensures data == AfterLoadData(old(data), config, file)
      ensures raised <==> data.None?
      ensures reviews == old(reviews) && reviewsByIcao == old(reviewsByIcao)
    {
      if data.Some? {
        return false;
      }
      if config.exportPath.None? {
        return true;
      }
      match file
      case NoExportFile =>
        raised := true;
      case ExportJson(contents) =>
        data := Some(contents);
        raised := false;
    }

    /** `_parse_reviews`; `raised` where it raises. */
    method ParseReviews(file: ExportFile) returns (raised: bool)
      requires Valid()
      modifies this
      ensures Valid()
      ensures ParseResult(State(), raised) == AfterParse(old(State()), config, file)
    {
      if reviews.Some? {
        return false;
      }
      raised := LoadData(file);
      if raised {
        return;
      }
      var loaded, byIcao := ParsePireps(config, data.value.pireps);
      reviews := Some(loaded.items);
      reviewsByIcao := Some(byIcao);
      raised := loaded.raised;
    }

    /** `get_reviews`: None where parsing raises. */
    method GetReviews(file: ExportFile) returns (result: Option<seq<RawReview>>)
      requires Valid()
      modifies this
      ensures Valid()
      ensures State() == AfterParse(old(State()), config, file).state
      ensures result.None? <==> AfterParse(old(State()), config, file).raised
      ensures result.Some? ==> result == reviews
    {
      var raised := ParseReviews(file);
      if raised {
        return None;
      }
      result := reviews;
    }

    /** `get_reviews_for_icao`: the query is upper-cased before the lookup; an unknown ICAO gives []. */
    method GetReviewsForIcao(file: ExportFile, icao: string) returns (result: Option<seq<RawReview>>)
      requires Valid()
      modifies this
      ensures Valid()
      ensures State() == AfterParse(old(State()), config, file).state
      ensures result.None? <==> AfterParse(old(State()), config, file).raised
      ensures result.Some? ==> result.value == Bucket(reviews.value, IcaoOf, Upper(icao))
    {
      var raised := ParseReviews(file);
      if raised {
        return None;
      }
      ReviewIndexMeaning(reviews.value);
      result := Some(BucketOf(reviewsByIcao.value, Upper(icao)));
    }

    /** `get_icaos`: the ICAO codes that have a review. */
    method GetIcaos(file: ExportFile) returns (result: Option<set<string>>)
      requires Valid()
      modifies this
      ensures Valid()
      ensures State() == AfterParse(old(State()), config, file).state
      ensures result.None? <==> AfterParse(old(State()), config, file).raised
      ensures result.Some? ==> forall k :: k in result.value <==> exists i :: 0 <= i < |reviews.value| && reviews.value[i].icao == k
    {
      var raised := ParseReviews(file);
      if raised {
        return None;
      }
      forall k {
        ReviewIndexKeys(reviews.value, k);
      }
      result := Some(reviewsByIcao.value.Keys);
    }

    /** `get_airport_data`: loads the export only; `raised` where that raises. */
    method GetAirportData(file: ExportFile, icao: string) returns (raised: bool, airport: Option<Value>)
      requires Valid()
      modifies this
      ensures Valid()
      ensures data == AfterLoadData(old(data), config, file)
      ensures reviews == old(reviews) && reviewsByIcao == old(reviewsByIcao)
      ensures raised <==> data.None?
      ensures raised ==> airport.None?
      ensures !raised ==> (airport.None? <==> forall i :: 0 <= i < |data.value.airports| ==> Upper(data.value.airports[i].icao) != Upper(icao))
      ensures !raised && airport.Some? ==> exists i :: (&& 0 <= i < |data.value.airports|
        && Upper(data.value.airports[i].icao) == Upper(icao) && airport.value == data.value.airports[i].data)
    {
      raised := LoadData(file);
      if raised {
        return true, None;
      }
      airport := FindAirport(data.value.airports, icao);
    }
  }
}
