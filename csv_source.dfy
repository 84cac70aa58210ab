/**
  `CSVReviewSource`: reviews read from the rows of a CSV file, one review per
  row that has both an ICAO code and a review text. Loading happens once, on
  the first query; the two lists it fills are kept for every later query,
  including when the load stopped with an exception part-way through.
 */
module CsvSource {
  import opened Wrappers
  import opened PyStr
  import opened PyValue
  import opened Buckets
  import opened ReviewModel

  /**
    A row as `csv.DictReader` yields it: column name to cell text, with None
    for the cells a short row lacks (the reader's `restval`).
   */
  type Row = map<string, Option<string>>

  /** The CSV file: rows, or a file `open` fails on (it raises). */
  datatype CsvFile = Unreadable | Rows(rows: seq<Row>)

  /** The constructor's column names (None or "" switches an optional column off) and source name. */
  datatype CsvConfig = CsvConfig(
    icaoColumn: string,
    textColumn: string,
    reviewIdColumn: Option<string>,
    ratingColumn: Option<string>,
    timestampColumn: Option<string>,
    languageColumn: Option<string>,
    sourceName: string)

  const DefaultConfig: CsvConfig :=
    CsvConfig("icao", "review_text", Some("review_id"), Some("rating"), Some("timestamp"), Some("language"), "csv")

  /** `row.get(column, "")`: None for a short row's missing cell. */
  function Cell(row: Row, column: string): (c: Option<string>)
    ensures c.None? <==> column in row && row[column].None?
  {
    if column in row then row[column] else Some("")
  }

  /** The cell's text, "" where it is None. */
  function CellText(row: Row, column: string): string {
    Cell(row, column).GetOr("")
  }

  /** The ICAO or the text cell is None, so its `.strip()` raises AttributeError. */
  predicate NullCell(cfg: CsvConfig, row: Row) {
    Cell(row, cfg.icaoColumn).None? || Cell(row, cfg.textColumn).None?
  }

  /** `row.get(column) if column else None` */
  function OptionalCell(row: Row, column: Option<string>): (v: Value)
    ensures v.VNone? || v.VStr?
    ensures v.VStr? <==> column.Some? && column.value != "" && column.value in row && row[column.value].Some?
  {
    if column.Some? && column.value != "" && column.value in row && row[column.value].Some? then
      VStr(row[column.value].value)
    else VNone
  }

  /** `row.get(icao_column, "").strip().upper()`, where the cell is not None. */
  function RowIcao(cfg: CsvConfig, row: Row): string {
    Upper(Strip(CellText(row, cfg.icaoColumn)))
  }

  /** `row.get(text_column, "").strip()`, where the cell is not None. */
  function RowText(cfg: CsvConfig, row: Row): string {
    Strip(CellText(row, cfg.textColumn))
  }

  /** `row.get(rating_column)` when the column is set, "" otherwise; only a non-empty one is converted. */
  function RatingCell(cfg: CsvConfig, row: Row): (t: string)
    ensures t != "" <==> Truthy(OptionalCell(row, cfg.ratingColumn))
  {
    var v := OptionalCell(row, cfg.ratingColumn);
    if v.VStr? then v.s else ""
  }

  /** A rating cell `float()` rejects: converting it raises ValueError. */
  predicate BadRating(cfg: CsvConfig, row: Row) {
    RatingCell(cfg, row) != "" && ParseFloat(RatingCell(cfg, row)).None?
  }

  /** The review a complete row gives: its ICAO, text and source, the optional cells, and the converted rating. */
  function RowReview(cfg: CsvConfig, row: Row): (r: RawReview)
    ensures r.icao == RowIcao(cfg, row) && r.reviewText == RowText(cfg, row) && r.source == cfg.sourceName
    ensures r.reviewId == OptionalCell(row, cfg.reviewIdColumn) && r.aiGenerated == VBool(false)
    ensures RatingCell(cfg, row) == "" ==> r.rating == VNone
    ensures RatingCell(cfg, row) != "" && !BadRating(cfg, row) ==> r.rating == VFloat(ParseFloat(RatingCell(cfg, row)).value)
  {
    var rating := if RatingCell(cfg, row) != "" then ParseFloat(RatingCell(cfg, row)) else None;
    RawReview(
      RowIcao(cfg, row), RowText(cfg, row),
      OptionalCell(row, cfg.reviewIdColumn),
      if rating.Some? then VFloat(rating.value) else VNone,
      OptionalCell(row, cfg.timestampColumn),
      OptionalCell(row, cfg.languageColumn),
      VBool(false),
      cfg.sourceName)
  }

  /**
    One turn of the row loop: a None ICAO or text cell raises AttributeError;
    otherwise a row without ICAO or text is skipped, a row whose rating cell
    is non-empty but not a number raises ValueError, and any other row
    becomes a review.
   */
  function RowOutcome(cfg: CsvConfig, row: Row): Outcome<RawReview> {
    if NullCell(cfg, row) then Raise
    else if RowIcao(cfg, row) == "" || RowText(cfg, row) == "" then Skip
    else if BadRating(cfg, row) then Raise
    else Keep(RowReview(cfg, row))
  }

  /** Which rows are skipped, which raise, and what a kept row's review holds. */
  lemma RowOutcomeMeaning(cfg: CsvConfig, row: Row)
    ensures RowOutcome(cfg, row).Skip? <==>
      !NullCell(cfg, row) && (RowIcao(cfg, row) == "" || RowText(cfg, row) == "")
    ensures RowOutcome(cfg, row).Raise? <==>
      NullCell(cfg, row) || (RowIcao(cfg, row) != "" && RowText(cfg, row) != "" && BadRating(cfg, row))
    ensures RowOutcome(cfg, row).Keep? ==>
      !NullCell(cfg, row) && RowOutcome(cfg, row).value == RowReview(cfg, row)
  {
  }

  /** The row loop of `_load_reviews`. */
  function CsvLoad(cfg: CsvConfig, rows: seq<Row>): Loaded<RawReview> {
    Run(rows, row => RowOutcome(cfg, row))
  }

  /** One more row of the loop. */
  lemma CsvLoadStep(cfg: CsvConfig, rows: seq<Row>, i: nat)
    requires i < |rows|
    ensures CsvLoad(cfg, rows[..i + 1]) == Advance(CsvLoad(cfg, rows[..i]), RowOutcome(cfg, rows[i]))
  {
    assert rows[..i + 1] == rows[..i] + [rows[i]];
    RunAppend(rows[..i], rows[i], row => RowOutcome(cfg, row));
  }

  predicate WellFormedReview(cfg: CsvConfig, r: RawReview) {
    && r.icao != "" && Strip(r.icao) == r.icao && Upper(r.icao) == r.icao
    && r.reviewText != "" && Strip(r.reviewText) == r.reviewText
    && r.source == cfg.sourceName
  }

  lemma RowReviewWellFormed(cfg: CsvConfig, row: Row)
    requires RowIcao(cfg, row) != "" && RowText(cfg, row) != ""
    ensures WellFormedReview(cfg, RowReview(cfg, row))
  {
    StripUpperStable(CellText(row, cfg.icaoColumn));
    StripIdempotent(CellText(row, cfg.textColumn));
  }

  /** Every review the loader keeps has a non-empty, stripped, upper-case ICAO and a non-empty stripped text. */
  lemma CsvReviewsWellFormed(cfg: CsvConfig, rows: seq<Row>)
    ensures forall r :: r in CsvLoad(cfg, rows).items ==> WellFormedReview(cfg, r)
  {
    RunMeaning(rows, row => RowOutcome(cfg, row));
    forall r | r in CsvLoad(cfg, rows).items ensures WellFormedReview(cfg, r) {
      var i :| 0 <= i < |rows| && RowOutcome(cfg, rows[i]) == Keep(r);
      RowOutcomeMeaning(cfg, rows[i]);
      RowReviewWellFormed(cfg, rows[i]);
    }
  }

  /** When the load does not raise, every row with an ICAO and a text gives a review. */
  lemma CsvKeepsEveryCompleteRow(cfg: CsvConfig, rows: seq<Row>, i: int)
    requires 0 <= i < |rows| && RowIcao(cfg, rows[i]) != "" && RowText(cfg, rows[i]) != ""
    requires !CsvLoad(cfg, rows).raised
    ensures exists r :: r in CsvLoad(cfg, rows).items && r.icao == RowIcao(cfg, rows[i]) && r.reviewText == RowText(cfg, rows[i])
  {
    RunMeaning(rows, row => RowOutcome(cfg, row));
    RowOutcomeMeaning(cfg, rows[i]);
    assert !RowOutcome(cfg, rows[i]).Raise?;
    var r := RowOutcome(cfg, rows[i]).value;
    assert r in CsvLoad(cfg, rows).items;
  }

  /**
    A short row whose ICAO or text cell is None makes the load raise,
    whatever the other rows hold.
   */
  lemma ShortRowRaises(cfg: CsvConfig, rows: seq<Row>, i: int)
    requires 0 <= i < |rows| && NullCell(cfg, rows[i])
    ensures CsvLoad(cfg, rows).raised
  {
    RunMeaning(rows, row => RowOutcome(cfg, row));
    assert RowOutcome(cfg, rows[i]).Raise?;
  }

  /** The two fields the loader sets; both None before the first load. */
  datatype CsvState = CsvState(reviews: Option<seq<RawReview>>, reviewsByIcao: Option<map<string, seq<RawReview>>>)

  /** The fields after `_load_reviews`, and whether it raised. */
  datatype CsvLoadResult = CsvLoadResult(state: CsvState, raised: bool)

  /**
    `_load_reviews`: nothing to do once loaded. Otherwise both fields are set
    before the file is opened, so an unreadable file leaves them empty, and a
    None ICAO or text cell or a bad rating leaves the reviews of the rows
    before it; either way the next call finds them set and does not read
    again.
   */
  function AfterLoad(st: CsvState, cfg: CsvConfig, file: CsvFile): (r: CsvLoadResult)
    ensures st.reviews.Some? ==> r == CsvLoadResult(st, false)
    ensures st.reviews.None? ==>
      && r.state.reviews.Some?
      && r.state.reviewsByIcao == Some(ReviewIndex(r.state.reviews.value))
    ensures st.reviews.None? && file.Unreadable? ==> r == CsvLoadResult(CsvState(Some([]), Some(map[])), true)
    ensures st.reviews.None? && file.Rows? ==>
      r.state.reviews == Some(CsvLoad(cfg, file.rows).items) && r.raised == CsvLoad(cfg, file.rows).raised
  {
    if st.reviews.Some? then CsvLoadResult(st, false)
    else
      match file
      case Unreadable => CsvLoadResult(CsvState(Some([]), Some(map[])), true)
      case Rows(rows) =>
        var loaded := CsvLoad(cfg, rows);
        CsvLoadResult(CsvState(Some(loaded.items), Some(ReviewIndex(loaded.items))), loaded.raised)
  }

  /** Loading is memoised: a second load, whatever the file holds by then, changes nothing and never raises. */
  lemma AfterLoadMemoised(st: CsvState, cfg: CsvConfig, first: CsvFile, second: CsvFile)
    ensures AfterLoad(AfterLoad(st, cfg, first).state, cfg, second) == CsvLoadResult(AfterLoad(st, cfg, first).state, false)
  {
  }

  /** The row loop, appending each kept review to the list and to its ICAO's list, stopping at an exception. */
  method LoadRows(cfg: CsvConfig, rows: seq<Row>) returns (loaded: Loaded<RawReview>, byIcao: map<string, seq<RawReview>>)
    ensures loaded == CsvLoad(cfg, rows)
    ensures byIcao == ReviewIndex(loaded.items)
  {
    var reviews: seq<RawReview> := [];
    byIcao := map[];
    for i := 0 to |rows|
      invariant CsvLoad(cfg, rows[..i]) == Loaded(reviews, false)
      invariant byIcao == ReviewIndex(reviews)
    {
      CsvLoadStep(cfg, rows, i);
      var outcome := RowOutcome(cfg, rows[i]);
      match outcome
      case Skip =>
      case Raise =>
        assert CsvLoad(cfg, rows[..i + 1]).raised;
        RunAfterRaise(rows, row => RowOutcome(cfg, row), i + 1);
        loaded := Loaded(reviews, true);
        return;
      case Keep(review) =>
        ReviewIndexAppend(reviews, review);
        byIcao := AppendTo(byIcao, review.icao, review);
        reviews := reviews + [review];
    }
    assert rows[..|rows|] == rows;
    loaded := Loaded(reviews, false);
  }

  class CsvReviewSource {
    const config: CsvConfig
    var reviews: Option<seq<RawReview>>
    var reviewsByIcao: Option<map<string, seq<RawReview>>>

    function State(): CsvState
      reads this
    {
      CsvState(reviews, reviewsByIcao)
    }

    /** The per-ICAO dict is set with the review list and always agrees with it. */
    ghost predicate Valid()
      reads this
    {
      && (reviews.None? <==> reviewsByIcao.None?)
      && (reviews.Some? ==> reviewsByIcao.value == ReviewIndex(reviews.value))
    }

    constructor (config: CsvConfig)
      ensures Valid()
      ensures this.config == config
      ensures reviews.None? && reviewsByIcao.None?
    {
      this.config := config;
      reviews := None;
      reviewsByIcao := None;
    }

    /** `_load_reviews`; `raised` is true where it raises. */
    method LoadReviews(file: CsvFile) returns (raised: bool)
      requires Valid()
      modifies this
      ensures Valid()
      ensures CsvLoadResult(State(), raised) == AfterLoad(old(State()), config, file)
    {
      if reviews.Some? {
        return false;
      }
      reviews := Some([]);
      reviewsByIcao := Some(map[]);
      match file
      case Unreadable =>
        raised := true;
      case Rows(rows) =>
        var loaded, byIcao := LoadRows(config, rows);
        reviews := Some(loaded.items);
        reviewsByIcao := Some(byIcao);
        raised := loaded.raised;
    }

    /** `get_reviews`: the loaded reviews, None where the load raises. */
    method GetReviews(file: CsvFile) returns (result: Option<seq<RawReview>>)
      requires Valid()
      modifies this
      ensures Valid()
      ensures State() == AfterLoad(old(State()), config, file).state
      ensures result.None? <==> AfterLoad(old(State()), config, file).raised
      ensures result.Some? ==> result.value == reviews.value
    {
      var raised := LoadReviews(file);
      if raised {
        return None;
      }
      result := Some(reviews.value);
    }

    /** `get_reviews_for_icao`: the query is upper-cased before the lookup; an unknown ICAO gives []. */
    method GetReviewsForIcao(file: CsvFile, icao: string) returns (result: Option<seq<RawReview>>)
      requires Valid()
      modifies this
      ensures Valid()
      ensures State() == AfterLoad(old(State()), config, file).state
      ensures result.None? <==> AfterLoad(old(State()), config, file).raised
      ensures result.Some? ==> result.value == Bucket(reviews.value, IcaoOf, Upper(icao))
    {
      var raised := LoadReviews(file);
      if raised {
        return None;
      }
      ReviewIndexMeaning(reviews.value);
      result := Some(BucketOf(reviewsByIcao.value, Upper(icao)));
    }

    /** `get_icaos`: the ICAO codes that have a review. */
    method GetIcaos(file: CsvFile) returns (result: Option<set<string>>)
      requires Valid()
      modifies this
      ensures Valid()
      ensures State() == AfterLoad(old(State()), config, file).state
      ensures result.None? <==> AfterLoad(old(State()), config, file).raised
      ensures result.Some? ==> forall k :: k in result.value <==> exists i :: 0 <= i < |reviews.value| && reviews.value[i].icao == k
    {
      var raised := LoadReviews(file);
      if raised {
        return None;
      }
      forall k {
        ReviewIndexKeys(reviews.value, k);
      }
      result := Some(reviewsByIcao.value.Keys);
    }

    /** `get_source_name` */
    function SourceName(): (name: string)
      ensures name == config.sourceName
    {
      config.sourceName
    }
  }
}
