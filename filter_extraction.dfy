/**
  The filter-extraction evaluators: how many of the filters a test case
  expects the planner extracted with the right value (strings compared
  without surrounding spaces and case), and whether it extracted every
  expected filter at all.
 */
module FilterExtraction {
  import opened Wrappers
  import opened PyStr
  import opened PyValue
  import opened Airports
  import opened StrOrder
  import opened EvalRuns

  /** `normalize_filter_value(v)`: a string stripped and uppercased, anything else as it is. */
  function Normalize(v: Value): (r: Value)
    ensures !v.VStr? ==> r == v
    ensures v.VStr? ==> r.VStr? && |r.s| <= |v.s|
  {
    if v.VStr? then VStr(Upper(Strip(v.s))) else v
  }

  /** Normalizing twice changes nothing more. */
  lemma NormalizeIdempotent(v: Value)
    ensures Normalize(Normalize(v)) == Normalize(v)
  {
    if v.VStr? {
      StripUpperStable(v.s);
    }
  }

  /** The letter case and the surrounding spaces of a string do not matter. */
  lemma NormalizeIgnoresCaseAndSpaces(s: string)
    ensures Normalize(VStr(Upper(s))) == Normalize(VStr(s))
    ensures Normalize(VStr(Strip(s))) == Normalize(VStr(s))
  {
    UpperStripCommute(s);
    UpperIdempotent(Strip(s));
    StripIdempotent(s);
  }

  /** How one expected filter fares: not extracted, extracted with the expected value, or with another. */
  datatype Outcome = NotExtracted | Right | Wrong(note: string)

  /** The outcome of one expected filter; it is missing exactly when the plan lacks its key. */
  function Classify(key: string, expectedValue: Value, actual: Dict): (o: Outcome)
    ensures o.NotExtracted? <==> !HasKey(actual, key)
  {
    if !HasKey(actual, key) then NotExtracted
    else
      var actualValue := Get(actual, key, VNone);
      if PyEq(Normalize(actualValue), Normalize(expectedValue)) then Right
      else Wrong(key + ": expected " + Str(expectedValue) + ", got " + Str(actualValue))
  }

  /** `missing_filters`, `incorrect_filters` and `correct_count` after the loop. */
  datatype Tally = Tally(missing: seq<string>, incorrect: seq<string>, correct: nat)

  function Step(t: Tally, o: Outcome, key: string): Tally {
    match o
    case NotExtracted => t.(missing := t.missing + [key])
    case Right => t.(correct := t.correct + 1)
    case Wrong(note) => t.(incorrect := t.incorrect + [note])
  }

  /** The loop over the expected filters, each classified by `classify`. */
  function TallyWith(expected: Dict, classify: (string, Value) -> Outcome): Tally {
    if expected == [] then Tally([], [], 0)
    else
      var e := expected[|expected| - 1];
      Step(TallyWith(expected[..|expected| - 1], classify), classify(e.0, e.1), e.0)
  }

  function TallyOf(expected: Dict, actual: Dict): Tally {
    TallyWith(expected, (k, v) => Classify(k, v, actual))
  }

  lemma {:induction false} TallyWithPartition(expected: Dict, classify: (string, Value) -> Outcome, actual: Dict)
    requires forall k, v :: classify(k, v).NotExtracted? <==> !HasKey(actual, k)
    ensures var t := TallyWith(expected, classify);
      |t.missing| + |t.incorrect| + t.correct == |expected|
    ensures forall k :: k in TallyWith(expected, classify).missing <==>
      exists i :: 0 <= i < |expected| && expected[i].0 == k && !HasKey(actual, k)
  {
    if expected != [] {
      var p := expected[..|expected| - 1];
      TallyWithPartition(p, classify, actual);
      assert forall i :: 0 <= i < |p| ==> p[i] == expected[i];
      var e := expected[|expected| - 1];
      var k := e.0;
      var t := TallyWith(p, classify);
      assert TallyWith(expected, classify).missing == t.missing + (if !HasKey(actual, k) then [k] else []);
      forall k' ensures k' in TallyWith(expected, classify).missing <==>
        exists i :: 0 <= i < |expected| && expected[i].0 == k' && !HasKey(actual, k')
      {
        if k' == k && !HasKey(actual, k) {
          assert expected[|expected| - 1].0 == k';
        }
        if exists i :: 0 <= i < |expected| && expected[i].0 == k' && !HasKey(actual, k') {
          var i :| 0 <= i < |expected| && expected[i].0 == k' && !HasKey(actual, k');
          if i < |p| {
            assert p[i].0 == k';
          }
        }
      }
    }
  }

  /**
    Each expected filter is counted exactly once, as missing, correct or
    incorrect, and the missing ones are exactly the expected keys the plan
    lacks.
   */
  lemma TallyPartition(expected: Dict, actual: Dict)
    ensures var t := TallyOf(expected, actual);
      |t.missing| + |t.incorrect| + t.correct == |expected|
    ensures forall k :: k in TallyOf(expected, actual).missing <==>
      exists i :: 0 <= i < |expected| && expected[i].0 == k && !HasKey(actual, k)
  {
    TallyWithPartition(expected, (k, v) => Classify(k, v, actual), actual);
  }

  /** All filters right means no expected key is missing from the plan. */
  lemma AllRightNothingMissing(expected: Dict, actual: Dict)
    requires TallyOf(expected, actual).correct == |expected|
    ensures forall i :: 0 <= i < |expected| ==> HasKey(actual, expected[i].0)
  {
    TallyPartition(expected, actual);
    var t := TallyOf(expected, actual);
    assert t.missing == [];
    forall i | 0 <= i < |expected| ensures HasKey(actual, expected[i].0) {
      assert expected[i].0 !in t.missing;
    }
  }

  lemma TallyStep(expected: Dict, actual: Dict, i: nat)
    requires i < |expected|
    ensures TallyOf(expected[..i + 1], actual) ==
      Step(TallyOf(expected[..i], actual), Classify(expected[i].0, expected[i].1, actual), expected[i].0)
  {
    assert expected[..i + 1][..i] == expected[..i];
  }

  /** The comparison loop of `evaluate_filter_extraction`. */
  method CompareFilters(expected: Dict, actual: Dict) returns (missing: seq<string>, incorrect: seq<string>, correct: nat)
    ensures Tally(missing, incorrect, correct) == TallyOf(expected, actual)
  {
    missing, incorrect, correct := [], [], 0;
    var i := 0;
    while i < |expected|
      invariant 0 <= i <= |expected|
      invariant Tally(missing, incorrect, correct) == TallyOf(expected[..i], actual)
    {
      TallyStep(expected, actual, i);
      var (key, expectedValue) := expected[i];
      if !HasKey(actual, key) {
        missing := missing + [key];
      } else {
        var actualValue := Get(actual, key, VNone);
        if PyEq(Normalize(actualValue), Normalize(expectedValue)) {
          correct := correct + 1;
        } else {
          incorrect := incorrect + [key + ": expected " + Str(expectedValue) + ", got " + Str(actualValue)];
        }
      }
      i := i + 1;
    }
    assert expected[..i] == expected;
  }

  /** `correct_count / total_expected`, or 0.0 with nothing expected. */
  function ExtractionScore(t: Tally, total: nat): real {
    if total > 0 then t.correct as real / total as real else 0.0
  }

  function ExtractionComment(t: Tally, total: nat): string {
    var parts :=
      (if t.correct > 0 then [NatToString(t.correct) + "/" + NatToString(total) + " filters correct"] else []) +
      (if t.missing != [] then ["Missing: " + Join(t.missing, ", ")] else []) +
      (if t.incorrect != [] then ["Incorrect: " + Join(t.incorrect, "; ")] else []);
    if parts == [] then "All filters correct \U{2713}" else Join(parts, " | ")
  }

  /** `plan.arguments.get("filters", {})`: the arguments must be a dict, the filters may be any value. */
  function FilterValue(plan: Plan): Query<Value> {
    var args := PlanField(plan, "arguments", VDict([]));
    if !args.VDict? then Raises
    else Found(Get(args.entries, "filters", VDict([])))
  }

  /** The filters as a dict, as `.keys()` needs them. */
  function ActualFilters(plan: Plan): (r: Query<Dict>)
    ensures r.Found? <==> FilterValue(plan).Found? && FilterValue(plan).value.VDict?
  {
    match FilterValue(plan)
    case Raises => Raises
    case Found(filters) => if filters.VDict? then Found(filters.entries) else Raises
  }

  /**
    `key in filters`: a dict's keys, a list's items, a string's substrings;
    None where `in` raises (None, a number, a boolean).
   */
  function FilterIn(key: string, filters: Value): Option<bool> {
    match filters
    case VDict(e) => Some(HasKey(e, key))
    case VList(items) => Some(VStr(key) in items)
    case VStr(t) => Some(Contains(t, key))
    case _ => None
  }

  /**
    The filters the comparison loop sees, for a non-empty `expected`. A dict
    is used as it is. A list or a string that holds no expected key makes
    every expected filter missing, exactly as an empty dict does; one that
    holds a key raises at `actual_filters[key]`, and `in` raises on any
    other value.
   */
  function LoopFilters(filters: Value, expected: Dict): (r: Query<Dict>)
    ensures filters.VDict? ==> r == Found(filters.entries)
    ensures r.Found? && !filters.VDict? ==> r.value == []
    ensures !filters.VDict? ==> (r.Found? <==>
      forall i :: 0 <= i < |expected| ==> FilterIn(expected[i].0, filters) == Some(false))
  {
    if filters.VDict? then Found(filters.entries)
    else if forall i :: 0 <= i < |expected| ==> FilterIn(expected[i].0, filters) == Some(false) then Found([])
    else Raises
  }

  /** `expected.get("filters", {})` of the example. */
  function ExpectedFilters(example: Dict): Query<Value> {
    match ExpectedOf(example)
    case Raises => Raises
    case Found(expected) => Found(Get(expected, "filters", VDict([])))
  }

  /** `evaluate_filter_extraction(run, example)`; `errorText` is the text of an exception. */
  function FilterExtractionSpec(run: Run, example: Dict, errorText: string): Evaluation {
    var err := Evaluation("filter_extraction", Some(0.0), "Evaluation error: " + errorText);
    if !HasPlan(run.plan) then Evaluation("filter_extraction", Some(0.0), "No plan found")
    else
      match (FilterValue(run.plan), ExpectedFilters(example))
      case (Raises, _) => err
      case (_, Raises) => err
      case (Found(filters), Found(ef)) =>
        if !Truthy(ef) then Evaluation("filter_extraction", None, "No expected filters defined for this test case")
        else if !ef.VDict? then err
        else
          match LoopFilters(filters, ef.entries)
          case Raises => err
          case Found(actual) =>
            var t := TallyOf(ef.entries, actual);
            Evaluation("filter_extraction", Some(ExtractionScore(t, |ef.entries|)), ExtractionComment(t, |ef.entries|))
  }

  /** `evaluate_filter_extraction(run, example)`, running the comparison loop. */
  method EvaluateFilterExtraction(run: Run, example: Dict, errorText: string) returns (r: Evaluation)
    ensures r == FilterExtractionSpec(run, example, errorText)
  {
    var err := Evaluation("filter_extraction", Some(0.0), "Evaluation error: " + errorText);
    if !HasPlan(run.plan) {
      return Evaluation("filter_extraction", Some(0.0), "No plan found");
    }
    var filters := FilterValue(run.plan);
    var ef := ExpectedFilters(example);
    if filters.Raises? || ef.Raises? {
      return err;
    }
    if !Truthy(ef.value) {
      return Evaluation("filter_extraction", None, "No expected filters defined for this test case");
    }
    if !ef.value.VDict? {
      return err;
    }
    var actual := LoopFilters(filters.value, ef.value.entries);
    if actual.Raises? {
      return err;
    }
    var missing, incorrect, correct := CompareFilters(ef.value.entries, actual.value);
    var t := Tally(missing, incorrect, correct);
    var total := |ef.value.entries|;
    return Evaluation("filter_extraction", Some(ExtractionScore(t, total)), ExtractionComment(t, total));
  }

  /**
    No plan scores 0, and a case without expected filters scores None
    whatever the plan's filters are; any other score is the share of
    expected filters extracted right, in [0, 1].
   */
  lemma ExtractionScoreRange(run: Run, example: Dict, errorText: string)
    ensures var r := FilterExtractionSpec(run, example, errorText);
      && (!HasPlan(run.plan) ==> r.score == Some(0.0))
      && ((HasPlan(run.plan) && FilterValue(run.plan).Found? && ExpectedFilters(example).Found? &&
           !Truthy(ExpectedFilters(example).value)) ==> r.score.None?)
      && (r.score.Some? ==> 0.0 <= r.score.value <= 1.0)
  {
    if HasPlan(run.plan) && FilterValue(run.plan).Found? && ExpectedFilters(example).Found? {
      var ef := ExpectedFilters(example).value;
      if Truthy(ef) && ef.VDict? {
        var actual := LoopFilters(FilterValue(run.plan).value, ef.entries);
        if actual.Found? {
          TallyPartition(ef.entries, actual.value);
          var t := TallyOf(ef.entries, actual.value);
          if |ef.entries| > 0 {
            Ratio(t.correct, |ef.entries|);
          }
        }
      }
    }
  }

  /**
    Filters that are a list or a string holding none of the expected keys
    leave every expected filter missing, so the score is 0.
   */
  lemma NonDictFiltersMissing(run: Run, example: Dict, errorText: string)
    requires HasPlan(run.plan) && FilterValue(run.plan).Found? && ExpectedFilters(example).Found?
    requires var ef := ExpectedFilters(example).value;
      Truthy(ef) && ef.VDict? && !FilterValue(run.plan).value.VDict? &&
      forall i :: 0 <= i < |ef.entries| ==> FilterIn(ef.entries[i].0, FilterValue(run.plan).value) == Some(false)
    ensures var ef := ExpectedFilters(example).value.entries;
      && TallyOf(ef, []).missing == KeysOf(ef)
      && FilterExtractionSpec(run, example, errorText).score == Some(0.0)
  {
    var ef := ExpectedFilters(example).value.entries;
    AllMissing(ef);
  }

  /** The expected keys, in order. */
  function KeysOf(d: Dict): (r: seq<string>)
    ensures |r| == |d|
  {
    if d == [] then [] else KeysOf(d[..|d| - 1]) + [d[|d| - 1].0]
  }

  /** Against no filters at all, every expected key is missing and none is correct. */
  lemma {:induction false} AllMissing(expected: Dict)
    ensures TallyOf(expected, []).missing == KeysOf(expected)
    ensures TallyOf(expected, []).correct == 0
    ensures TallyOf(expected, []).incorrect == []
  {
    if expected != [] {
      AllMissing(expected[..|expected| - 1]);
    }
  }

  // ----------------------------------------------------------- completeness

  /** The keys of `actual` that `expected` does not have, each once, in first-appearance order. */
  function ExtraKeys(actual: Dict, expected: Dict): (r: seq<string>)
    ensures forall k :: k in r <==> HasKey(actual, k) && !HasKey(expected, k)
  {
    if actual == [] then []
    else
      var p := ExtraKeys(actual[..|actual| - 1], expected);
      var k := actual[|actual| - 1].0;
      assert forall k' :: HasKey(actual, k') <==> HasKey(actual[..|actual| - 1], k') || k' == k by {
        assert forall i :: 0 <= i < |actual| - 1 ==> actual[..|actual| - 1][i] == actual[i];
      }
      if !HasKey(expected, k) && k !in p then p + [k] else p
  }

  /** `evaluate_filter_completeness(run, example)`; the extra keys are listed in sorted order. */
  function FilterCompleteness(run: Run, example: Dict, errorText: string): Evaluation {
    var err := Evaluation("filter_completeness", Some(0.0), "Error: " + errorText);
    if !HasPlan(run.plan) then Evaluation("filter_completeness", Some(0.0), "No plan")
    else
      match (ActualFilters(run.plan), ExpectedFilters(example))
      case (Raises, _) => err
      case (_, Raises) => err
      case (Found(actual), Found(ef)) =>
        if !ef.VDict? then err
        else if ef.entries == [] then Evaluation("filter_completeness", None, "No expected filters")
        else
          var extra := SortStrings(ExtraKeys(actual, ef.entries));
          var hasAll := forall i :: 0 <= i < |ef.entries| ==> HasKey(actual, ef.entries[i].0);
          var comment := (if hasAll then "Complete \U{2713}" else "Missing some filters") +
            (if extra != [] then " (Extra filters: " + Join(extra, ", ") + ")" else "");
          Evaluation("filter_completeness", Some(if hasAll then 1.0 else 0.0), comment)
  }

  /**
    With expected filters, completeness is 1 exactly when every expected key
    is extracted, whatever else the plan extracted.
   */
  lemma CompletenessMeaning(run: Run, example: Dict, errorText: string)
    requires HasPlan(run.plan)
    requires ActualFilters(run.plan).Found? && ExpectedFilters(example).Found?
    requires ExpectedFilters(example).value.VDict? && ExpectedFilters(example).value.entries != []
    ensures var ef := ExpectedFilters(example).value.entries;
      var actual := ActualFilters(run.plan).value;
      FilterCompleteness(run, example, errorText).score ==
        Some(if forall i :: 0 <= i < |ef| ==> HasKey(actual, ef[i].0) then 1.0 else 0.0)
  {
  }

  /** A plan that gets every expected filter right is complete. */
  lemma ExtractionImpliesCompleteness(run: Run, example: Dict, errorText: string)
    requires FilterExtractionSpec(run, example, errorText).score == Some(1.0)
    ensures FilterCompleteness(run, example, errorText).score == Some(1.0)
  {
    var ef := ExpectedFilters(example).value;
    var actual := LoopFilters(FilterValue(run.plan).value, ef.entries).value;
    var t := TallyOf(ef.entries, actual);
    assert ExtractionScore(t, |ef.entries|) == 1.0;
    assert t.correct == |ef.entries| by {
      TallyPartition(ef.entries, actual);
      Ratio(t.correct, |ef.entries|);
    }
    AllRightNothingMissing(ef.entries, actual);
    assert HasKey(actual, ef.entries[0].0);
  }
}
