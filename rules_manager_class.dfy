/**
  The `RulesManager` object: the path of its rules file, the loaded rules,
  their index and the `loaded` flag, which `load_rules` and `_build_index`
  update in place. Every query loads the file first when nothing has been
  loaded yet. The file is a parameter: what reading and parsing the JSON
  at the manager's path yields.
 */
module RulesManagerClass {
  import opened Wrappers
  import opened Seqs
  import opened PyStr
  import opened Buckets
  import opened StrOrder
  import opened Rules
  import opened RulesDisplay

  /** The rules file as `load_rules` finds it. */
  datatype RulesFile =
    | Missing                            // the path does not exist
    | Unreadable                         // opening or parsing raises
    | ListOf(items: seq<Rule>)           // a JSON list of rules
    | QuestionsOf(questions: seq<Rule>)  // a JSON object with a "questions" list
    | OtherJson                          // any other JSON value

  const DefaultRulesPath: string := "rules.json"

  /** `rules_json_path or os.getenv("RULES_JSON", "rules.json")`: an empty argument counts as absent. */
  function RulesPath(arg: Option<string>, env: Option<string>): (p: string)
    ensures arg.Some? && arg.value != "" ==> p == arg.value
    ensures arg.None? || arg.value == "" ==> p == env.GetOr(DefaultRulesPath)
  {
    if arg.Some? && arg.value != "" then arg.value else env.GetOr(DefaultRulesPath)
  }

  /** The rules a successful `load_rules` installs; None when it returns False. */
  function LoadedRules(f: RulesFile): Option<seq<Rule>> {
    match f
    case Missing => None
    case Unreadable => None
    case ListOf(items) => Some(items)
    case QuestionsOf(questions) => Some(questions)
    case OtherJson => Some([])
  }

  /** The three fields `load_rules` updates: `rules`, `rules_index` (None while it is the empty dict) and `loaded`. */
  datatype State = State(rules: seq<Rule>, index: Option<RulesIndex>, loaded: bool)

  /** The fields after `load_rules`: replaced and indexed on success, untouched on failure. */
  function LoadState(s: State, f: RulesFile): State {
    var loadedRules := LoadedRules(f);
    if loadedRules.Some? then State(loadedRules.value, Some(IndexOf(loadedRules.value)), true) else s
  }

  /** The fields after `if not self.loaded: self.load_rules()`. */
  function EnsureLoadedState(s: State, f: RulesFile): State {
    if s.loaded then s else LoadState(s, f)
  }

  /** The index, once there is one, is that of the rules; `loaded` implies there is one. */
  predicate ValidState(s: State) {
    && (s.index.Some? ==> s.index.value == IndexOf(s.rules))
    && (s.loaded ==> s.index.Some?)
  }

  /**
    Loading keeps the fields consistent; a successful load sets `loaded` and
    indexes exactly the file's rules, a failed one changes nothing.
   */
  lemma LoadStateMeaning(s: State, f: RulesFile)
    requires ValidState(s)
    ensures ValidState(LoadState(s, f))
    ensures LoadedRules(f).Some? ==> (LoadState(s, f).loaded && LoadState(s, f).rules == LoadedRules(f).value
      && LoadState(s, f).index == Some(IndexOf(LoadedRules(f).value)))
    ensures LoadedRules(f).None? ==> LoadState(s, f) == s
    ensures f.OtherJson? ==> LoadState(s, f).loaded && LoadState(s, f).rules == []
  {
    if LoadedRules(f).None? && s.loaded {
      assert s.index.Some?;
    }
  }

  /**
    Loading on demand happens at most once: after a successful load, or with
    the same file, a second `if not self.loaded: self.load_rules()` changes nothing.
   */
  lemma EnsureLoadedStable(s: State, f: RulesFile, g: RulesFile)
    ensures EnsureLoadedState(EnsureLoadedState(s, f), f) == EnsureLoadedState(s, f)
    ensures LoadedRules(f).Some? ==> EnsureLoadedState(EnsureLoadedState(s, f), g) == EnsureLoadedState(s, f)
    ensures s.loaded ==> EnsureLoadedState(s, g) == s
  {
  }

  /** The loop of `_build_index`: one pass over the rules filling the four indexes, with an inner pass over each rule's tags. */
  method ComputeIndex(rules: seq<Rule>) returns (index: RulesIndex)
    ensures index == IndexOf(rules)
  {
    var byCountry: map<string, seq<Rule>> := map[];
    var byCategory: map<string, seq<Rule>> := map[];
    var byId: map<string, Rule> := map[];
    var byTags: map<string, seq<Rule>> := map[];
    for i := 0 to |rules|
      invariant byCountry == GroupBy(rules[..i], CountryKey)
      invariant byCategory == GroupBy(rules[..i], CategoryKey)
      invariant byId == IdIndex(rules[..i])
      invariant byTags == TagIndex(rules[..i])
    {
      var rule := rules[i];
      GroupByStep(rules, CountryKey, i);
      GroupByStep(rules, CategoryKey, i);
      IndexStep(rules, i);
      var ruleId := rule.questionId.GetOr("");
      var tags := rule.tags;
      byCountry := AppendTo(byCountry, CountryKey(rule), rule);
      byCategory := AppendTo(byCategory, CategoryKey(rule), rule);
      if ruleId != "" {
        byId := byId[ruleId := rule];
      }
      ghost var before := byTags;
      for j := 0 to |tags|
        invariant byTags == AddTags(before, rule, tags[..j])
      {
        AddTagsStep(before, rule, tags, j);
        byTags := AppendTo(byTags, tags[j], rule);
      }
      assert tags[..|tags|] == tags;
    }
    assert rules[..|rules|] == rules;
    index := RulesIndex(byCountry, byCategory, byId, byTags);
  }

  /** The grouping loop of `format_rules_for_display`: the rules per category, and the categories in first-seen order. */
  method GroupByCategory(rules: seq<Rule>) returns (byCategory: map<string, seq<Rule>>, categoryOrder: seq<string>)
    ensures byCategory == GroupBy(rules, CategoryKey)
    ensures categoryOrder == KeyOrder(rules, CategoryKey)
  {
    byCategory := map[];
    categoryOrder := [];
    for i := 0 to |rules|
      invariant byCategory == GroupBy(rules[..i], CategoryKey)
      invariant categoryOrder == KeyOrder(rules[..i], CategoryKey)
    {
      GroupByStep(rules, CategoryKey, i);
      KeyOrderKeys(rules[..i], CategoryKey);
      var cat := CategoryKey(rules[i]);
      if cat !in byCategory {
        categoryOrder := categoryOrder + [cat];
      }
      byCategory := AppendTo(byCategory, cat, rules[i]);
    }
    assert rules[..|rules|] == rules;
  }

  /** The `for qid in common_ids` loop of the comparison: the common questions whose answers differ. */
  method CollectDifferences(commonIds: seq<string>, map1: map<string, Rule>, map2: map<string, Rule>)
    returns (differences: seq<Difference>)
    ensures differences == DifferencesOf(commonIds, map1, map2)
  {
    differences := [];
    for i := 0 to |commonIds|
      invariant differences == DifferencesOf(commonIds[..i], map1, map2)
    {
      assert commonIds[..i + 1][..i] == commonIds[..i];
      var qid := commonIds[i];
      if qid in map1 && qid in map2 && map1[qid].answerHtml != map2[qid].answerHtml {
        differences := differences + [MakeDifference(qid, map1[qid], map2[qid])];
      }
    }
    assert commonIds[..|commonIds|] == commonIds;
  }

  /** What `get_statistics` returns. */
  datatype Statistics = Statistics(
    totalRules: nat,
    countries: nat,
    categories: nat,
    countryList: seq<string>,
    categoryList: seq<string>
  )

  class RulesManager {
    const rulesJsonPath: string
    var rules: seq<Rule>
    var rulesIndex: Option<RulesIndex>
    var loaded: bool

    function Fields(): State
      reads this
    {
      State(rules, rulesIndex, loaded)
    }

    ghost predicate Valid()
      reads this
    {
      ValidState(Fields())
    }

    /** `RulesManager(rules_json_path)` with `RULES_JSON` read from the environment as `env`. */
    constructor (path: Option<string>, env: Option<string>)
      ensures Valid()
      ensures rulesJsonPath == RulesPath(path, env)
      ensures rules == [] && rulesIndex.None? && !loaded
    {
      rulesJsonPath := RulesPath(path, env);
      rules := [];
      rulesIndex := None;
      loaded := false;
    }

    /** `_build_index`: the index of the current rules replaces the old one. */
    method BuildIndex()
      modifies this
      ensures rulesIndex == Some(IndexOf(rules))
      ensures rules == old(rules) && loaded == old(loaded)
    {
      var index := ComputeIndex(rules);
      rulesIndex := Some(index);
    }

    /** `load_rules`: True with the file's rules installed and indexed, or False with nothing changed. */
    method LoadRules(file: RulesFile) returns (ok: bool)
      requires Valid()
      modifies this
      ensures Valid()
      ensures ok == LoadedRules(file).Some?
      ensures Fields() == LoadState(old(Fields()), file)
    {
      if file.Missing? || file.Unreadable? {
        return false;
      }
      if file.ListOf? {
        rules := file.items;
      } else if file.QuestionsOf? {
        rules := file.questions;
      } else {
        rules := [];
      }
      BuildIndex();
      loaded := true;
      ok := true;
    }

    /** `if not self.loaded: self.load_rules()` */
    method EnsureLoaded(file: RulesFile)
      requires Valid()
      modifies this
      ensures Valid()
      ensures Fields() == EnsureLoadedState(old(Fields()), file)
    {
      if !loaded {
        var _ := LoadRules(file);
      }
    }

    /**
      `get_rules_for_country`: the rules of the uppercased country that pass
      the filters, in file order; None where the index was never built and the
      lookup raises KeyError.
     */
    method GetRulesForCountry(file: RulesFile, countryCode: string, category: Option<string>,
                              tags: Option<seq<string>>, searchTerm: Option<string>)
      returns (result: Option<seq<Rule>>)
      requires Valid()
      modifies this
      ensures Valid()
      ensures Fields() == EnsureLoadedState(old(Fields()), file)
      ensures result == CountryRules(rulesIndex, countryCode, category, tags, searchTerm)
      ensures result.None? <==> rulesIndex.None?
      ensures result.Some? ==> result.value == Filter(rules, r => CountryMatch(r, Upper(countryCode), category, tags, searchTerm))
    {
      EnsureLoaded(file);
      if rulesIndex.None? {
        return None;
      }
      var code := Upper(countryCode);
      var found := BucketOf(rulesIndex.value.byCountry, code);
      if Active(category) {
        found := Filter(found, r => InCategory(r, category.value));
      }
      if ActiveTags(tags) {
        found := Filter(found, r => HasAnyTag(r, tags.value));
      }
      if Active(searchTerm) {
        found := Filter(found, r => MentionsText(r, Lower(searchTerm.value)));
      }
      result := Some(found);
      CountryRulesMeaning(rules, countryCode, category, tags, searchTerm);
    }

    /**
      `compare_rules_between_countries`: None where the index was never built;
      otherwise the comparison of the two countries' rules, the common ids
      visited in sorted order.
     */
    method CompareRules(file: RulesFile, country1: string, country2: string, category: Option<string>)
      returns (result: Option<Comparison>)
      requires Valid()
      modifies this
      ensures Valid()
      ensures Fields() == EnsureLoadedState(old(Fields()), file)
      ensures result.None? <==> rulesIndex.None?
      ensures result.Some? ==> result.value == CompareSpec(rulesIndex.value, country1, country2, category)
    {
      EnsureLoaded(file);
      ghost var loadedState := Fields();
      EnsureLoadedStable(old(Fields()), file, file);
      var found1 := GetRulesForCountry(file, country1, category, None, None);
      assert Fields() == loadedState;
      var found2 := GetRulesForCountry(file, country2, category, None, None);
      assert Fields() == loadedState;
      if found1.None? || found2.None? {
        return None;
      }
      var comparison := ComparisonFrom(country1, country2, found1.value, found2.value);
      result := Some(comparison);
    }

    /** The body of `compare_rules_between_countries` once both countries' rules are in hand. */
    method ComparisonFrom(country1: string, country2: string, rules1: seq<Rule>, rules2: seq<Rule>)
      returns (comparison: Comparison)
      ensures comparison == ComparisonOf(country1, country2, rules1, rules2)
    {
      var map1 := IdIndex(rules1);
      var map2 := IdIndex(rules2);
      var commonIds := IdsBy(IdKeys(rules1), map2, true);
      var onlyIn1 := IdsBy(IdKeys(rules1), map2, false);
      var onlyIn2 := IdsBy(IdKeys(rules2), map1, false);
      var differences := CollectDifferences(commonIds, map1, map2);
      IdsByMeaning(rules1, map2, false);
      IdsByMeaning(rules2, map1, false);
      IdKeysMeaning(rules1);
      IdKeysMeaning(rules2);
      var summary := FormatComparisonSummary(country1, country2, differences, onlyIn1, onlyIn2, map1, map2);
      comparison := Comparison(Upper(country1), Upper(country2), |rules1|, |rules2|, |commonIds|,
        |onlyIn1|, |onlyIn2|, differences, summary);
    }

    /** `_format_comparison_summary`: the header, up to five differences, up to three ids only in each country. */
    method FormatComparisonSummary(country1: string, country2: string, differences: seq<Difference>,
                                   onlyIn1: seq<string>, onlyIn2: seq<string>,
                                   map1: map<string, Rule>, map2: map<string, Rule>)
      returns (text: string)
      requires forall i :: 0 <= i < |onlyIn1| ==> onlyIn1[i] in map1
      requires forall i :: 0 <= i < |onlyIn2| ==> onlyIn2[i] in map2
      ensures text == SummaryText(country1, country2, differences, onlyIn1, onlyIn2, map1, map2)
    {
      var lines := [SummaryHeader(country1, country2)];
      lines := AppendDiffSection(lines, country1, country2, differences);
      lines := AppendOnlySection(lines, country1, onlyIn1, map1);
      lines := AppendOnlySection(lines, country2, onlyIn2, map2);
      text := Join(lines, "\n");
    }

    /** The `if differences:` block of `_format_comparison_summary`. */
    method AppendDiffSection(lines: seq<string>, country1: string, country2: string, differences: seq<Difference>)
      returns (out: seq<string>)
      ensures out == lines + DiffSection(country1, country2, differences)
    {
      out := lines;
      if differences != [] {
        var header := DiffHeader(|differences|);
        ghost var body := DiffLines(country1, country2, SlicePrefix(differences, 5));
        ghost var more: seq<string> := if |differences| > 5 then [DiffMore(|differences| - 5)] else [];
        assert DiffSection(country1, country2, differences) == [header] + body + more;
        out := AppendDiffBlocks(out + [header], country1, country2, SlicePrefix(differences, 5));
        assert out == lines + ([header] + body);
        if |differences| > 5 {
          out := out + [DiffMore(|differences| - 5)];
        }
        assert out == lines + ([header] + body) + more;
      }
    }

    /** `for diff in differences[:5]`: four lines per difference. */
    method AppendDiffBlocks(lines: seq<string>, country1: string, country2: string, shown: seq<Difference>)
      returns (out: seq<string>)
      ensures out == lines + DiffLines(country1, country2, shown)
    {
      out := lines;
      for i := 0 to |shown|
        invariant out == lines + DiffLines(country1, country2, shown[..i])
      {
        assert shown[..i + 1][..i] == shown[..i];
        var diff := shown[i];
        ghost var previous := out;
        out := out + [DiffTitle(diff)];
        out := out + [AnswerLine(country1, diff.answer1)];
        out := out + [AnswerLine(country2, diff.answer2)];
        out := out + [""];
        assert out == previous + DiffBlock(country1, country2, diff);
      }
      assert shown[..|shown|] == shown;
    }

    /** One `if only_in_N:` block of `_format_comparison_summary`. */
    method AppendOnlySection(lines: seq<string>, country: string, ids: seq<string>, m: map<string, Rule>)
      returns (out: seq<string>)
      requires forall i :: 0 <= i < |ids| ==> ids[i] in m
      ensures out == lines + OnlySection(country, ids, m)
    {
      out := lines;
      if ids != [] {
        var header := OnlyHeader(country, |ids|);
        ghost var body := OnlyLines(SlicePrefix(ids, 3), m);
        ghost var more: seq<string> := if |ids| > 3 then [OnlyMore(|ids| - 3)] else [];
        assert OnlySection(country, ids, m) == [header] + body + more;
        out := AppendOnlyLines(out + [header], SlicePrefix(ids, 3), m);
        assert out == lines + ([header] + body);
        if |ids| > 3 {
          out := out + [OnlyMore(|ids| - 3)];
        }
        assert out == lines + ([header] + body) + more;
      }
    }

    /** `for rule_id in list(only_in_N)[:3]`: one bullet line with each rule's question. */
    method AppendOnlyLines(lines: seq<string>, first: seq<string>, m: map<string, Rule>)
      returns (out: seq<string>)
      requires forall i :: 0 <= i < |first| ==> first[i] in m
      ensures out == lines + OnlyLines(first, m)
    {
      out := lines;
      for i := 0 to |first|
        invariant out == lines + OnlyLines(first[..i], m)
      {
        assert first[..i + 1][..i] == first[..i];
        assert OnlyLines(first[..i + 1], m) == OnlyLines(first[..i], m) + [OnlyLine(first[i], m)];
        var rule := m[first[i]];
        out := out + [Bullet + " " + rule.question.GetOr("Unknown")];
      }
      assert first[..|first|] == first;
    }

    /** `format_rules_for_display`: the rules grouped by sorted category, or as a flat list. */
    method FormatRulesForDisplay(rulesToShow: seq<Rule>, groupByCategory: bool) returns (text: string)
      ensures text == DisplayText(rulesToShow, groupByCategory)
    {
      if rulesToShow == [] {
        return NoRulesMessage;
      }
      if groupByCategory {
        var byCategory, categoryOrder := GroupByCategory(rulesToShow);
        var lines := GroupedLines(byCategory, SortStrings(categoryOrder));
        text := Join(lines, "\n");
      } else {
        var lines := FlatLines(rulesToShow);
        text := Join(lines, "\n");
      }
    }

    /** The grouped branch of `format_rules_for_display`, over the categories in sorted order. */
    method GroupedLines(byCategory: map<string, seq<Rule>>, categories: seq<string>) returns (lines: seq<string>)
      ensures lines == SectionsLines(SectionsOf(categories, byCategory))
    {
      ghost var sections := SectionsOf(categories, byCategory);
      lines := [];
      for i := 0 to |categories|
        invariant lines == SectionsLines(sections[..i])
      {
        assert sections[..i + 1][..i] == sections[..i];
        lines := AppendSection(lines, categories[i], BucketOf(byCategory, categories[i]));
      }
      assert sections[..|categories|] == sections;
    }

    /** One category of the grouped display: its header, its first 10 rules and the count of the rest. */
    method AppendSection(lines: seq<string>, category: string, catRules: seq<Rule>) returns (out: seq<string>)
      ensures out == lines + SectionLines(SectionOf(category, catRules))
    {
      out := lines + [CategoryHeaderLine(category, |catRules|)];
      out := AppendEntries(out, SlicePrefix(catRules, PerCategory), true);
      if |catRules| > PerCategory {
        out := out + [MoreInCategoryLine(|catRules| - PerCategory)];
      }
    }

    /** The lines of the shown rules: question, answer without tags and, in the grouped display, the links. */
    method AppendEntries(lines: seq<string>, shown: seq<Rule>, withLinks: bool) returns (out: seq<string>)
      ensures out == lines + EntriesLines(EntriesOf(shown, withLinks))
    {
      ghost var entries := EntriesOf(shown, withLinks);
      out := lines;
      for j := 0 to |shown|
        invariant out == lines + EntriesLines(entries[..j])
      {
        EntriesLinesStep(entries, j);
        var entryLines := RuleLines(shown[j], withLinks);
        out := out + entryLines;
      }
      assert entries[..|shown|] == entries;
    }

    /** The lines of one shown rule. */
    method RuleLines(rule: Rule, withLinks: bool) returns (out: seq<string>)
      ensures out == EntryLines(EntryOf(rule, withLinks))
    {
      out := [QuestionLine(rule.question.GetOr("Unknown"))];
      var answer := rule.answerHtml.GetOr(NoAnswer);
      var answerText := StripTags(answer);
      out := out + [ShownAnswerLine(SlicePrefix(answerText, 200))];
      if withLinks && rule.links != [] {
        out := out + [LinksLine(SlicePrefix(rule.links, 2))];
      }
    }

    /** The flat branch of `format_rules_for_display`: the first 20 rules, then the count of the rest. */
    method FlatLines(rulesToShow: seq<Rule>) returns (lines: seq<string>)
      ensures var d := Flat(EntriesOf(SlicePrefix(rulesToShow, FlatLimit), false), Rest(|rulesToShow|, FlatLimit));
        lines == EntriesLines(d.entries) + (if d.moreRules.Some? then [MoreRulesLine(d.moreRules.value)] else [])
    {
      lines := AppendEntries([], SlicePrefix(rulesToShow, FlatLimit), false);
      if |rulesToShow| > FlatLimit {
        lines := lines + [MoreRulesLine(|rulesToShow| - FlatLimit)];
      }
    }

    /** `get_available_countries`: None where the index was never built, else the sorted country codes, each once. */
    method GetAvailableCountries(file: RulesFile) returns (result: Option<seq<string>>)
      requires Valid()
      modifies this
      ensures Valid()
      ensures Fields() == EnsureLoadedState(old(Fields()), file)
      ensures result.None? <==> rulesIndex.None?
      ensures result.Some? ==> (SortedStrings(result.value) && Distinct(result.value)
        && (forall k :: k in result.value <==> k in rulesIndex.value.byCountry))
      ensures result.Some? ==> result.value == SortedKeys(rules, CountryKey)
    {
      EnsureLoaded(file);
      if rulesIndex.None? {
        return None;
      }
      // the keys of by_country in insertion order are the countries in order of first appearance
      result := Some(SortedKeys(rules, CountryKey));
      SortedKeysMeaning(rules, CountryKey);
    }

    /** `get_available_categories`: as for the countries, over the categories. */
    method GetAvailableCategories(file: RulesFile) returns (result: Option<seq<string>>)
      requires Valid()
      modifies this
      ensures Valid()
      ensures Fields() == EnsureLoadedState(old(Fields()), file)
      ensures result.None? <==> rulesIndex.None?
      ensures result.Some? ==> (SortedStrings(result.value) && Distinct(result.value)
        && (forall k :: k in result.value <==> k in rulesIndex.value.byCategory))
      ensures result.Some? ==> result.value == SortedKeys(rules, CategoryKey)
    {
      EnsureLoaded(file);
      if rulesIndex.None? {
        return None;
      }
      result := Some(SortedKeys(rules, CategoryKey));
      SortedKeysMeaning(rules, CategoryKey);
    }

    /** `get_statistics`: the counts agree with the lists, which are those of the two methods above. */
    method GetStatistics(file: RulesFile) returns (result: Option<Statistics>)
      requires Valid()
      modifies this
      ensures Valid()
      ensures Fields() == EnsureLoadedState(old(Fields()), file)
      ensures result.None? <==> rulesIndex.None?
      ensures result.Some? ==> (result.value.totalRules == |rules|
        && result.value.countries == |rulesIndex.value.byCountry| == |result.value.countryList|
        && result.value.categories == |rulesIndex.value.byCategory| == |result.value.categoryList|
        && result.value.countryList == SortedKeys(rules, CountryKey)
        && result.value.categoryList == SortedKeys(rules, CategoryKey))
    {
      EnsureLoaded(file);
      if rulesIndex.None? {
        return None;
      }
      var countries := GetAvailableCountries(file);
      var categories := GetAvailableCategories(file);
      SortedKeysMeaning(rules, CountryKey);
      SortedKeysMeaning(rules, CategoryKey);
      result := Some(Statistics(|rules|, |rulesIndex.value.byCountry|, |rulesIndex.value.byCategory|,
        countries.value, categories.value));
    }
  }
}
