/**
  The aviation rules manager. Rules read from a JSON file are indexed by
  country, category, question id and tag; queries return one country's rules
  under optional filters, compare the rules of two countries and format rules
  for display.
 */
module Rules {
  import opened Wrappers
  import opened Seqs
  import opened PyStr
  import opened Buckets
  import opened StrOrder

  /** One rule record; None (or an empty list) stands for an absent key, and a JSON null is read as one. */
  datatype Rule = Rule(
    countryCode: Option<string>,
    category: Option<string>,
    questionId: Option<string>,
    tags: seq<string>,
    question: Option<string>,
    answerHtml: Option<string>,
    links: seq<string>
  )

  const UnknownCountry: string := "UNKNOWN"
  const GeneralCategory: string := "General"

  /** `rule.get('country_code', 'UNKNOWN')` */
  function CountryKey(r: Rule): string {
    r.countryCode.GetOr(UnknownCountry)
  }

  /** `rule.get('category', 'General')` */
  function CategoryKey(r: Rule): string {
    r.category.GetOr(GeneralCategory)
  }

  /** The question id when it is present and non-empty (truthy). */
  function RuleId(r: Rule): (id: Option<string>)
    ensures id.Some? <==> r.questionId.Some? && r.questionId.value != ""
    ensures id.Some? ==> id == r.questionId
  {
    if r.questionId.Some? && r.questionId.value != "" then r.questionId else None
  }

  // ---------------------------------------------------------------------------
  // The index

  /** `by_id`, and the `{r['question_id']: r ...}` maps of the comparison: a later rule overwrites an earlier one. */
  function IdIndex(rules: seq<Rule>): map<string, Rule> {
    if rules == [] then map[]
    else
      var m := IdIndex(rules[..|rules| - 1]);
      var r := rules[|rules| - 1];
      if RuleId(r).Some? then m[RuleId(r).value := r] else m
  }

  /** The ids of `rules` in order of first appearance: the keys of `IdIndex(rules)` in insertion order. */
  function IdKeys(rules: seq<Rule>): seq<string> {
    if rules == [] then []
    else
      var ks := IdKeys(rules[..|rules| - 1]);
      var id := RuleId(rules[|rules| - 1]);
      if id.Some? && id.value !in ks then ks + [id.value] else ks
  }

  /** An id is indexed iff some rule has it, and it maps to the last such rule. */
  lemma {:induction false} IdIndexLastWins(rules: seq<Rule>, k: string)
    ensures k in IdIndex(rules) <==> exists i :: 0 <= i < |rules| && RuleId(rules[i]) == Some(k)
    ensures k in IdIndex(rules) ==> exists i ::
      && 0 <= i < |rules| && RuleId(rules[i]) == Some(k)
      && IdIndex(rules)[k] == rules[i] && (forall j :: i < j < |rules| ==> RuleId(rules[j]) != Some(k))
  {
    if rules != [] {
      var rs := rules[..|rules| - 1];
      var n := |rules| - 1;
      IdIndexLastWins(rs, k);
      if RuleId(rules[n]) != Some(k) {
        if k in IdIndex(rs) {
          var i :| 0 <= i < |rs| && RuleId(rs[i]) == Some(k) && IdIndex(rs)[k] == rs[i]
            && (forall j :: i < j < |rs| ==> RuleId(rs[j]) != Some(k));
          assert rules[i] == rs[i];
        }
        if exists i :: 0 <= i < |rules| && RuleId(rules[i]) == Some(k) {
          var i :| 0 <= i < |rules| && RuleId(rules[i]) == Some(k);
          assert i < n && rs[i] == rules[i];
        }
      }
    }
  }

  lemma {:induction false} IdKeysMeaning(rules: seq<Rule>)
    ensures Distinct(IdKeys(rules))
    ensures forall k :: k in IdKeys(rules) <==> k in IdIndex(rules)
  {
    if rules != [] {
      IdKeysMeaning(rules[..|rules| - 1]);
    }
  }

  /** Number of times `t` occurs in `tags`. */
  function Occurrences(tags: seq<string>, t: string): nat {
    if tags == [] then 0
    else Occurrences(tags[..|tags| - 1], t) + (if tags[|tags| - 1] == t then 1 else 0)
  }

  function Repeat(r: Rule, n: nat): (s: seq<Rule>)
    ensures |s| == n && forall x :: x in s ==> x == r
  {
    if n == 0 then [] else Repeat(r, n - 1) + [r]
  }

  /** The inner loop `for tag in tags: by_tags.setdefault(tag, []).append(rule)`. */
  function AddTags(m: map<string, seq<Rule>>, r: Rule, tags: seq<string>): map<string, seq<Rule>> {
    if tags == [] then m else AddTo(AddTags(m, r, tags[..|tags| - 1]), tags[|tags| - 1], r)
  }

  /** `by_tags` */
  function TagIndex(rules: seq<Rule>): map<string, seq<Rule>> {
    if rules == [] then map[]
    else AddTags(TagIndex(rules[..|rules| - 1]), rules[|rules| - 1], rules[|rules| - 1].tags)
  }

  /** The rules listing tag `t`, each once per occurrence of `t` in its tags, in file order. */
  function TagBucket(rules: seq<Rule>, t: string): seq<Rule> {
    if rules == [] then []
    else TagBucket(rules[..|rules| - 1], t) + Repeat(rules[|rules| - 1], Occurrences(rules[|rules| - 1].tags, t))
  }

  lemma {:induction false} AddTagsMeaning(m: map<string, seq<Rule>>, r: Rule, tags: seq<string>)
    ensures forall t :: BucketOf(AddTags(m, r, tags), t) == BucketOf(m, t) + Repeat(r, Occurrences(tags, t))
    ensures forall t :: t in AddTags(m, r, tags) <==> t in m || t in tags
  {
    if tags != [] {
      var tags' := tags[..|tags| - 1];
      AddTagsMeaning(m, r, tags');
      assert tags == tags' + [tags[|tags| - 1]];
    }
  }

  /** One more turn of the outer loop of `_build_index`: the id and tag indexes after the rule at `i`. */
  lemma IndexStep(rules: seq<Rule>, i: nat)
    requires i < |rules|
    ensures IdIndex(rules[..i + 1]) ==
      if RuleId(rules[i]).Some? then IdIndex(rules[..i])[RuleId(rules[i]).value := rules[i]] else IdIndex(rules[..i])
    ensures TagIndex(rules[..i + 1]) == AddTags(TagIndex(rules[..i]), rules[i], rules[i].tags)
  {
    assert rules[..i + 1][..i] == rules[..i];
  }

  /** One more turn of the inner loop over a rule's tags. */
  lemma AddTagsStep(m: map<string, seq<Rule>>, r: Rule, tags: seq<string>, j: nat)
    requires j < |tags|
    ensures AddTags(m, r, tags[..j + 1]) == AddTo(AddTags(m, r, tags[..j]), tags[j], r)
  {
    assert tags[..j + 1][..j] == tags[..j];
  }

  /** `by_tags` has one entry per (rule, tag) occurrence, and its keys are the tags that occur. */
  lemma {:induction false} TagIndexMeaning(rules: seq<Rule>)
    ensures forall t :: BucketOf(TagIndex(rules), t) == TagBucket(rules, t)
    ensures forall t :: t in TagIndex(rules) <==> exists i :: 0 <= i < |rules| && t in rules[i].tags
  {
    if rules != [] {
      var rs := rules[..|rules| - 1];
      var r := rules[|rules| - 1];
      TagIndexMeaning(rs);
      AddTagsMeaning(TagIndex(rs), r, r.tags);
      forall t ensures t in TagIndex(rules) <==> exists i :: 0 <= i < |rules| && t in rules[i].tags {
        if exists i :: 0 <= i < |rules| && t in rules[i].tags {
          var i :| 0 <= i < |rules| && t in rules[i].tags;
          if i < |rs| {
            assert rs[i] == rules[i];
          }
        }
        if t in TagIndex(rs) {
          var i :| 0 <= i < |rs| && t in rs[i].tags;
          assert rules[i] == rs[i];
        }
      }
    }
  }

  /** Every entry of a tag's bucket is a rule of the file that lists the tag. */
  lemma {:induction false} TagBucketElements(rules: seq<Rule>, t: string)
    ensures forall x :: x in TagBucket(rules, t) ==> x in rules && t in x.tags
  {
    if rules != [] {
      var rs := rules[..|rules| - 1];
      var r := rules[|rules| - 1];
      TagBucketElements(rs, t);
      OccurrencesPositive(r.tags, t);
    }
  }

  lemma {:induction false} OccurrencesPositive(tags: seq<string>, t: string)
    ensures Occurrences(tags, t) > 0 <==> t in tags
  {
    if tags != [] {
      OccurrencesPositive(tags[..|tags| - 1], t);
      assert tags == tags[..|tags| - 1] + [tags[|tags| - 1]];
    }
  }

  /** `rules_index` once built. */
  datatype RulesIndex = RulesIndex(
    byCountry: map<string, seq<Rule>>,
    byCategory: map<string, seq<Rule>>,
    byId: map<string, Rule>,
    byTags: map<string, seq<Rule>>
  )

  /** What `_build_index` computes from the loaded rules. */
  function IndexOf(rules: seq<Rule>): RulesIndex {
    RulesIndex(GroupBy(rules, CountryKey), GroupBy(rules, CategoryKey), IdIndex(rules), TagIndex(rules))
  }

  /**
    Every rule sits in the country bucket of its code (default UNKNOWN) and the
    category bucket of its category (default General) and in no other, each
    bucket keeps file order, and each family of buckets holds every rule once.
   */
  lemma IndexPlacement(rules: seq<Rule>, r: Rule, k: string)
    requires r in rules
    ensures r in BucketOf(IndexOf(rules).byCountry, k) <==> CountryKey(r) == k
    ensures r in BucketOf(IndexOf(rules).byCategory, k) <==> CategoryKey(r) == k
    ensures IsSubsequence(BucketOf(IndexOf(rules).byCountry, k), rules)
    ensures IsSubsequence(BucketOf(IndexOf(rules).byCategory, k), rules)
    ensures SumSizes(IndexOf(rules).byCountry, KeyOrder(rules, CountryKey)) == |rules|
    ensures SumSizes(IndexOf(rules).byCategory, KeyOrder(rules, CategoryKey)) == |rules|
  {
    GroupByPlacement(rules, CountryKey, r, k);
    GroupByPlacement(rules, CategoryKey, r, k);
    BucketSizesSum(rules, CountryKey);
    BucketSizesSum(rules, CategoryKey);
  }

  // ---------------------------------------------------------------------------
  // get_rules_for_country

  /** A filter argument that is given and truthy. */
  predicate Active(o: Option<string>) {
    o.Some? && o.value != ""
  }

  predicate ActiveTags(o: Option<seq<string>>) {
    o.Some? && o.value != []
  }

  /** `any(tag in r.get('tags', []) for tag in tags)` */
  predicate HasAnyTag(r: Rule, tags: seq<string>) {
    exists i :: 0 <= i < |tags| && tags[i] in r.tags
  }

  /** `search in r.get('question', '').lower() or search in r.get('answer_html', '').lower()` */
  predicate MentionsText(r: Rule, searchLower: string) {
    Contains(Lower(r.question.GetOr("")), searchLower) || Contains(Lower(r.answerHtml.GetOr("")), searchLower)
  }

  predicate InCategory(r: Rule, category: string) {
    r.category == Some(category)
  }

  /** `if category:` keeps the rules of that category. */
  function ByCategory(rules: seq<Rule>, category: Option<string>): seq<Rule> {
    if Active(category) then Filter(rules, r => InCategory(r, category.value)) else rules
  }

  /** `if tags:` keeps the rules carrying one of the tags. */
  function ByTags(rules: seq<Rule>, tags: Option<seq<string>>): seq<Rule> {
    if ActiveTags(tags) then Filter(rules, r => HasAnyTag(r, tags.value)) else rules
  }

  /** `if search:` keeps the rules whose question or answer mentions the lower-cased text. */
  function BySearch(rules: seq<Rule>, search: Option<string>): seq<Rule> {
    if Active(search) then Filter(rules, r => MentionsText(r, Lower(search.value))) else rules
  }

  /** The three optional filters, applied one after the other. */
  function FilterRules(rules: seq<Rule>, category: Option<string>, tags: Option<seq<string>>, search: Option<string>): seq<Rule> {
    BySearch(ByTags(ByCategory(rules, category), tags), search)
  }

  /** A rule passes every active filter. */
  predicate Matches(r: Rule, category: Option<string>, tags: Option<seq<string>>, search: Option<string>) {
    && (Active(category) ==> InCategory(r, category.value))
    && (ActiveTags(tags) ==> HasAnyTag(r, tags.value))
    && (Active(search) ==> MentionsText(r, Lower(search.value)))
  }

  lemma ByCategoryAppend(rules: seq<Rule>, x: Rule, category: Option<string>)
    ensures ByCategory(rules + [x], category)
      == ByCategory(rules, category) + (if !Active(category) || InCategory(x, category.value) then [x] else [])
  {
    if Active(category) {
      FilterAppend(rules, x, r => InCategory(r, category.value));
    }
  }

  lemma ByTagsAppend(rules: seq<Rule>, x: Rule, tags: Option<seq<string>>)
    ensures ByTags(rules + [x], tags)
      == ByTags(rules, tags) + (if !ActiveTags(tags) || HasAnyTag(x, tags.value) then [x] else [])
  {
    if ActiveTags(tags) {
      FilterAppend(rules, x, r => HasAnyTag(r, tags.value));
    }
  }

  lemma BySearchAppend(rules: seq<Rule>, x: Rule, search: Option<string>)
    ensures BySearch(rules + [x], search)
      == BySearch(rules, search) + (if !Active(search) || MentionsText(x, Lower(search.value)) then [x] else [])
  {
    if Active(search) {
      FilterAppend(rules, x, r => MentionsText(r, Lower(search.value)));
    }
  }

  lemma FilterRulesAppend(rules: seq<Rule>, x: Rule, category: Option<string>, tags: Option<seq<string>>, search: Option<string>)
    ensures FilterRules(rules + [x], category, tags, search)
      == FilterRules(rules, category, tags, search) + (if Matches(x, category, tags, search) then [x] else [])
  {
    var a := ByCategory(rules, category);
    var b := ByTags(a, tags);
    ByCategoryAppend(rules, x, category);
    if !Active(category) || InCategory(x, category.value) {
      ByTagsAppend(a, x, tags);
      if !ActiveTags(tags) || HasAnyTag(x, tags.value) {
        BySearchAppend(b, x, search);
      } else {
        assert ByTags(a + [x], tags) == b + [];
        assert b + [] == b;
      }
    } else {
      assert ByCategory(rules + [x], category) == a + [];
      assert a + [] == a;
    }
  }

  /** The filtered list is exactly the rules passing every active filter, in their original order. */
  lemma {:induction false} FilterRulesMeaning(rules: seq<Rule>, category: Option<string>, tags: Option<seq<string>>, search: Option<string>)
    ensures FilterRules(rules, category, tags, search) == Filter(rules, r => Matches(r, category, tags, search))
  {
    if rules != [] {
      var rs := rules[..|rules| - 1];
      var x := rules[|rules| - 1];
      assert rules == rs + [x];
      FilterRulesMeaning(rs, category, tags, search);
      FilterRulesAppend(rs, x, category, tags, search);
      FilterAppend(rs, x, r => Matches(r, category, tags, search));
    }
  }

  /** `get_rules_for_country` once loading is settled; None where the empty index raises KeyError. */
  function CountryRules(index: Option<RulesIndex>, countryCode: string, category: Option<string>,
                        tags: Option<seq<string>>, search: Option<string>): Option<seq<Rule>>
  {
    if index.None? then None
    else Some(FilterRules(BucketOf(index.value.byCountry, Upper(countryCode)), category, tags, search))
  }

  /** The condition `get_rules_for_country` applies to the rules of the file. */
  predicate CountryMatch(r: Rule, k: string, category: Option<string>, tags: Option<seq<string>>, search: Option<string>) {
    CountryKey(r) == k && Matches(r, category, tags, search)
  }

  lemma {:induction false} FilteredBucket(rules: seq<Rule>, k: string, category: Option<string>,
                                          tags: Option<seq<string>>, search: Option<string>)
    ensures FilterRules(Bucket(rules, CountryKey, k), category, tags, search)
      == Filter(rules, r => CountryMatch(r, k, category, tags, search))
  {
    if rules != [] {
      var rs := rules[..|rules| - 1];
      var x := rules[|rules| - 1];
      var b := Bucket(rs, CountryKey, k);
      var target := Filter(rules, r => CountryMatch(r, k, category, tags, search));
      FilteredBucket(rs, k, category, tags, search);
      assert target == Filter(rs, r => CountryMatch(r, k, category, tags, search))
        + (if CountryMatch(x, k, category, tags, search) then [x] else []);
      if CountryKey(x) == k {
        assert Bucket(rules, CountryKey, k) == b + [x];
        FilterRulesAppend(b, x, category, tags, search);
      } else {
        assert Bucket(rules, CountryKey, k) == b;
      }
    }
  }

  /** The rules returned are those of the file whose country key is the uppercased code and that pass the filters, in file order. */
  lemma CountryRulesMeaning(rules: seq<Rule>, countryCode: string, category: Option<string>,
                            tags: Option<seq<string>>, search: Option<string>)
    ensures CountryRules(Some(IndexOf(rules)), countryCode, category, tags, search)
      == Some(Filter(rules, r => CountryMatch(r, Upper(countryCode), category, tags, search)))
    ensures IsSubsequence(CountryRules(Some(IndexOf(rules)), countryCode, category, tags, search).value, rules)
  {
    var k := Upper(countryCode);
    GroupByBuckets(rules, CountryKey);
    assert BucketOf(IndexOf(rules).byCountry, k) == Bucket(rules, CountryKey, k);
    FilteredBucket(rules, k, category, tags, search);
    FilterIsSubsequence(rules, r => CountryMatch(r, k, category, tags, search));
  }

  /** A rule without a category is indexed under General, yet the category filter "General" drops it. */
  lemma MissingCategoryFilteredOut(r: Rule)
    requires r.category.None?
    ensures CategoryKey(r) == GeneralCategory
    ensures FilterRules([r], Some(GeneralCategory), None, None) == []
  {
    assert [r][..0] == [];
  }

  // ---------------------------------------------------------------------------
  // compare_rules_between_countries

  /** A common question whose answers differ between the two countries. */
  datatype Difference = Difference(
    questionId: string,
    question: Option<string>,
    category: Option<string>,
    answer1: string,
    links1: seq<string>,
    answer2: string,
    links2: seq<string>
  )

  datatype Comparison = Comparison(
    country1: string,
    country2: string,
    totalRules1: nat,
    totalRules2: nat,
    commonRules: nat,
    onlyInCountry1: nat,
    onlyInCountry2: nat,
    differences: seq<Difference>,
    summary: string
  )

  /** The ids of `ids` that `m` has (`inOther`) or lacks, in sorted order. */
  function IdsBy(ids: seq<string>, m: map<string, Rule>, inOther: bool): seq<string> {
    SortStrings(Filter(ids, k => (k in m) == inOther))
  }

  function MakeDifference(id: string, r1: Rule, r2: Rule): Difference {
    Difference(id, r1.question, r1.category, r1.answerHtml.GetOr(""), r1.links, r2.answerHtml.GetOr(""), r2.links)
  }

  predicate AnswersDiffer(k: string, m1: map<string, Rule>, m2: map<string, Rule>) {
    k in m1 && k in m2 && m1[k].answerHtml != m2[k].answerHtml
  }

  /** The loop over the common ids that collects the differing answers. */
  function DifferencesOf(ids: seq<string>, m1: map<string, Rule>, m2: map<string, Rule>): seq<Difference> {
    if ids == [] then []
    else
      var k := ids[|ids| - 1];
      DifferencesOf(ids[..|ids| - 1], m1, m2) + (if AnswersDiffer(k, m1, m2) then [MakeDifference(k, m1[k], m2[k])] else [])
  }

  function DifferenceIds(ds: seq<Difference>): (ks: seq<string>)
    ensures |ks| == |ds| && forall i :: 0 <= i < |ds| ==> ks[i] == ds[i].questionId
  {
    seq(|ds|, i requires 0 <= i < |ds| => ds[i].questionId)
  }

  /** The differences are exactly the common ids whose answers differ, in order, each with both answers. */
  lemma {:induction false} DifferencesMeaning(ids: seq<string>, m1: map<string, Rule>, m2: map<string, Rule>)
    ensures DifferenceIds(DifferencesOf(ids, m1, m2)) == Filter(ids, k => AnswersDiffer(k, m1, m2))
    ensures forall d :: d in DifferencesOf(ids, m1, m2) ==>
      d.questionId in m1 && d.questionId in m2 && d == MakeDifference(d.questionId, m1[d.questionId], m2[d.questionId])
  {
    if ids != [] {
      var ids' := ids[..|ids| - 1];
      DifferencesMeaning(ids', m1, m2);
      var ds' := DifferencesOf(ids', m1, m2);
      var k := ids[|ids| - 1];
      if AnswersDiffer(k, m1, m2) {
        assert DifferenceIds(ds' + [MakeDifference(k, m1[k], m2[k])]) == DifferenceIds(ds') + [k];
      } else {
        assert DifferencesOf(ids, m1, m2) == ds';
      }
    }
  }

  /** The comparison of two countries' (filtered) rule lists. */
  function ComparisonOf(country1: string, country2: string, rules1: seq<Rule>, rules2: seq<Rule>): Comparison {
    var m1 := IdIndex(rules1);
    var m2 := IdIndex(rules2);
    var common := IdsBy(IdKeys(rules1), m2, true);
    var only1 := IdsBy(IdKeys(rules1), m2, false);
    var only2 := IdsBy(IdKeys(rules2), m1, false);
    var diffs := DifferencesOf(common, m1, m2);
    Comparison(Upper(country1), Upper(country2), |rules1|, |rules2|, |common|, |only1|, |only2|, diffs,
      SummaryText(country1, country2, diffs, only1, only2, m1, m2))
  }

  /** `compare_rules_between_countries` on a loaded index: each country's rules under the category filter, compared. */
  function CompareSpec(index: RulesIndex, country1: string, country2: string, category: Option<string>): Comparison {
    ComparisonOf(country1, country2,
      FilterRules(BucketOf(index.byCountry, Upper(country1)), category, None, None),
      FilterRules(BucketOf(index.byCountry, Upper(country2)), category, None, None))
  }

  /** The id lists of `IdsBy` hold no duplicates and exactly the ids with or without a partner. */
  lemma IdsByMeaning(rules: seq<Rule>, m: map<string, Rule>, inOther: bool)
    ensures Distinct(IdsBy(IdKeys(rules), m, inOther))
    ensures forall k :: k in IdsBy(IdKeys(rules), m, inOther) <==> k in IdIndex(rules) && (k in m) == inOther
    ensures |IdsBy(IdKeys(rules), m, inOther)| == |set k | k in IdIndex(rules) && (k in m) == inOther|
  {
    var ks := IdKeys(rules);
    IdKeysMeaning(rules);
    var f := Filter(ks, k => (k in m) == inOther);
    FilterDistinct(ks, k => (k in m) == inOther);
    SortStringsDistinct(f);
    var r := IdsBy(ks, m, inOther);
    DistinctCardinality(r);
    assert (set k | k in r) == (set k | k in IdIndex(rules) && (k in m) == inOther);
  }

  /** The three id lists of a comparison have the sizes of the intersection and the two differences of the id sets. */
  lemma IdCounts(rules1: seq<Rule>, rules2: seq<Rule>)
    ensures var ids1, ids2 := IdIndex(rules1).Keys, IdIndex(rules2).Keys;
      && |IdsBy(IdKeys(rules1), IdIndex(rules2), true)| == |ids1 * ids2|
      && |IdsBy(IdKeys(rules1), IdIndex(rules2), false)| == |ids1 - ids2|
      && |IdsBy(IdKeys(rules2), IdIndex(rules1), false)| == |ids2 - ids1|
  {
    IdCount(rules1, IdIndex(rules2), true);
    IdCount(rules1, IdIndex(rules2), false);
    IdCount(rules2, IdIndex(rules1), false);
  }

  /** One id list of a comparison has the size of the matching set operation on the id sets. */
  lemma IdCount(rules: seq<Rule>, m: map<string, Rule>, inOther: bool)
    ensures |IdsBy(IdKeys(rules), m, inOther)| == |if inOther then IdIndex(rules).Keys * m.Keys else IdIndex(rules).Keys - m.Keys|
  {
    IdsByMeaning(rules, m, inOther);
    KeysSplit(IdIndex(rules), m, inOther);
  }

  lemma KeysSplit<V>(a: map<string, V>, b: map<string, V>, inOther: bool)
    ensures (set k | k in a && (k in b) == inOther) == if inOther then a.Keys * b.Keys else a.Keys - b.Keys
  {
  }

  /**
    The totals are the lengths of the two filtered lists; the common count and
    the two "only in" counts are the sizes of the intersection and of the two
    differences of the countries' id sets, so each country's ids split into
    common ones and its own.
   */
  lemma CompareCounts(country1: string, country2: string, rules1: seq<Rule>, rules2: seq<Rule>)
    ensures var c := ComparisonOf(country1, country2, rules1, rules2);
      var ids1, ids2 := IdIndex(rules1).Keys, IdIndex(rules2).Keys;
      && c.totalRules1 == |rules1| && c.totalRules2 == |rules2|
      && c.commonRules == |ids1 * ids2|
      && c.onlyInCountry1 == |ids1 - ids2|
      && c.onlyInCountry2 == |ids2 - ids1|
      && c.commonRules + c.onlyInCountry1 == |ids1|
      && c.commonRules + c.onlyInCountry2 == |ids2|
  {
    var ids1, ids2 := IdIndex(rules1).Keys, IdIndex(rules2).Keys;
    IdCounts(rules1, rules2);
    SplitCard(ids1, ids2);
    SplitCard(ids2, ids1);
    assert ids2 * ids1 == ids1 * ids2;
  }

  lemma SplitCard(a: set<string>, b: set<string>)
    ensures |a * b| + |a - b| == |a|
  {
    assert a == (a * b) + (a - b) && (a * b) !! (a - b);
  }

  /** `differences` holds exactly the common ids whose answers differ. */
  lemma CompareDifferences(country1: string, country2: string, rules1: seq<Rule>, rules2: seq<Rule>, k: string)
    ensures var c := ComparisonOf(country1, country2, rules1, rules2);
      var m1, m2 := IdIndex(rules1), IdIndex(rules2);
      k in DifferenceIds(c.differences) <==> k in m1 && k in m2 && m1[k].answerHtml != m2[k].answerHtml
  {
    var m1 := IdIndex(rules1);
    var m2 := IdIndex(rules2);
    var common := IdsBy(IdKeys(rules1), m2, true);
    IdsByMeaning(rules1, m2, true);
    DifferencesMeaning(common, m1, m2);
  }

  // ---------------------------------------------------------------------------
  // Text formatting

  /** The list bullet as the source file spells it (the UTF-8 bytes of U+2022 read as Windows-1252). */
  const Bullet: string := "\U{00E2}\U{20AC}\U{00A2}"
  /** The paperclip before the links, spelled the same way (U+1F4CE). */
  const Paperclip: string := "\U{00F0}\U{0178}\U{201C}\U{017D}"

  /** `f"{x}"` for an optional string: None prints as "None". */
  function OptText(o: Option<string>): string {
    if o.Some? then o.value else "None"
  }

  predicate IsBullet(line: string) {
    StartsWith(line, Bullet)
  }

  predicate IsMoreLine(line: string) {
    StartsWith(line, "  ... and ")
  }

  /** The first line of a difference: its question in bold. */
  function DiffTitle(d: Difference): string {
    Bullet + " **" + OptText(d.question) + "**"
  }

  /** One country's answer, cut to 100 characters. */
  function AnswerLine(country: string, answer: string): string {
    "  - " + Upper(country) + ": " + SlicePrefix(answer, 100) + "..."
  }

  function DiffBlock(country1: string, country2: string, d: Difference): seq<string> {
    [DiffTitle(d), AnswerLine(country1, d.answer1), AnswerLine(country2, d.answer2), ""]
  }

  function DiffLines(country1: string, country2: string, ds: seq<Difference>): seq<string> {
    if ds == [] then [] else DiffLines(country1, country2, ds[..|ds| - 1]) + DiffBlock(country1, country2, ds[|ds| - 1])
  }

  function OnlyLine(k: string, m: map<string, Rule>): string
    requires k in m
  {
    Bullet + " " + m[k].question.GetOr("Unknown")
  }

  function OnlyLines(ids: seq<string>, m: map<string, Rule>): seq<string>
    requires forall i :: 0 <= i < |ids| ==> ids[i] in m
  {
    if ids == [] then [] else OnlyLines(ids[..|ids| - 1], m) + [OnlyLine(ids[|ids| - 1], m)]
  }

  function DiffHeader(n: nat): string {
    "**Different Answers (" + NatToString(n) + "):**\n"
  }

  function DiffMore(n: nat): string {
    "  ... and " + NatToString(n) + " more differences\n"
  }

  function OnlyHeader(country: string, n: nat): string {
    "\n**Only in " + Upper(country) + " (" + NatToString(n) + "):**"
  }

  function OnlyMore(n: nat): string {
    "  ... and " + NatToString(n) + " more"
  }

  function DiffSection(country1: string, country2: string, diffs: seq<Difference>): seq<string> {
    if diffs == [] then []
    else
      [DiffHeader(|diffs|)] + DiffLines(country1, country2, SlicePrefix(diffs, 5))
        + (if |diffs| > 5 then [DiffMore(|diffs| - 5)] else [])
  }

  function OnlySection(country: string, ids: seq<string>, m: map<string, Rule>): seq<string>
    requires forall i :: 0 <= i < |ids| ==> ids[i] in m
  {
    if ids == [] then []
    else
      [OnlyHeader(country, |ids|)] + OnlyLines(SlicePrefix(ids, 3), m)
        + (if |ids| > 3 then [OnlyMore(|ids| - 3)] else [])
  }

  function SummaryHeader(country1: string, country2: string): string {
    "\n**Rules Comparison: " + Upper(country1) + " vs " + Upper(country2) + "**\n"
  }

  /** The lines of `_format_comparison_summary`. */
  function SummaryLines(country1: string, country2: string, diffs: seq<Difference>, only1: seq<string>, only2: seq<string>,
                        m1: map<string, Rule>, m2: map<string, Rule>): seq<string>
    requires forall i :: 0 <= i < |only1| ==> only1[i] in m1
    requires forall i :: 0 <= i < |only2| ==> only2[i] in m2
  {
    [SummaryHeader(country1, country2)] + DiffSection(country1, country2, diffs)
      + OnlySection(country1, only1, m1) + OnlySection(country2, only2, m2)
  }

  function SummaryText(country1: string, country2: string, diffs: seq<Difference>, only1: seq<string>, only2: seq<string>,
                       m1: map<string, Rule>, m2: map<string, Rule>): string
  {
    if (forall i :: 0 <= i < |only1| ==> only1[i] in m1) && (forall i :: 0 <= i < |only2| ==> only2[i] in m2)
    then Join(SummaryLines(country1, country2, diffs, only1, only2, m1, m2), "\n")
    else ""
  }

  lemma StartsWithPrefix(p: string, rest: string)
    ensures StartsWith(p + rest, p)
  {
    assert (p + rest)[..|p|] == p;
  }

  /** A line whose first character differs from that of `p` does not start with `p`. */
  lemma NotStartsWith(head: string, rest: string, p: string)
    requires head != [] && p != [] && head[0] != p[0]
    ensures !StartsWith(head + rest, p)
  {
    assert (head + rest)[0] == head[0];
  }

  lemma DiffTitleKind(d: Difference)
    ensures IsBullet(DiffTitle(d)) && !IsMoreLine(DiffTitle(d))
  {
    var rest := " **" + OptText(d.question) + "**";
    assert DiffTitle(d) == Bullet + rest;
    StartsWithPrefix(Bullet, rest);
    NotStartsWith(Bullet, rest, "  ... and ");
  }

  lemma AnswerLineKind(country: string, answer: string)
    ensures !IsBullet(AnswerLine(country, answer)) && !IsMoreLine(AnswerLine(country, answer))
  {
    var rest := Upper(country) + ": " + SlicePrefix(answer, 100) + "...";
    assert AnswerLine(country, answer) == "  - " + rest;
    NotStartsWith("  - ", rest, Bullet);
    assert ("  - " + rest)[2] == '-';
  }

  lemma OnlyLineKind(k: string, m: map<string, Rule>)
    requires k in m
    ensures IsBullet(OnlyLine(k, m)) && !IsMoreLine(OnlyLine(k, m))
  {
    var rest := " " + m[k].question.GetOr("Unknown");
    assert OnlyLine(k, m) == Bullet + rest;
    StartsWithPrefix(Bullet, rest);
    NotStartsWith(Bullet, rest, "  ... and ");
  }

  lemma Count4(a: string, b: string, c: string, d: string, p: string -> bool)
    ensures Count([a, b, c, d], p) == (if p(a) then 1 else 0) + (if p(b) then 1 else 0) + (if p(c) then 1 else 0) + (if p(d) then 1 else 0)
  {
    assert [a, b, c, d] == [a] + [b] + [c] + [d];
    CountConcat([a] + [b] + [c], [d], p);
    CountConcat([a] + [b], [c], p);
    CountConcat([a], [b], p);
    CountSingle(a, p);
    CountSingle(b, p);
    CountSingle(c, p);
    CountSingle(d, p);
  }

  lemma {:induction false} DiffLinesCounts(country1: string, country2: string, ds: seq<Difference>)
    ensures Count(DiffLines(country1, country2, ds), IsBullet) == |ds|
    ensures Count(DiffLines(country1, country2, ds), IsMoreLine) == 0
  {
    if ds != [] {
      var ds' := ds[..|ds| - 1];
      var d := ds[|ds| - 1];
      DiffLinesCounts(country1, country2, ds');
      var b := DiffBlock(country1, country2, d);
      CountConcat(DiffLines(country1, country2, ds'), b, IsBullet);
      CountConcat(DiffLines(country1, country2, ds'), b, IsMoreLine);
      DiffTitleKind(d);
      AnswerLineKind(country1, d.answer1);
      AnswerLineKind(country2, d.answer2);
      Count4(DiffTitle(d), AnswerLine(country1, d.answer1), AnswerLine(country2, d.answer2), "", IsBullet);
      Count4(DiffTitle(d), AnswerLine(country1, d.answer1), AnswerLine(country2, d.answer2), "", IsMoreLine);
    }
  }

  lemma {:induction false} OnlyLinesCounts(ids: seq<string>, m: map<string, Rule>)
    requires forall i :: 0 <= i < |ids| ==> ids[i] in m
    ensures Count(OnlyLines(ids, m), IsBullet) == |ids|
    ensures Count(OnlyLines(ids, m), IsMoreLine) == 0
  {
    if ids != [] {
      var ids' := ids[..|ids| - 1];
      var k := ids[|ids| - 1];
      OnlyLinesCounts(ids', m);
      OnlyLineKind(k, m);
      CountConcat(OnlyLines(ids', m), [OnlyLine(k, m)], IsBullet);
      CountConcat(OnlyLines(ids', m), [OnlyLine(k, m)], IsMoreLine);
      CountSingle(OnlyLine(k, m), IsBullet);
      CountSingle(OnlyLine(k, m), IsMoreLine);
    }
  }

  lemma MoreLineIsMore(n: nat, tail: string)
    ensures IsMoreLine("  ... and " + NatToString(n) + tail)
    ensures !IsBullet("  ... and " + NatToString(n) + tail)
  {
    var rest := NatToString(n) + tail;
    assert "  ... and " + NatToString(n) + tail == "  ... and " + rest;
    StartsWithPrefix("  ... and ", rest);
    NotStartsWith("  ... and ", rest, Bullet);
  }

  lemma HeaderLine(head: string, tail: string)
    requires head != [] && head[0] in {'\n', '*'}
    ensures !IsBullet(head + tail) && !IsMoreLine(head + tail)
  {
    NotStartsWith(head, tail, Bullet);
    NotStartsWith(head, tail, "  ... and ");
  }

  lemma DiffSectionCounts(country1: string, country2: string, diffs: seq<Difference>)
    ensures Count(DiffSection(country1, country2, diffs), IsBullet) == Min(5, |diffs|)
    ensures Count(DiffSection(country1, country2, diffs), IsMoreLine) == if |diffs| > 5 then 1 else 0
  {
    if diffs != [] {
      var h := DiffHeader(|diffs|);
      var body := DiffLines(country1, country2, SlicePrefix(diffs, 5));
      var more: seq<string> := if |diffs| > 5 then [DiffMore(|diffs| - 5)] else [];
      HeaderLine("**Different Answers (", NatToString(|diffs|) + "):**\n");
      assert h == "**Different Answers (" + (NatToString(|diffs|) + "):**\n");
      DiffLinesCounts(country1, country2, SlicePrefix(diffs, 5));
      CountConcat([h], body, IsBullet);
      CountConcat([h] + body, more, IsBullet);
      CountConcat([h], body, IsMoreLine);
      CountConcat([h] + body, more, IsMoreLine);
      CountSingle(h, IsBullet);
      CountSingle(h, IsMoreLine);
      if |diffs| > 5 {
        MoreLineIsMore(|diffs| - 5, " more differences\n");
        CountSingle(DiffMore(|diffs| - 5), IsBullet);
        CountSingle(DiffMore(|diffs| - 5), IsMoreLine);
      }
    }
  }

  lemma OnlySectionCounts(country: string, ids: seq<string>, m: map<string, Rule>)
    requires forall i :: 0 <= i < |ids| ==> ids[i] in m
    ensures Count(OnlySection(country, ids, m), IsBullet) == Min(3, |ids|)
    ensures Count(OnlySection(country, ids, m), IsMoreLine) == if |ids| > 3 then 1 else 0
  {
    if ids != [] {
      var h := OnlyHeader(country, |ids|);
      var shown := SlicePrefix(ids, 3);
      var body := OnlyLines(shown, m);
      var more: seq<string> := if |ids| > 3 then [OnlyMore(|ids| - 3)] else [];
      HeaderLine("\n**Only in ", Upper(country) + " (" + NatToString(|ids|) + "):**");
      assert h == "\n**Only in " + (Upper(country) + " (" + NatToString(|ids|) + "):**");
      OnlyLinesCounts(shown, m);
      CountConcat([h], body, IsBullet);
      CountConcat([h] + body, more, IsBullet);
      CountConcat([h], body, IsMoreLine);
      CountConcat([h] + body, more, IsMoreLine);
      CountSingle(h, IsBullet);
      CountSingle(h, IsMoreLine);
      if |ids| > 3 {
        MoreLineIsMore(|ids| - 3, " more");
        assert OnlyMore(|ids| - 3) == "  ... and " + NatToString(|ids| - 3) + " more";
        CountSingle(OnlyMore(|ids| - 3), IsBullet);
        CountSingle(OnlyMore(|ids| - 3), IsMoreLine);
      }
    }
  }

  /**
    The summary shows at most 5 differences and at most 3 ids of each
    only-in list, one bullet line each, and one "... and N more" line for each
    list that is longer than what it shows.
   */
  lemma SummaryCounts(country1: string, country2: string, diffs: seq<Difference>, only1: seq<string>, only2: seq<string>,
                      m1: map<string, Rule>, m2: map<string, Rule>)
    requires forall i :: 0 <= i < |only1| ==> only1[i] in m1
    requires forall i :: 0 <= i < |only2| ==> only2[i] in m2
    ensures Count(SummaryLines(country1, country2, diffs, only1, only2, m1, m2), IsBullet)
      == Min(5, |diffs|) + Min(3, |only1|) + Min(3, |only2|)
    ensures Count(SummaryLines(country1, country2, diffs, only1, only2, m1, m2), IsMoreLine)
      == (if |diffs| > 5 then 1 else 0) + (if |only1| > 3 then 1 else 0) + (if |only2| > 3 then 1 else 0)
  {
    var h := SummaryHeader(country1, country2);
    var a := DiffSection(country1, country2, diffs);
    var b := OnlySection(country1, only1, m1);
    var c := OnlySection(country2, only2, m2);
    HeaderLine("\n**Rules Comparison: ", Upper(country1) + " vs " + Upper(country2) + "**\n");
    assert h == "\n**Rules Comparison: " + (Upper(country1) + " vs " + Upper(country2) + "**\n");
    CountSingle(h, IsBullet);
    CountSingle(h, IsMoreLine);
    DiffSectionCounts(country1, country2, diffs);
    OnlySectionCounts(country1, only1, m1);
    OnlySectionCounts(country2, only2, m2);
    CountConcat([h], a, IsBullet);
    CountConcat([h] + a, b, IsBullet);
    CountConcat([h] + a + b, c, IsBullet);
    CountConcat([h], a, IsMoreLine);
    CountConcat([h] + a, b, IsMoreLine);
    CountConcat([h] + a + b, c, IsMoreLine);
  }
}
