/**
  `format_rules_for_display`: rules listed either grouped by category (the
  categories in sorted order, at most 10 rules each) or as one flat list of at
  most 20 rules, each rule as its question in bold and its answer with the
  HTML tags removed and cut to 200 characters.
 */
module RulesDisplay {
  import opened Wrappers
  import opened Seqs
  import opened PyStr
  import opened Buckets
  import opened StrOrder
  import opened Rules

  // ---------------------------------------------------------------------------
  // re.sub('<[^<]+?>', '', text)

  /**
    Where the tag whose body continues at `j` closes: the first `>` at or after
    `j`, provided no `<` comes first; None when a `<` or the end comes first.
   */
  function CloseAt(s: string, j: nat): (e: Option<nat>)
    decreases |s| - j
    ensures e.Some? ==> j <= e.value < |s| && s[e.value] == '>'
    ensures e.Some? ==> forall k :: j <= k < e.value ==> s[k] != '<' && s[k] != '>'
    ensures e.None? ==> forall k :: j <= k < |s| && s[k] == '>' ==> exists q :: j <= q < k && s[q] == '<'
  {
    if j >= |s| || s[j] == '<' then None
    else if s[j] == '>' then Some(j)
    else CloseAt(s, j + 1)
  }

  /**
    The length of the match of `<[^<]+?>` at `p`, 0 when none starts there: a
    `<`, at least one character other than `<` (which may be `>`), and then
    everything up to the first `>`, with no `<` on the way.
   */
  function TagAt(s: string, p: nat): (n: nat)
    ensures n > 0 ==> p + n <= |s| && n >= 3 && s[p] == '<' && s[p + n - 1] == '>'
    ensures n > 0 ==> forall k :: p < k < p + n ==> s[k] != '<'
  {
    if p + 1 < |s| && s[p] == '<' && s[p + 1] != '<' then
      match CloseAt(s, p + 2)
      case Some(e) => e + 1 - p
      case None => 0
    else 0
  }

  /** The substitution from position `p` on: each match is dropped, every other character kept. */
  function StripFrom(s: string, p: nat): string
    decreases |s| - p
  {
    if p >= |s| then []
    else if TagAt(s, p) > 0 then StripFrom(s, p + TagAt(s, p))
    else [s[p]] + StripFrom(s, p + 1)
  }

  /** `re.sub('<[^<]+?>', '', text)` */
  function StripTags(s: string): string {
    StripFrom(s, 0)
  }

  lemma SuffixMultiset(s: string, p: nat, q: nat)
    requires p <= q <= |s|
    ensures multiset(s[q..]) <= multiset(s[p..])
  {
    assert s[p..] == s[p..q] + s[q..];
  }

  lemma {:induction false} StripFromShorter(s: string, p: nat)
    requires p <= |s|
    ensures |StripFrom(s, p)| <= |s| - p
    decreases |s| - p
  {
    if p < |s| {
      var t := TagAt(s, p);
      if t > 0 {
        StripFromShorter(s, p + t);
      } else {
        StripFromShorter(s, p + 1);
      }
    }
  }

  lemma {:induction false} StripFromKeeps(s: string, p: nat)
    requires p <= |s|
    ensures multiset(StripFrom(s, p)) <= multiset(s[p..])
    decreases |s| - p
  {
    if p < |s| {
      var t := TagAt(s, p);
      if t > 0 {
        assert StripFrom(s, p) == StripFrom(s, p + t);
        StripFromKeeps(s, p + t);
        SuffixMultiset(s, p, p + t);
      } else {
        assert StripFrom(s, p) == [s[p]] + StripFrom(s, p + 1);
        StripFromKeeps(s, p + 1);
        assert s[p..] == [s[p]] + s[p + 1..];
      }
    }
  }

  lemma {:induction false} StripFromNoTags(s: string, p: nat)
    requires forall i :: 0 <= i < |s| ==> s[i] != '<'
    ensures p <= |s| ==> StripFrom(s, p) == s[p..]
    decreases |s| - p
  {
    if p < |s| {
      StripFromNoTags(s, p + 1);
      assert s[p..] == [s[p]] + s[p + 1..];
    }
  }

  /** Stripping only removes characters: it never lengthens a text and keeps only characters of it. */
  lemma StripTagsKeeps(s: string)
    ensures |StripTags(s)| <= |s|
    ensures multiset(StripTags(s)) <= multiset(s)
    ensures forall c :: c in StripTags(s) ==> c in s
  {
    StripFromShorter(s, 0);
    StripFromKeeps(s, 0);
    assert s[0..] == s;
    forall c | c in StripTags(s) ensures c in s {
      assert c in multiset(StripTags(s));
    }
  }

  /** A text without `<` is returned unchanged. */
  lemma StripTagsNoTags(s: string)
    requires forall i :: 0 <= i < |s| ==> s[i] != '<'
    ensures StripTags(s) == s
  {
    StripFromNoTags(s, 0);
    assert s[0..] == s;
  }

  /** Tags are removed, the text between them kept. */
  lemma StripTagsExample()
    ensures StripTags("<p>Hi</p>") == "Hi"
  {
    assert TagAt("<p>Hi</p>", 0) == 3;
    assert TagAt("<p>Hi</p>", 3) == 0;
    assert TagAt("<p>Hi</p>", 4) == 0;
    assert TagAt("<p>Hi</p>", 5) == 4;
  }

  /** A `<` that opens nothing, and an empty `<>`, are kept. */
  lemma StripTagsKeepsStrayBrackets()
    ensures StripTags("a<b") == "a<b"
    ensures StripTags("<>") == "<>"
  {
    assert TagAt("a<b", 1) == 0;
    assert TagAt("<>", 0) == 0;
  }

  /** One pass leaves `<b>` from `<<a>b>`, which a second pass removes: stripping is not idempotent. */
  lemma StripTagsNotIdempotent()
    ensures StripTags("<<a>b>") == "<b>"
    ensures StripTags(StripTags("<<a>b>")) == ""
  {
    assert TagAt("<<a>b>", 0) == 0;
    assert TagAt("<<a>b>", 1) == 3;
    assert TagAt("<<a>b>", 4) == 0;
    assert TagAt("<b>", 0) == 3;
  }

  // ---------------------------------------------------------------------------
  // What the display shows

  const NoRulesMessage: string := "No rules found matching your criteria."
  const NoAnswer: string := "No answer available"
  /** Rules shown per category, and in the flat list. */
  const PerCategory: nat := 10
  const FlatLimit: nat := 20

  /** One shown rule: its question, its answer as shown and, in the grouped display, its first two links if it has any. */
  datatype Entry = Entry(question: string, answer: string, links: Option<seq<string>>)

  /** One category of the grouped display: its name, its number of rules, the rules shown and the count of the rest. */
  datatype Section = Section(category: string, count: nat, shown: seq<Entry>, more: Option<nat>)

  datatype Display =
    | NoRules
    | Grouped(sections: seq<Section>)
    | Flat(entries: seq<Entry>, moreRules: Option<nat>)

  /** The answer as shown: the answer (or the placeholder) without tags, cut to 200 characters. */
  function AnswerText(r: Rule): string {
    SlicePrefix(StripTags(r.answerHtml.GetOr(NoAnswer)), 200)
  }

  function EntryOf(r: Rule, withLinks: bool): Entry {
    Entry(r.question.GetOr("Unknown"), AnswerText(r),
      if withLinks && r.links != [] then Some(SlicePrefix(r.links, 2)) else None)
  }

  function EntriesOf(rs: seq<Rule>, withLinks: bool): (es: seq<Entry>)
    ensures |es| == |rs| && forall i :: 0 <= i < |rs| ==> es[i] == EntryOf(rs[i], withLinks)
  {
    seq(|rs|, i requires 0 <= i < |rs| => EntryOf(rs[i], withLinks))
  }

  /** `n - limit` when the list is longer than what is shown. */
  function Rest(n: nat, limit: nat): Option<nat> {
    if n > limit then Some(n - limit) else None
  }

  function SectionOf(c: string, b: seq<Rule>): Section {
    Section(c, |b|, EntriesOf(SlicePrefix(b, PerCategory), true), Rest(|b|, PerCategory))
  }

  /** `sorted(d.keys())` for a dict of lists filled from `s` by `key`: its keys compare on their own. */
  function SortedKeys<T>(s: seq<T>, key: T -> string): seq<string> {
    SortStrings(KeyOrder(s, key))
  }

  /** The categories of the rules in sorted order: `sorted(by_category.items())` compares the distinct keys only. */
  function SortedCategories(rules: seq<Rule>): seq<string> {
    SortedKeys(rules, CategoryKey)
  }

  function SectionsOf(cats: seq<string>, m: map<string, seq<Rule>>): (ss: seq<Section>)
    ensures |ss| == |cats| && forall i :: 0 <= i < |cats| ==> ss[i] == SectionOf(cats[i], BucketOf(m, cats[i]))
  {
    seq(|cats|, i requires 0 <= i < |cats| => SectionOf(cats[i], BucketOf(m, cats[i])))
  }

  /** What `format_rules_for_display` shows, before it is rendered as text. */
  function DisplayOf(rules: seq<Rule>, groupByCategory: bool): Display {
    if rules == [] then NoRules
    else if groupByCategory then Grouped(SectionsOf(SortedCategories(rules), GroupBy(rules, CategoryKey)))
    else Flat(EntriesOf(SlicePrefix(rules, FlatLimit), false), Rest(|rules|, FlatLimit))
  }

  /**
    The sorted keys are in ascending order, repeat no key, are exactly the
    dict's keys and the keys of the elements, and are as many as the dict's keys.
   */
  lemma SortedKeysMeaning<T>(s: seq<T>, key: T -> string)
    ensures SortedStrings(SortedKeys(s, key))
    ensures Distinct(SortedKeys(s, key))
    ensures forall c :: c in SortedKeys(s, key) <==> c in GroupBy(s, key)
    ensures forall c :: c in SortedKeys(s, key) <==> exists i :: 0 <= i < |s| && key(s[i]) == c
    ensures |SortedKeys(s, key)| == |GroupBy(s, key)|
  {
    var ks := KeyOrder(s, key);
    KeyOrderKeys(s, key);
    KeyOrderCovers(s, key);
    SortStringsSorted(ks);
    SortStringsDistinct(ks);
    var r := SortedKeys(s, key);
    DistinctCardinality(r);
    assert (set x | x in r) == GroupBy(s, key).Keys;
  }

  /**
    A section counts all rules of its category, shows the first min(10, count)
    of them in file order with their links, and reports the rest exactly when
    there are more than 10.
   */
  lemma SectionMeaning(rules: seq<Rule>, c: string)
    ensures var s := SectionOf(c, BucketOf(GroupBy(rules, CategoryKey), c));
      && s.category == c
      && s.count == |Bucket(rules, CategoryKey, c)|
      && |s.shown| == Min(PerCategory, s.count)
      && (s.more.Some? <==> s.count > PerCategory)
      && (s.more.Some? ==> s.more.value == s.count - PerCategory)
      && (forall i :: 0 <= i < |s.shown| ==> s.shown[i] == EntryOf(Bucket(rules, CategoryKey, c)[i], true))
  {
    GroupByBuckets(rules, CategoryKey);
  }

  /** The categories of the sections, in display order. */
  function CategoriesOf(ss: seq<Section>): (cs: seq<string>)
    ensures |cs| == |ss| && forall i :: 0 <= i < |ss| ==> cs[i] == ss[i].category
  {
    seq(|ss|, i requires 0 <= i < |ss| => ss[i].category)
  }

  lemma SectionsOfCategories(cats: seq<string>, m: map<string, seq<Rule>>)
    ensures CategoriesOf(SectionsOf(cats, m)) == cats
  {
  }

  /**
    The grouped display has one section per category of the rules, in the
    sorted order of the categories (so each category once, by
    SortedKeysMeaning), and every section is that of its category.
   */
  lemma GroupedDisplayMeaning(rules: seq<Rule>)
    requires rules != []
    ensures DisplayOf(rules, true).Grouped?
    ensures CategoriesOf(DisplayOf(rules, true).sections) == SortedCategories(rules)
    ensures var ss := DisplayOf(rules, true).sections;
      forall i :: 0 <= i < |ss| ==> ss[i] == SectionOf(ss[i].category, BucketOf(GroupBy(rules, CategoryKey), ss[i].category))
  {
    var cats := SortedCategories(rules);
    var m := GroupBy(rules, CategoryKey);
    assert DisplayOf(rules, true) == Grouped(SectionsOf(cats, m));
    SectionsOfCategories(cats, m);
  }

  /**
    The flat display shows the first min(20, n) rules in order, without
    links, and reports the rest exactly when there are more than 20.
   */
  lemma FlatDisplayMeaning(rules: seq<Rule>)
    requires rules != []
    ensures DisplayOf(rules, false).Flat?
    ensures var d := DisplayOf(rules, false);
      && |d.entries| == Min(FlatLimit, |rules|)
      && (forall i :: 0 <= i < |d.entries| ==> d.entries[i] == EntryOf(rules[i], false) && d.entries[i].links.None?)
      && (d.moreRules.Some? <==> |rules| > FlatLimit)
      && (d.moreRules.Some? ==> d.moreRules.value == |rules| - FlatLimit)
  {
  }

  // ---------------------------------------------------------------------------
  // Rendering

  function QuestionLine(question: string): string {
    "\n" + Bullet + " **" + question + "**"
  }

  function ShownAnswerLine(answer: string): string {
    "  " + answer + "..."
  }

  function LinksLine(links: seq<string>): string {
    "  " + Paperclip + " Links: " + Join(links, ", ")
  }

  /** An entry's lines: question and answer, then the links when the entry has them. */
  function EntryLines(e: Entry): seq<string> {
    [QuestionLine(e.question), ShownAnswerLine(e.answer)] + (if e.links.Some? then [LinksLine(e.links.value)] else [])
  }

  function EntriesLines(es: seq<Entry>): seq<string> {
    if es == [] then [] else EntriesLines(es[..|es| - 1]) + EntryLines(es[|es| - 1])
  }

  lemma EntriesLinesStep(es: seq<Entry>, j: nat)
    requires j < |es|
    ensures EntriesLines(es[..j + 1]) == EntriesLines(es[..j]) + EntryLines(es[j])
  {
    assert es[..j + 1][..j] == es[..j];
  }

  function CategoryHeaderLine(category: string, count: nat): string {
    "\n**" + category + "** (" + NatToString(count) + " rules):"
  }

  function MoreInCategoryLine(n: nat): string {
    "  ... and " + NatToString(n) + " more in this category"
  }

  function MoreRulesLine(n: nat): string {
    "\n... and " + NatToString(n) + " more rules"
  }

  function SectionLines(s: Section): seq<string> {
    [CategoryHeaderLine(s.category, s.count)] + EntriesLines(s.shown)
      + (if s.more.Some? then [MoreInCategoryLine(s.more.value)] else [])
  }

  function SectionsLines(ss: seq<Section>): seq<string> {
    if ss == [] then [] else SectionsLines(ss[..|ss| - 1]) + SectionLines(ss[|ss| - 1])
  }

  /** The text of a display: its lines joined with newlines. */
  function RenderDisplay(d: Display): string {
    match d
    case NoRules => NoRulesMessage
    case Grouped(ss) => Join(SectionsLines(ss), "\n")
    case Flat(es, more) => Join(EntriesLines(es) + (if more.Some? then [MoreRulesLine(more.value)] else []), "\n")
  }

  /** What `format_rules_for_display` returns. */
  function DisplayText(rules: seq<Rule>, groupByCategory: bool): string {
    RenderDisplay(DisplayOf(rules, groupByCategory))
  }

  /** An entry takes two lines, three with links. */
  lemma {:induction false} EntriesLinesLength(es: seq<Entry>)
    ensures |EntriesLines(es)| >= 2 * |es|
  {
    if es != [] {
      EntriesLinesLength(es[..|es| - 1]);
    }
  }

  /** The empty list gives the fixed message, and only the empty list does. */
  lemma DisplayTextEmpty(rules: seq<Rule>, groupByCategory: bool)
    ensures rules == [] ==> DisplayText(rules, groupByCategory) == NoRulesMessage
    ensures rules != [] ==> DisplayOf(rules, groupByCategory) != NoRules
  {
  }
}
