# flyfun-apps core, modelled and verified in Dafny

This project models the deterministic core of the flyfun-apps general-aviation assistant and proves properties of that model:

- **Notification-rule parser and hassle scorer** (`notification_parser.dfy`, `notification_models.dfy`). `NotificationParser.parse` turns one AIP customs/immigration text into an ordered list of typed notification rules. The top level is first-match-wins: H24, then on-request, then AS-AD hours. Below that, extraction is layered: weekday rules, else general hours rules, and then business-day rules. The Schengen annotation and the warnings come last. `HassleScore.from_parsed_rules` maps the parse result to a level and a score, using a fixed threshold table and a capped weekend bump. Regex search and finditer results are inputs (a `TextMatches` record). `_parse_day` and its `DAY_MAP` are modelled on the text itself.
- **Rules manager** (`rules_manager.dfy` for the index, filters, comparison and display text; `rules_display.dfy` for display grouping; `rules_manager_class.dfy` for the `RulesManager` class with its `rules`, `rules_index` and `loaded` fields).
- **Review sources** from the GA-friendliness package: the CSV source, the airfield-directory export with MTOW fee banding, the per-airport JSON directory source and the composite source with deduplication (`review_model.dfy`, `csv_source.dfy`, `airfield_directory_source.dfy`, `landing_fees.dfy`, `airport_json_source.dfy`, `composite_source.dfy`). Each source is a class. It loads lazily and keeps `_reviews`, `_reviews_by_icao` and the fee data as fields.
- **Airport prioritisation** (`cost_optimized.dfy`, `priority_engine.dfy`): three-level classification, fee or distance scoring, a stable sort on (level, score), the strategy registry and top-N selection.
- **UI payload builder** (`formatting.dfy`): tool name to payload kind, and the flattening of fields from the tool arguments and the tool result.
- **Two-phase conversation loop** (`chatbot_core.dfy`). The LLM, the JSON decoder, the tool executor, the extractor and the tool-response formatter are oracles passed in as parameters. Each oracle may raise (it returns None). Nothing in the loop catches, so a raise ends the run and leaves the caller's message list as far as it had been extended.
- **MCP client** (`mcp_client.dfy` for airport search, border-crossing grouping and fuel price selection; `mcp_dispatch.dfy` for `_call_tool` dispatch and the lazily loaded model).
- **Airport filters** (`basic_filters.dfy`, `runway_filters.dfy`, `pricing_filters.dfy`, `fuel_filters.dfy`). Enrichment storage is a map from airport ident to pricing and fuel records (`airports.dfy`).
- **LangSmith evaluators** (`answer_quality.dfy`, `filter_extraction.dfy`, `tool_selection.dfy`, with the run and plan shapes in `eval_runs.dfy`).

Shared helper modules: `Wrappers` (Option and Result); `PyStr` (Python string semantics: `isspace`, `strip`, ASCII case mapping, substring search, `join`, integer to decimal text); `PyValue` (dynamic Python/JSON values and truthiness); `Seqs` (filter, map and collect over sequences); `Buckets` (order-preserving group-by); `StrOrder` (lexicographic string order and sorting); `Airports` (airport records and enrichment storage).

Scores, confidences and fee means are exact Dafny `real`s. Python `int` is Dafny `int`.

## Model

| member | source | states |
|---|---|---|
| NotificationParser.LookupDay | shared/ga_notification_agent/parser.py:86-98 | a day-table lookup never gives an end day without a start day; unknown keys give no day |
| NotificationParser.ParseDay | shared/ga_notification_agent/parser.py:197-210 | `_parse_day` never returns an end day without a start day |
| NotificationParser.RemoveHolidays | shared/ga_notification_agent/parser.py:202 | the holiday substitution never lengthens the token |
| NotificationParser.RemoveHolidaysNoHol | shared/ga_notification_agent/parser.py:202 | a token that does not mention "hol" passes through the substitution unchanged |
| NotificationParser.ParseDayPlain | shared/ga_notification_agent/parser.py:199-210 | a lower-case, unpadded token without "hol" is looked up as it stands and sets no holiday flag |
| NotificationParser.ParseDayIgnoresCase | shared/ga_notification_agent/parser.py:199 | `_parse_day` lower-cases first, so a token and its lower-case form parse alike |
| NotificationParser.ParseDayTable | shared/ga_notification_agent/parser.py:86-98 | every key of DAY_MAP, and its upper-case form, gives its table entry (a single day, or (0,4) for weekday(s), (5,6) for week-end/weekend) and no holiday flag; any other casing parses alike by `ParseDayIgnoresCase` |
| NotificationParser.NotADayKey | shared/ga_notification_agent/parser.py:204-210 | a key outside DAY_MAP gives (None, None) |
| NotificationParser.HolidayTokenRemoved | shared/ga_notification_agent/parser.py:200-202 | "hol" and "holidays" are removed completely and both count as mentioning holidays |
| NotificationParser.ParseDayHolidayOnly | shared/ga_notification_agent/parser.py:197-210 | a bare "HOL" or "HOLIDAYS" names no day but sets includes_holidays |
| NotificationParser.ParseDayHyphenatedWeekdays | shared/ga_notification_agent/parser.py:86-98 | "WEEK-DAYS" is not a DAY_MAP key, so it gives no days and no holiday flag |
| NotificationParser.WeekdayRule | shared/ga_notification_agent/parser.py:216-239 | one weekday match gives a PPR/HOURS rule with hours_notice the captured number, confidence 0.85, raw_text the match and no Schengen flag |
| NotificationParser.WeekdayRules | shared/ga_notification_agent/parser.py:212-241 | one rule per weekday match |
| NotificationParser.ExtractWeekdayRules | shared/ga_notification_agent/parser.py:212-241 | the loop yields the rule of each weekday match, in match order |
| NotificationParser.HoursValue | shared/ga_notification_agent/parser.py:249-253 | the hours value is the first capture group among 1..3 that took part |
| NotificationParser.HoursRule | shared/ga_notification_agent/parser.py:258-264 | an hours match gives a PPR/HOURS rule with confidence 0.8, no weekday and no Schengen flag |
| NotificationParser.HoursOfAppend | shared/ga_notification_agent/parser.py:267-275 | the set of hours values seen grows by the new rule's value |
| NotificationParser.DedupByHoursSameHours | shared/ga_notification_agent/parser.py:267-275 | de-duplication keeps every hours value that occurs |
| NotificationParser.DedupByHoursDistinct | shared/ga_notification_agent/parser.py:267-275 | no two kept rules share an hours value |
| NotificationParser.DedupByHoursSubsequence | shared/ga_notification_agent/parser.py:267-275 | the kept rules are a subsequence of the candidates, so match order is preserved |
| NotificationParser.DedupByHoursKeepsFirst | shared/ga_notification_agent/parser.py:267-275 | a rule is kept when no earlier rule has its hours value; otherwise a rule at an earlier position with that hours value is kept |
| NotificationParser.ExtractHoursRules | shared/ga_notification_agent/parser.py:243-275 | the two loops give the de-duplicated rules of the matches that captured an hours value |
| NotificationParser.BusinessRule | shared/ga_notification_agent/parser.py:281-290 | a business-day match gives a PPR/BUSINESS_DAY rule with offset -1, the captured time (or None), confidence 0.75 and no hours |
| NotificationParser.BusinessRules | shared/ga_notification_agent/parser.py:277-294 | one rule per business-day match, each the rule of its match |
| NotificationParser.ExtractBusinessDayRules | shared/ga_notification_agent/parser.py:277-294 | the loop yields the rule of each business-day match, in match order |
| NotificationParser.AnnotateSchengen | shared/ga_notification_agent/parser.py:170-177 | every rule gets the same Schengen treatment and the count is unchanged |
| NotificationParser.ExtractRules | shared/ga_notification_agent/parser.py:126-167 | the pattern stage of `parse` computes the first-match-wins rule list |
| NotificationParser.ExtractLayered | shared/ga_notification_agent/parser.py:152-167 | weekday rules, else hours rules, then business-day rules |
| NotificationParser.MarkSchengen | shared/ga_notification_agent/parser.py:170-177 | the flag loop sets the same Schengen flags on every rule |
| NotificationParser.Parser.ParseWithLlm | shared/ga_notification_agent/parser.py:296-310 | the LLM fallback yields no rules, whether it returns early or not |
| NotificationParser.Parser.Parse | shared/ga_notification_agent/parser.py:111-195 | `parse` computes the parse of the text, built from the text's pattern results |
| NotificationParser.Parser.ParseBatch | shared/ga_notification_agent/parser.py:312-321 | one result per (icao, text) pair, in input order, each the parse of that pair |
| NotificationParser.WeekdayRulesShape | shared/ga_notification_agent/parser.py:216-239 | every weekday rule is a PPR/HOURS rule with confidence 0.85 |
| NotificationParser.HoursCandidatesShape | shared/ga_notification_agent/parser.py:247-265 | every hours candidate is a PPR/HOURS rule with confidence 0.8, at most one per match |
| NotificationParser.BusinessRulesShape | shared/ga_notification_agent/parser.py:281-290 | every business-day rule is a PPR/BUSINESS_DAY rule |
| NotificationParser.LayeredRulesShape | shared/ga_notification_agent/parser.py:152-167 | layered rules are of the three kinds; hours rules appear only when there are no weekday rules |
| NotificationParser.LayeredHoursDistinct | shared/ga_notification_agent/parser.py:267-275 | the hours rules in a layered parse have pairwise distinct hours values |
| NotificationParser.RegexRulesFirstMatch | shared/ga_notification_agent/parser.py:126-167 | H24 gives exactly one H24 CUSTOMS rule (0.95); else O/R with no hours match gives one ON_REQUEST rule (0.9); else AS AD HOURS with no hours match gives one AS_AD_HOURS rule (0.9); otherwise all rules are layered PPR rules |
| NotificationParser.RegexRulesUnflagged | shared/ga_notification_agent/parser.py:126-167 | no rule is flagged Schengen before the annotation |
| NotificationParser.AnnotateSchengenFlags | shared/ga_notification_agent/parser.py:170-177 | non_schengen_only iff only the non-Schengen phrase matched; schengen_only iff only the intra-Schengen phrase matched; never both; nothing else changes |
| NotificationParser.ParseSchengenContext | shared/ga_notification_agent/parser.py:170-177 | every rule of a parse carries the Schengen context of the whole text |
| NotificationParser.ParseWarnings | shared/ga_notification_agent/parser.py:113-195 | blank text gives no rules, warnings exactly ["Empty text"] and raw_text `text or ""`. Otherwise warnings are empty iff rules were found, and the single warning depends on the fallback flag |
| NotificationParser.WeekdayRuleRange | shared/ga_notification_agent/parser.py:221-226 | with an end token (as "MON-FRI") the rule runs from the start token's day to the end token's day, with no holiday flag for plain day names |
| NotificationParser.WeekdayRuleSingle | shared/ga_notification_agent/parser.py:221-227 | without an end token the end day is the start token's own span end (4 for "WEEKDAYS", 6 for "WEEKEND", None for a single day) |
| NotificationParser.Parser.constructor | shared/ga_notification_agent/parser.py:100-109 | a new parser keeps the fallback flag, the model name and the key it is given |
| NotificationModels.DefaultRule | shared/ga_notification_agent/models.py:41-69 | a rule built with only its kind, raw text and confidence has every other field at its declared default (no hours, no days, obligatory, not Schengen-specific, extracted by "regex") |
| NotificationModels.WeekdayDescription | shared/ga_notification_agent/models.py:71-82 | no start day gives "all days"; no end day gives the single day's name; (0,4) gives "weekdays"; (5,6) gives "weekends"; any other range gives "DAY-DAY" |
| NotificationModels.WeekdayDescriptionInjective | shared/ga_notification_agent/models.py:71-82 | once a start day is present, two day ranges with the same description are the same range |
| NotificationModels.NoRulesNotOnRequest | shared/ga_notification_agent/models.py:93-105 | with no rules, `is_on_request` and `is_h24` are both false |
| NotificationModels.MaxHoursNotice | shared/ga_notification_agent/models.py:107-111 | None iff no rule has an hours notice; otherwise an upper bound of every present hours notice that some rule attains |
| NotificationModels.SummaryFragmentsCount | shared/ga_notification_agent/models.py:124-139 | one summary fragment per contributing rule; none iff no rule contributes (HOURS rules with no or zero hours contribute nothing) |
| NotificationModels.GetSummary | shared/ga_notification_agent/models.py:113-139 | the fragment loop computes the summary: the fixed texts for no rules, H24 and on-request, else the fragments joined with "; " in rule order, else "See detailed rules" |
| NotificationModels.SummaryFallback | shared/ga_notification_agent/models.py:139 | "See detailed rules" exactly when no rule contributes a fragment, otherwise the "; "-join of the fragments |
| NotificationModels.HoursLevel | shared/ga_notification_agent/models.py:205-226 | the threshold table: None → HIGH/0.7, ≤2 → LOW/0.15, ≤12 → LOW/0.25, ≤24 → MODERATE/0.4, ≤48 → HIGH/0.6, ≤72 → HIGH/0.75, above → VERY_HIGH/0.9 |
| NotificationModels.HoursLevelMonotone | shared/ga_notification_agent/models.py:205-226 | more hours of notice never lowers the level or the score |
| NotificationModels.HoursLevelBoundary | shared/ga_notification_agent/models.py:221-226 | 72 hours gives HIGH/0.75 and 73 hours gives VERY_HIGH/0.9 |
| NotificationModels.WeekendBump | shared/ga_notification_agent/models.py:229-230 | the bump adds 0.1 capped at 1.0, so the score never falls and stays in [0,1] |
| NotificationModels.FromParsedRules | shared/ga_notification_agent/models.py:163-240 | first branch wins: no rules → MODERATE/0.5, any H24 → NONE/0.0, all on-request → LOW/0.2, all AS_AD_HOURS → LOW/0.15, each without max hours, weekend or Schengen flags; otherwise the table level, the bumped score when a rule starts on Saturday or includes holidays, max_hours_notice, and has_schengen_rules iff some rule has either Schengen flag |
| NotificationModels.WeekendBumpKeepsLevel | shared/ga_notification_agent/models.py:228-230 | the weekend bump never changes the level and raises the score by at most 0.1, never above 1.0 |
| NotificationModels.FromParsedRulesMonotone | shared/ga_notification_agent/models.py:201-230 | in the main branch, with the same weekend flag, more maximum notice never lowers the level or the score |
| Rules.RuleId | web/server/rules_manager.py:80-94 | a rule has an id iff its question_id is present and non-empty, and the id is that question_id |
| Rules.IdIndexLastWins | web/server/rules_manager.py:93-95 | an id is indexed iff some rule has it, and it maps to the last rule with that id (later duplicates overwrite earlier ones) |
| Rules.IdKeysMeaning | web/server/rules_manager.py:182-188 | the id list has no duplicates and holds exactly the indexed ids |
| Rules.AddTagsMeaning | web/server/rules_manager.py:98-101 | the inner tag loop appends the rule to each tag's bucket once per occurrence of the tag and adds exactly the rule's tags as keys |
| Rules.IndexStep | web/server/rules_manager.py:77-101 | one turn of the outer loop updates the id index (only for a truthy id) and appends the rule's tags |
| Rules.AddTagsStep | web/server/rules_manager.py:98-101 | one turn of the inner loop appends the rule to one tag's bucket |
| Rules.TagIndexMeaning | web/server/rules_manager.py:97-101 | by_tags has one entry per (rule, tag) occurrence, in file order, and its keys are exactly the tags that occur |
| Rules.TagBucketElements | web/server/rules_manager.py:97-101 | every rule in a tag's bucket is a rule of the file that lists the tag |
| Rules.OccurrencesPositive | web/server/rules_manager.py:98 | a tag occurs a positive number of times iff it is among the rule's tags |
| Rules.IndexPlacement | web/server/rules_manager.py:77-91 | every rule lies in exactly the country bucket of its country_code (default UNKNOWN) and the category bucket of its category (default General); buckets keep file order and each family's sizes sum to the number of rules |
| Rules.ByCategoryAppend | web/server/rules_manager.py:136-137 | the category comprehension keeps a further rule iff the filter is off or the rule has that category |
| Rules.ByTagsAppend | web/server/rules_manager.py:140-141 | the tags comprehension keeps a further rule iff the filter is off or the rule carries one of the tags |
| Rules.BySearchAppend | web/server/rules_manager.py:144-150 | the search comprehension keeps a further rule iff the filter is off or its lower-cased question or answer contains the lower-cased term |
| Rules.FilterRulesAppend | web/server/rules_manager.py:135-150 | the three filters keep a further rule iff it passes every active filter |
| Rules.FilterRulesMeaning | web/server/rules_manager.py:135-150 | the filtered list is exactly the rules passing every active filter, in their original order |
| Rules.FilteredBucket | web/server/rules_manager.py:131-150 | filtering a country's bucket is filtering the whole file by country and filters together |
| Rules.CountryRulesMeaning | web/server/rules_manager.py:109-152 | `get_rules_for_country` returns the rules of the file whose country key is the upper-cased code and that pass the filters, as an order-preserving subsequence of the file |
| Rules.MissingCategoryFilteredOut | web/server/rules_manager.py:79-137 | a rule without a category is indexed under General, yet the category filter "General" drops it |
| Rules.DifferenceIds | web/server/rules_manager.py:197-198 | one id per difference, in order |
| Rules.DifferencesMeaning | web/server/rules_manager.py:190-209 | the differences are exactly the common ids whose answer_html differ, in order, each carrying both countries' answers and links |
| Rules.IdsByMeaning | web/server/rules_manager.py:182-188 | each id list has no duplicates and holds exactly the ids of one side that the other side has (common) or lacks (only-in) |
| Rules.IdCounts | web/server/rules_manager.py:186-218 | the common and only-in counts are the sizes of the intersection and of the two differences of the id sets |
| Rules.IdCount | web/server/rules_manager.py:186-188 | one id list has the size of the matching set operation |
| Rules.CompareCounts | web/server/rules_manager.py:211-218 | the totals are the filtered list lengths; common, only_in_country1 and only_in_country2 are the sizes of the intersection and the two differences, so each side's ids split into common ones and its own |
| Rules.CompareDifferences | web/server/rules_manager.py:190-219 | an id is among the differences iff both sides have it and their answers differ |
| Rules.DiffTitleKind | web/server/rules_manager.py:242 | a difference's title is a bullet line and not a "more" line |
| Rules.OnlyLineKind | web/server/rules_manager.py:254-262 | each only-in line is a bullet line |
| Rules.DiffLinesCounts | web/server/rules_manager.py:241-245 | the difference blocks hold one bullet per difference shown and no "more" line |
| Rules.OnlyLinesCounts | web/server/rules_manager.py:252-254 | the only-in lines hold one bullet per id shown |
| Rules.DiffSectionCounts | web/server/rules_manager.py:239-248 | the differences section shows at most 5 differences, with one "... and N more" line iff there are more than 5 |
| Rules.OnlySectionCounts | web/server/rules_manager.py:250-264 | each only-in section shows at most 3 ids, with one "more" line iff there are more than 3 |
| Rules.SummaryCounts | web/server/rules_manager.py:236-266 | the whole summary shows min(5, differences) + min(3, only-in-1) + min(3, only-in-2) bullets and one "more" line per section that overflows |
| RulesDisplay.CloseAt | web/server/rules_manager.py:303 | the lazy `+?>` of the tag pattern: the first '>' after a position with no '<' before it, or None when every later '>' has a '<' before it |
| RulesDisplay.TagAt | web/server/rules_manager.py:303 | a tag match starts with '<', ends with the first '>', is at least three characters long and has no further '<' inside |
| RulesDisplay.StripTagsKeeps | web/server/rules_manager.py:303-320 | tag stripping never lengthens the answer and only removes characters |
| RulesDisplay.StripTagsNoTags | web/server/rules_manager.py:303-320 | an answer without '<' is left unchanged |
| RulesDisplay.StripTagsExample | web/server/rules_manager.py:303 | "<p>Hi</p>" becomes "Hi" |
| RulesDisplay.StripTagsKeepsStrayBrackets | web/server/rules_manager.py:303 | a lone '<' and an empty "<>" are kept, since the pattern needs a character between the brackets |
| RulesDisplay.StripTagsNotIdempotent | web/server/rules_manager.py:303 | one substitution pass can leave a new tag behind: "<<a>b>" becomes "<b>", which strips to "" |
| RulesDisplay.EntriesOf | web/server/rules_manager.py:298-321 | one display entry per shown rule, in order |
| RulesDisplay.SectionsOf | web/server/rules_manager.py:296-310 | one section per category, each built from that category's bucket |
| RulesDisplay.SortedKeysMeaning | web/server/rules_manager.py:296-338 | the grouped keys are sorted, distinct and exactly the keys that some rule has |
| RulesDisplay.SectionMeaning | web/server/rules_manager.py:297-310 | a category section counts all of its rules, shows the first min(10, count) of them in order and says "... and N more" with N = count - 10 iff there are more than 10 |
| RulesDisplay.CategoriesOf | web/server/rules_manager.py:296 | one category name per section, in order |
| RulesDisplay.SectionsOfCategories | web/server/rules_manager.py:296 | the sections are listed in the order of the categories given |
| RulesDisplay.GroupedDisplayMeaning | web/server/rules_manager.py:286-312 | grouped mode lists the categories in sorted order, each section built from its category's rules |
| RulesDisplay.FlatDisplayMeaning | web/server/rules_manager.py:313-326 | flat mode shows the first min(20, n) rules in order without links, with a "more rules" line iff there are more than 20 |
| RulesDisplay.EntriesLinesLength | web/server/rules_manager.py:299-307 | every entry prints at least its question line and its answer line |
| RulesDisplay.DisplayTextEmpty | web/server/rules_manager.py:283-284 | no rules gives exactly "No rules found matching your criteria.", and any rule gives a grouped or flat display |
| RulesManagerClass.RulesPath | web/server/rules_manager.py:26 | a non-empty path argument wins; otherwise the RULES_JSON variable, else "rules.json" |
| RulesManagerClass.LoadStateMeaning | web/server/rules_manager.py:31-66 | a successful load sets the rules (a list, or the "questions" of a dict, or [] for any other JSON), builds their index and sets loaded; a missing or unreadable file changes nothing; the state stays consistent |
| RulesManagerClass.EnsureLoadedStable | web/server/rules_manager.py:128-173 | loading on demand happens at most once: after a successful load, or with the same file, a second check changes nothing |
| RulesManagerClass.ComputeIndex | web/server/rules_manager.py:68-101 | the indexing loop builds the country, category, id and tag indexes of the rules |
| RulesManagerClass.GroupByCategory | web/server/rules_manager.py:288-293 | the grouping loop gives each category's rules in file order, with the categories in order of first appearance |
| RulesManagerClass.CollectDifferences | web/server/rules_manager.py:190-209 | the loop collects the differences of the common ids |
| RulesManagerClass.RulesManager.BuildIndex | web/server/rules_manager.py:68-101 | `_build_index` sets the index of the current rules and changes nothing else |
| RulesManagerClass.RulesManager.LoadRules | web/server/rules_manager.py:31-66 | returns True iff the file could be read, and the fields become the loaded state |
| RulesManagerClass.RulesManager.EnsureLoaded | web/server/rules_manager.py:128-129 | `if not self.loaded: self.load_rules()` |
| RulesManagerClass.RulesManager.GetRulesForCountry | web/server/rules_manager.py:109-152 | after loading on demand, the result is the filtered bucket of the upper-cased code; None stands for the KeyError of the empty index when loading failed |
| RulesManagerClass.RulesManager.CompareRules | web/server/rules_manager.py:154-223 | after loading on demand, the comparison of the two countries' category-filtered rules |
| RulesManagerClass.RulesManager.ComparisonFrom | web/server/rules_manager.py:181-223 | the id maps, id sets, differences and summary of the two rule lists |
| RulesManagerClass.RulesManager.FormatComparisonSummary | web/server/rules_manager.py:225-266 | the summary text: header, differences section, both only-in sections, joined with newlines |
| RulesManagerClass.RulesManager.AppendDiffSection | web/server/rules_manager.py:239-248 | appends the differences section |
| RulesManagerClass.RulesManager.AppendDiffBlocks | web/server/rules_manager.py:241-245 | appends one four-line block per shown difference |
| RulesManagerClass.RulesManager.AppendOnlySection | web/server/rules_manager.py:250-264 | appends one only-in section |
| RulesManagerClass.RulesManager.AppendOnlyLines | web/server/rules_manager.py:252-254 | appends one bullet per shown id |
| RulesManagerClass.RulesManager.FormatRulesForDisplay | web/server/rules_manager.py:268-326 | the display text of the rules in grouped or flat mode |
| RulesManagerClass.RulesManager.GroupedLines | web/server/rules_manager.py:295-312 | the lines of the sections, in category order |
| RulesManagerClass.RulesManager.AppendSection | web/server/rules_manager.py:297-310 | appends one category section |
| RulesManagerClass.RulesManager.AppendEntries | web/server/rules_manager.py:298-307 | appends the lines of each shown rule |
| RulesManagerClass.RulesManager.RuleLines | web/server/rules_manager.py:299-307 | the question, stripped answer and optional links lines of one rule |
| RulesManagerClass.RulesManager.FlatLines | web/server/rules_manager.py:315-326 | the first 20 entries and the "more rules" line when there are more |
| RulesManagerClass.RulesManager.GetAvailableCountries | web/server/rules_manager.py:328-332 | the sorted, distinct country keys of the index |
| RulesManagerClass.RulesManager.GetAvailableCategories | web/server/rules_manager.py:334-338 | the sorted, distinct category keys of the index |
| RulesManagerClass.RulesManager.GetStatistics | web/server/rules_manager.py:340-351 | totals equal the number of rules, countries and categories, and the lists are the available keys |
| RulesManagerClass.RulesManager.constructor | web/server/rules_manager.py:19-29 | the path is the argument, else the RULES_JSON variable, else "rules.json"; no rules, no index and not loaded |
| ReviewModel.ReviewIndexAppend | shared/ga_friendliness/sources.py:99-101 | appending a review appends it to its ICAO's bucket and to no other |
| ReviewModel.ReviewIndexMeaning | shared/ga_friendliness/sources.py:97-101 | `_reviews_by_icao[k]` is exactly the order-preserving subsequence of `_reviews` with icao k, and a review lies in the bucket of its own ICAO only |
| ReviewModel.ReviewIndexKeys | shared/ga_friendliness/sources.py:99-101 | the keys of `_reviews_by_icao` are exactly the ICAOs of the reviews |
| ReviewModel.LanguageText | shared/ga_friendliness/sources.py:262 | `content.get(lang)`: a non-empty result is the text of an entry for that language, and the first entry for the language gives it when non-empty |
| ReviewModel.PickText | shared/ga_friendliness/sources.py:262-265 | the preferred language's text, else the "EN" text, else the first value of the content (or "" for empty content) |
| ReviewModel.PickTextIsAValue | shared/ga_friendliness/sources.py:262-265 | the picked text is one of the content's values, or "" for empty content |
| ReviewModel.PickTextFirstValueOnly | shared/ga_friendliness/sources.py:263-265 | only the first value is tried: content {"DE": "", "FR": "Piste courte"} with preference "EN" gives "", so the pirep is skipped |
| ReviewModel.PirepText | shared/ga_friendliness/sources.py:267 | the stored text has no leading or trailing whitespace |
| ReviewModel.RunAppend | shared/ga_friendliness/sources.py:80-101 | one more item of a loading loop extends the kept list, skips, or stops with an exception |
| ReviewModel.RunMeaning | shared/ga_friendliness/sources.py:80-101 | a loading loop raises iff some item raises; every kept review comes from a kept item; without an exception every kept item's review is kept |
| ReviewModel.RunAfterRaise | shared/ga_friendliness/sources.py:74-75 | once a loop has raised, later items change nothing (the fields keep what was appended before the exception) |
| ReviewModel.RunRaisedConcat | shared/ga_friendliness/sources.py:74-75 | a raised run stays as it is whatever follows |
| CsvSource.Cell | shared/ga_friendliness/sources.py:81-82 | a cell is None exactly when its column is present but the row was too short to fill it (the reader's restval); an absent column reads as "" |
| CsvSource.OptionalCell | shared/ga_friendliness/sources.py:90-93 | an optional column gives its text cell when the column is configured and filled, else None |
| CsvSource.RatingCell | shared/ga_friendliness/sources.py:91 | the rating cell is non-empty iff the configured rating cell is truthy |
| CsvSource.RowReview | shared/ga_friendliness/sources.py:87-95 | a row's review has the stripped, upper-cased ICAO, the stripped text, the optional id cell, no AI flag, the source name, and the parsed rating or None |
| CsvSource.RowOutcomeMeaning | shared/ga_friendliness/sources.py:80-95 | a row raises iff its ICAO or text cell is None (a short row) or it is complete but its rating does not parse as a float; it is skipped iff neither cell is None and its stripped ICAO or text is empty; otherwise it gives its review |
| CsvSource.ShortRowRaises | shared/ga_friendliness/sources.py:80-82 | a single short row whose ICAO or text cell is None makes the whole load raise |
| CsvSource.CsvLoadStep | shared/ga_friendliness/sources.py:80-101 | one more row advances the load by that row's outcome |
| CsvSource.RowReviewWellFormed | shared/ga_friendliness/sources.py:81-95 | a complete row's review has a non-empty upper-case ICAO and a non-empty stripped text |
| CsvSource.CsvReviewsWellFormed | shared/ga_friendliness/sources.py:80-101 | every loaded CSV review is well formed |
| CsvSource.CsvKeepsEveryCompleteRow | shared/ga_friendliness/sources.py:80-101 | without an exception, every complete row gives a loaded review with its ICAO and text |
| CsvSource.AfterLoad | shared/ga_friendliness/sources.py:69-101 | loading is memoised; an unreadable file leaves empty lists behind and raises; otherwise the reviews and index are the loop's, including the reviews before a row that raised (a None cell or a bad rating) |
| CsvSource.AfterLoadMemoised | shared/ga_friendliness/sources.py:71-72 | after the first load a second call reads nothing, changes nothing and does not raise |
| CsvSource.LoadRows | shared/ga_friendliness/sources.py:80-101 | the row loop computes the load of the rows and the ICAO index of its reviews |
| CsvSource.CsvReviewSource.LoadReviews | shared/ga_friendliness/sources.py:69-101 | `_load_reviews` moves the fields to the memoised load and reports whether it raised |
| CsvSource.CsvReviewSource.GetReviews | shared/ga_friendliness/sources.py:105-108 | the loaded reviews, or None when loading raised, including on a short row's None cell |
| CsvSource.CsvReviewSource.GetReviewsForIcao | shared/ga_friendliness/sources.py:110-113 | the reviews whose ICAO equals the upper-cased query, in load order |
| CsvSource.CsvReviewSource.GetIcaos | shared/ga_friendliness/sources.py:115-118 | exactly the ICAOs of the loaded reviews |
| CsvSource.CsvReviewSource.SourceName | shared/ga_friendliness/sources.py:120-122 | the configured source name |
| CsvSource.CsvReviewSource.constructor | shared/ga_friendliness/sources.py:33-67 | a new CSV source holds its column configuration and has loaded nothing |
| AirfieldDirectorySource.Filed | shared/ga_friendliness/sources.py:250-253 | one ICAO group's pireps in dictionary order, each filed under the upper-cased ICAO with its own pirep key |
| AirfieldDirectorySource.FlattenConcat | shared/ga_friendliness/sources.py:250-253 | the nested loops over groups and their pireps visit the pireps of two runs of groups one run after the other |
| AirfieldDirectorySource.FlattenIcaos | shared/ga_friendliness/sources.py:250-251 | every visited pirep is filed under the upper-cased ICAO of some group |
| AirfieldDirectorySource.ExportReview | shared/ga_friendliness/sources.py:273-282 | the review keeps the group's ICAO, the picked text, the AI flag and the source name "airfield.directory"; its id is the pirep's "id" when present, else the pirep key |
| AirfieldDirectorySource.PirepOutcomeWellFormed | shared/ga_friendliness/sources.py:255-282 | a kept pirep gives a well-formed review whose text is the stripped picked text |
| AirfieldDirectorySource.ExportItemWellFormed | shared/ga_friendliness/sources.py:250-288 | every parsed review is well formed and carries the upper-cased ICAO of one of the export's groups |
| AirfieldDirectorySource.ExportReviewsWellFormed | shared/ga_friendliness/sources.py:250-288 | all parsed reviews are well formed and come from the export's groups |
| AirfieldDirectorySource.AfterLoadData | shared/ga_friendliness/sources.py:212-226 | `_load_data` is memoised; without data it loads the export iff a path is configured and the file exists, and the loaded data is the file's contents |
| AirfieldDirectorySource.AfterParse | shared/ga_friendliness/sources.py:228-292 | `_parse_reviews` is memoised; when loading raises nothing is set; otherwise the reviews are the export's kept pireps and the index matches them |
| AirfieldDirectorySource.AfterParseMemoised | shared/ga_friendliness/sources.py:230-231 | after a successful parse a second parse changes nothing and does not raise, whatever the file now holds |
| AirfieldDirectorySource.ExportStep | shared/ga_friendliness/sources.py:253-288 | one more pirep advances the parse by that pirep's outcome |
| AirfieldDirectorySource.FlattenSplit | shared/ga_friendliness/sources.py:250-253 | the visited pireps split at any group into those before, the group's own, and those after |
| AirfieldDirectorySource.FlattenRest | shared/ga_friendliness/sources.py:250 | the visited pireps are those of a prefix of the groups followed by those of the rest |
| AirfieldDirectorySource.FlattenStep | shared/ga_friendliness/sources.py:250-253 | the pireps of one more group follow those of the groups before it |
| AirfieldDirectorySource.FiledStep | shared/ga_friendliness/sources.py:253 | the inner loop visits one more pirep after the ones before it |
| AirfieldDirectorySource.FiledNone | shared/ga_friendliness/sources.py:253 | the inner loop starts from what was parsed before and ends with the group's pireps added |
| AirfieldDirectorySource.ParseGroup | shared/ga_friendliness/sources.py:251-288 | the inner loop over one group extends the parse and the ICAO index by that group's pireps |
| AirfieldDirectorySource.ParsePireps | shared/ga_friendliness/sources.py:235-288 | the nested loops compute the parse of all visited pireps and the ICAO index of its reviews |
| AirfieldDirectorySource.FindAirport | shared/ga_friendliness/sources.py:316-321 | returns the first airport whose upper-cased ICAO equals the upper-cased query, and None iff there is none |
| AirfieldDirectorySource.Source.constructor | shared/ga_friendliness/sources.py:168-195 | a new source holds its configuration and has loaded and parsed nothing |
| AirfieldDirectorySource.Source.LoadData | shared/ga_friendliness/sources.py:212-226 | `_load_data` moves the data to the memoised load, raises iff no data results, and leaves the reviews alone |
| AirfieldDirectorySource.Source.ParseReviews | shared/ga_friendliness/sources.py:228-292 | `_parse_reviews` moves the state to the memoised parse and reports whether it raised |
| AirfieldDirectorySource.Source.GetReviews | shared/ga_friendliness/sources.py:294-297 | parses first; returns the parsed reviews, or None iff the parse raised |
| AirfieldDirectorySource.Source.GetReviewsForIcao | shared/ga_friendliness/sources.py:299-302 | parses first; returns the parsed reviews whose ICAO equals the upper-cased query, in order |
| AirfieldDirectorySource.Source.GetIcaos | shared/ga_friendliness/sources.py:304-307 | parses first; returns exactly the ICAOs of the parsed reviews |
| AirfieldDirectorySource.Source.GetAirportData | shared/ga_friendliness/sources.py:309-321 | loads first; returns an airport of the export whose ICAO matches case-insensitively, None iff none matches, and leaves the reviews alone |
| LandingFees.FirstBand | shared/ga_friendliness/sources.py:409-414 | the name of the first band whose inclusive range holds the MTOW, and "fee_band_4000_plus_kg" when none does |
| LandingFees.ContiguousDisjoint | shared/ga_friendliness/sources.py:374-381 | in a table of ascending, adjacent ranges no MTOW lies in two bands |
| LandingFees.ContiguousMonotone | shared/ga_friendliness/sources.py:374-381 | the upper bounds of such a table ascend |
| LandingFees.FirstBandContaining | shared/ga_friendliness/sources.py:409-414 | in such a table the band found is the one band that holds the MTOW |
| LandingFees.ContiguousCover | shared/ga_friendliness/sources.py:374-381 | such a table covers every MTOW between its first lower and last upper bound |
| LandingFees.FeeBandOfMeaning | shared/ga_friendliness/sources.py:374-414 | every MTOW from 0 to 99999 kg lies in exactly one of the six bands and gets that band's name; any other MTOW gets the 4000-plus band |
| LandingFees.FeePrice | shared/ga_friendliness/sources.py:521-541 | an aircraft type contributes iff its lower-cased name is in the MTOW table, its fee list is non-empty and the first entry's "netPrice" (or else "netprice") is truthy and parses as a float; it then contributes that price to its type's band |
| LandingFees.ContributionsMeaning | shared/ga_friendliness/sources.py:521-541 | the collected contributions are exactly the contributions of the fee table's aircraft types |
| LandingFees.BandPricesMeaning | shared/ga_friendliness/sources.py:538-540 | each band's price list is the prices of that band's contributions, in order |
| LandingFees.BandPricesKeys | shared/ga_friendliness/sources.py:538-539 | a band has a price list iff some contribution is for that band |
| LandingFees.SumBounds | shared/ga_friendliness/sources.py:551 | a sum of n prices between lo and hi lies between n·lo and n·hi |
| LandingFees.MeanBounds | shared/ga_friendliness/sources.py:549-552 | a band's average lies between its least and greatest price |
| LandingFees.ContributedBands | shared/ga_friendliness/sources.py:521-552 | a band appears in the result iff some aircraft type contributes a price to it |
| LandingFees.ContributedFrom | shared/ga_friendliness/sources.py:538-540 | a band with prices has a contributing aircraft type, whose position it returns |
| LandingFees.ContributedTo | shared/ga_friendliness/sources.py:538-540 | a contributing aircraft type's band has prices |
| LandingFees.FeeRecordExists | shared/ga_friendliness/sources.py:512-546 | a fee record is stored iff some aircraft type contributes a price |
| LandingFees.FeeRecordBands | shared/ga_friendliness/sources.py:515-552 | the record's bands are exactly the contributed bands, each mapped to the mean of its prices; the currency defaults to "EUR" and the last-changed value is copied |
| LandingFees.ContributionsStep | shared/ga_friendliness/sources.py:521-541 | one more aircraft type adds its contribution, if any, to the end |
| LandingFees.BandPricesAppend | shared/ga_friendliness/sources.py:538-540 | one more contribution appends its price to its band's list |
| LandingFees.ParseFees | shared/ga_friendliness/sources.py:509-553 | the loop over the fee table computes the fee record the table defines, or None |
| AirportJsonSource.FileIcao | shared/ga_friendliness/sources.py:443-456 | a readable file's ICAO is its upper-cased "airfield.data.icao" when that is non-empty, else its upper-cased stem when that has four characters; other files are skipped |
| AirportJsonSource.PirepReview | shared/ga_friendliness/sources.py:464-490 | a pirep gives a review iff it is not dropped as AI-generated and its picked, stripped text (a plain string content is taken as is) is non-empty; the review carries the file's ICAO and that text |
| AirportJsonSource.FileReviewsMeaning | shared/ga_friendliness/sources.py:462-496 | a file's reviews are exactly the reviews of its kept pireps |
| AirportJsonSource.DirLoadWrites | shared/ga_friendliness/sources.py:459-546 | the airport and fee dicts hold, per ICAO, the last value written in file order |
| AirportJsonSource.DirLoadAirports | shared/ga_friendliness/sources.py:441-459 | an ICAO has airport data iff some file yields it, and the data is that of the last such file |
| AirportJsonSource.DirLoadFees | shared/ga_friendliness/sources.py:501-546 | an ICAO has fee data iff some file yielding it has fees, and the data is that of the last such file; a later file without fees leaves it in place |
| AirportJsonSource.FeeDataHasAirportData | shared/ga_friendliness/sources.py:459-504 | every ICAO with fee data has airport data |
| AirportJsonSource.PirepReviewWellFormed | shared/ga_friendliness/sources.py:478-490 | a kept pirep's review is well formed |
| AirportJsonSource.DirLoadReviews | shared/ga_friendliness/sources.py:441-496 | every loaded review is well formed and its ICAO has airport data |
| AirportJsonSource.DirLoadStepReviews | shared/ga_friendliness/sources.py:441-496 | one more file appends its reviews, if it yields an ICAO, after the earlier files' reviews |
| AirportJsonSource.DirLoadKeepsReviews | shared/ga_friendliness/sources.py:441-496 | every kept pirep of every file that yields an ICAO is among the loaded reviews |
| AirportJsonSource.AfterLoad | shared/ga_friendliness/sources.py:425-507 | `_load_data` is memoised; a missing directory raises after all four fields were set to empty; otherwise the fields hold the directory's load and the index matches the reviews |
| AirportJsonSource.MissingDirectoryRemembered | shared/ga_friendliness/sources.py:427-436 | after a missing-directory exception the empty fields make every later load a no-op that does not raise |
| AirportJsonSource.PirepStep | shared/ga_friendliness/sources.py:462-496 | one more pirep extends a file's reviews by its review, if any |
| AirportJsonSource.LoadPireps | shared/ga_friendliness/sources.py:462-496 | the pirep loop appends the file's reviews and keeps the ICAO index in step |
| AirportJsonSource.LoadFiles | shared/ga_friendliness/sources.py:441-504 | the file loop computes the directory's load and the ICAO index of its reviews |
| AirportJsonSource.Source.constructor | shared/ga_friendliness/sources.py:383-407 | a new source holds its configuration and none of the four fields is set |
| AirportJsonSource.Source.LoadData | shared/ga_friendliness/sources.py:425-507 | `_load_data` moves the state to the memoised load and reports whether it raised |
| AirportJsonSource.Source.GetReviews | shared/ga_friendliness/sources.py:555-558 | loads first; returns the loaded reviews, or None iff loading raised |
| AirportJsonSource.Source.GetReviewsForIcao | shared/ga_friendliness/sources.py:560-563 | loads first; returns the reviews whose ICAO equals the upper-cased query, in order |
| AirportJsonSource.Source.GetIcaos | shared/ga_friendliness/sources.py:565-568 | loads first; returns exactly the ICAOs of the loaded reviews |
| AirportJsonSource.Source.GetAirportData | shared/ga_friendliness/sources.py:570-573 | loads first; returns the airport data stored under the upper-cased query, None iff there is none |
| AirportJsonSource.Source.GetFeeData | shared/ga_friendliness/sources.py:575-585 | loads first; returns the fee record stored under the upper-cased query, None iff there is none |
| AirportJsonSource.Source.GetAllFeeData | shared/ga_friendliness/sources.py:587-590 | loads first; returns the whole fee dict |
| CompositeSource.DedupeAppend | shared/ga_friendliness/sources.py:632-643 | one more review advances the deduplication by one step |
| CompositeSource.TruthyIdsAppend | shared/ga_friendliness/sources.py:634-638 | one more review adds its id to the seen ids iff the id is truthy |
| CompositeSource.DedupeMeaning | shared/ga_friendliness/sources.py:629-643 | the kept reviews are those that are not a later copy of a truthy id, and with deduplication on the seen ids are all truthy ids met |
| CompositeSource.KeepersSubsequence | shared/ga_friendliness/sources.py:631-639 | the kept reviews are a subsequence of all fetched reviews, in order |
| CompositeSource.KeepersDisabled | shared/ga_friendliness/sources.py:634 | with deduplication off every review is kept |
| CompositeSource.KeepersKeep | shared/ga_friendliness/sources.py:634-639 | a review that is not a later copy of a truthy id is kept |
| CompositeSource.KeepersDistinctIds | shared/ga_friendliness/sources.py:634-638 | with deduplication on no two kept reviews share a truthy id |
| CompositeSource.KeepersKeepEveryId | shared/ga_friendliness/sources.py:634-638 | every review id met is the id of some kept review |
| CompositeSource.ConcatAppend | shared/ga_friendliness/sources.py:631-632 | the reviews of one more source follow those of the sources before it |
| CompositeSource.CompositeLoadMeaning | shared/ga_friendliness/sources.py:622-643 | the load raises iff some source's `get_reviews` raises; the kept reviews are the deduplicated concatenation of the sources fetched before it, in order, all when deduplication is off and with distinct truthy ids when it is on |
| CompositeSource.DedupeBatch | shared/ga_friendliness/sources.py:632-643 | the inner loop over one source's reviews advances the deduplication state and keeps the ICAO index in step |
| CompositeSource.SourceStep | shared/ga_friendliness/sources.py:631-632 | a source that raises ends the load with what was kept before it; one that returns extends the fetched reviews |
| CompositeSource.LoadSources | shared/ga_friendliness/sources.py:629-643 | the source loop computes the composite load and the ICAO index of its reviews |
| CompositeSource.AfterLoad | shared/ga_friendliness/sources.py:622-643 | `_load_reviews` is memoised; otherwise the fields hold the composite load, kept even when a source raised, and the index matches them |
| CompositeSource.CompositeName | shared/ga_friendliness/sources.py:664-667 | the name is "composite(" then the source names joined by ", " then ")" |
| CompositeSource.Composite.constructor | shared/ga_friendliness/sources.py:604-620 | a new composite holds its sources' names and the deduplication flag, and has loaded nothing |
| CompositeSource.Composite.LoadReviews | shared/ga_friendliness/sources.py:622-647 | `_load_reviews` moves the state to the memoised load and reports whether it raised |
| CompositeSource.Composite.GetReviews | shared/ga_friendliness/sources.py:649-652 | loads first; returns the combined reviews, or None iff loading raised |
| CompositeSource.Composite.GetReviewsForIcao | shared/ga_friendliness/sources.py:654-657 | loads first; returns the combined reviews whose ICAO equals the upper-cased query, in order |
| CompositeSource.Composite.GetIcaos | shared/ga_friendliness/sources.py:659-662 | loads first; returns exactly the ICAOs of the combined reviews |
| CompositeSource.Composite.SourceName | shared/ga_friendliness/sources.py:664-667 | the composite name of the sources' names |
| Airports.C172Fee | shared/prioritization/strategies/cost_optimized.py:55-68 | a fee exists only when the pricing query succeeds with a dict that has "landing_fee_c172" |
| Airports.C172FeeMissing | shared/prioritization/strategies/cost_optimized.py:55-68 | a failing query, no pricing, an empty record, and a missing or None fee all give no fee |
| Airports.C172FeeUnparseable | shared/prioritization/strategies/cost_optimized.py:61-64 | a fee that `float()` rejects ("n/a") gives no fee |
| CostOptimized.PriorityLevel | shared/prioritization/strategies/cost_optimized.py:43-51 | the level is 1 iff the airport is a point of entry with procedures, 2 iff it has procedures but is no point of entry, 3 iff it has no procedures |
| CostOptimized.ScoreOne | shared/prioritization/strategies/cost_optimized.py:41-94 | each scored entry carries its own airport |
| CostOptimized.ScoreOneLevel | shared/prioritization/strategies/cost_optimized.py:43-51 | the level follows the procedure count and the point-of-entry flag; a point of entry without procedures is level 3 |
| CostOptimized.ScoreOneScore | shared/prioritization/strategies/cost_optimized.py:53-93 | the score is the C172 fee when one below 999999 is known (and is then reported); else 900000 plus the route distance when known; else 999999 |
| CostOptimized.ScoreOneLookupFailure | shared/prioritization/strategies/cost_optimized.py:55-68 | a pricing query that raises scores the airport exactly as no pricing data, and as no storage, would |
| CostOptimized.ScoreAll | shared/prioritization/strategies/cost_optimized.py:39-94 | the loop scores every airport once, in input order |
| CostOptimized.InsertMultiset | shared/prioritization/strategies/cost_optimized.py:97 | inserting adds exactly the inserted entry |
| CostOptimized.InsertSorted | shared/prioritization/strategies/cost_optimized.py:97 | inserting into a list sorted by (level, score) keeps it sorted |
| CostOptimized.InsertWithKey | shared/prioritization/strategies/cost_optimized.py:97 | inserting places the entry after every entry with the same key |
| CostOptimized.SortByKeySorted | shared/prioritization/strategies/cost_optimized.py:97 | the sorted list ascends by (level, score) |
| CostOptimized.SortByKeyPermutation | shared/prioritization/strategies/cost_optimized.py:97 | the sorted list is a permutation of the scored list |
| CostOptimized.SortByKeyStable | shared/prioritization/strategies/cost_optimized.py:97 | entries with equal keys keep their input order, as Python's stable sort does |
| CostOptimized.Score | shared/prioritization/strategies/cost_optimized.py:32-99 | `score` returns the scored airports sorted by (level, score) and a permutation of the unsorted scoring |
| CostOptimized.ScoreKeepsAirports | shared/prioritization/strategies/cost_optimized.py:39-99 | every entry of the result scores one of the input airports, with the same multiplicity as before sorting |
| PriorityEngine.RunStrategy | shared/prioritization/priority_engine.py:85-89 | running the registered cost-optimised strategy gives its sorted scoring |
| PriorityEngine.StrategyRegistry.constructor | shared/prioritization/priority_engine.py:37-38 | after import the registry holds exactly the cost_optimized strategy |
| PriorityEngine.StrategyRegistry.Register | shared/prioritization/priority_engine.py:20-24 | registering stores the strategy under its name; a new name is appended to the key order and an existing one keeps its place |
| PriorityEngine.StrategyRegistry.Get | shared/prioritization/priority_engine.py:26-29 | the strategy registered under the name, None iff there is none |
| PriorityEngine.StrategyRegistry.ListAll | shared/prioritization/priority_engine.py:31-34 | exactly the registered names, each once, cost_optimized among them |
| PriorityEngine.ChosenStrategy | shared/prioritization/priority_engine.py:79-82 | the named strategy when registered, else cost_optimized |
| PriorityEngine.Engine.constructor | shared/prioritization/priority_engine.py:52-54 | the engine keeps the enrichment storage it is given |
| PriorityEngine.Engine.Apply | shared/prioritization/priority_engine.py:56-104 | `apply` returns the airports of the first `max_results` entries of the chosen strategy's order, and [] for no airports |
| PriorityEngine.ApplyBounds | shared/prioritization/priority_engine.py:75-104 | no airports give []; otherwise exactly min(`max_results`, number of airports) airports are returned |
| PriorityEngine.ApplyOrdered | shared/prioritization/priority_engine.py:85-104 | every returned airport is an input airport, and with `max_results` at least the input size the result is a permutation of the input |
| PriorityEngine.InsertAirports | shared/prioritization/priority_engine.py:104 | inserting a scored entry adds exactly its airport |
| PriorityEngine.SortKeepsAirports | shared/prioritization/priority_engine.py:85-104 | sorting keeps the multiset of airports |
| Formatting.DetermineKind | shared/aviation_agent/formatting.py:129-153 | "route" exactly for the three route tools, "airport" exactly for the six airport tools, "rules" exactly for the five rules tools, None for every other name |
| Formatting.ToolFamiliesDisjoint | shared/aviation_agent/formatting.py:84-150 | the three tool families share no name, so the order of the tests does not matter |
| Formatting.BuildUiPayload | shared/aviation_agent/formatting.py:63-126 | a payload exists iff the tool result is non-empty and the tool has a kind; it carries that kind and the whole result as `mcp_raw` |
| Formatting.PayloadFieldsFollowTool | shared/aviation_agent/formatting.py:84-113 | departure and destination are set exactly for route tools, `ifr` exactly when the route tool's `ifr` argument is not None, `icao` exactly for airport tools, region and topic exactly for rules tools; each holds the first truthy of its two argument names |
| Formatting.PayloadFlattensResult | shared/aviation_agent/formatting.py:117-124 | filters, visualization and airports are set exactly when the result has "filter_profile", "visualization" or "airports", and copy that value |
| Formatting.SearchPayloadHasNoIcao | shared/aviation_agent/formatting.py:84-103 | a search_airports payload is of kind "route" and never has an `icao`: the first-airport lookup sits in the airport-tools branch, which search_airports never reaches |
| ChatbotCore.ArgumentsText | web/server/chatbot_core.py:109 | the arguments text is never empty: the call's own text when non-empty, else "{}" |
| ChatbotCore.ToolLoopMeaning | web/server/chatbot_core.py:107-130 | the loop executes a prefix of the calls, one step per call in order; it raises iff it stops early, and then the next call's arguments do not decode or its tool executor raises |
| ChatbotCore.ToolLoopRaises | web/server/chatbot_core.py:107-113 | the loop raises iff, for some call, `json.loads` raises on its arguments or `tool_executor` raises on them |
| ChatbotCore.ToolLoopStep | web/server/chatbot_core.py:107-130 | one more call either raises, keeping the steps so far, or appends its step |
| ChatbotCore.ToolLoopAfterRaise | web/server/chatbot_core.py:110 | after a raise later calls change nothing |
| ChatbotCore.FinishAfterTools | web/server/chatbot_core.py:163-172 | once a tool ran, no assistant message is appended, and a result that is returned records the loop's steps |
| ChatbotCore.FinishRaises | web/server/chatbot_core.py:141-161 | the end of a run raises iff the extractor raises, or tools ran, the extracted text is unusable and the formatter raises on the first tool; the history is then left as it was |
| ChatbotCore.ConverseWithoutTools | web/server/chatbot_core.py:76-172 | without tool calls there is one LLM request. The extracted answer is appended as the assistant message, with no tool calls and no visualisations. If the extractor raises, the run raises and nothing is appended |
| ChatbotCore.ConverseFirstCallRaises | web/server/chatbot_core.py:76-82 | when the first LLM call raises, the run raises after that one request with the history untouched |
| ChatbotCore.ConverseWithTools | web/server/chatbot_core.py:88-137 | when every call decodes and its tool runs, the history grows by the assistant turn listing the calls and one tool message per call, in order. A second LLM request without tools follows on that history, and a returned result records each call's name, arguments and tool result |
| ChatbotCore.ToolsRan | web/server/chatbot_core.py:107-137 | when every call runs, the loop does not raise, executes one step per call, and the run leaves the loop's history, the two requests and the loop's records |
| ChatbotCore.ConverseRaises | web/server/chatbot_core.py:107-113 | once the first reply asks for tools, the run makes only that one request iff some call's arguments fail to decode or its tool executor raises. The run then raises, and the history holds the assistant turn and the tool messages of the calls before the failing one |
| ChatbotCore.ConverseSecondCallRaises | web/server/chatbot_core.py:132-137 | when every tool ran and the second LLM call raises, the run raises after two requests, keeping the assistant turn and every tool message in the history |
| ChatbotCore.ConverseFallback | web/server/chatbot_core.py:143-161 | after tools, an unusable final text (empty, under 20 characters, JSON-looking, or containing "path" or "query" keys) is replaced by the first tool's formatted output with empty thinking; a usable one is kept |
| ChatbotCore.ConverseVisualizations | web/server/chatbot_core.py:122-123 | the visualisations are exactly the "visualization" values of the tool results, at most one per call |
| ChatbotCore.MessageList.constructor | web/server/chatbot_core.py:46 | the caller's message list, shared with the run |
| ChatbotCore.MessageList.Append | web/server/chatbot_core.py:91-164 | appending adds the message at the end of the caller's list |
| ChatbotCore.StepAppends | web/server/chatbot_core.py:120-130 | one more step appends its record, its tool message and its visualisation, if any |
| ChatbotCore.RunTool | web/server/chatbot_core.py:108-119 | executing one call gives that call's step, or None when its arguments do not decode or its tool executor raises |
| ChatbotCore.RecordStep | web/server/chatbot_core.py:120-123 | recording a step extends the records and the visualisations by that step |
| ChatbotCore.RunTools | web/server/chatbot_core.py:107-130 | the tool loop leaves the records, visualisations and tool messages of the steps it ran, and reports whether it raised |
| ChatbotCore.FinishRun | web/server/chatbot_core.py:141-164 | the answer with its fallback, and the assistant message appended only when no tool ran; None with nothing appended when the extractor or the formatter raises |
| ChatbotCore.ConverseEnds | web/server/chatbot_core.py:76-172 | the five ways a run ends. The first LLM call raises with the history untouched; or no tools are asked for; or a tool call fails; or every tool runs and the second LLM call raises; or every tool runs and the second call answers |
| ChatbotCore.FinishIs | web/server/chatbot_core.py:141-172 | the end of a run returns the records, their visualisations and the answer, appending the assistant message only when no tool ran. When the answer raises, the history is unchanged |
| ChatbotCore.RunConversation | web/server/chatbot_core.py:44-172 | `run_conversation` leaves the caller's list, the LLM requests and the result as the run defines them. The result is None for a run that raised, wherever it raised |
| McpHandlers.Matching | web/server/mcp_client.py:104-110 | exactly the airports that match the query by ident, name, IATA code or municipality, in database order |
| McpHandlers.MatchingConcat | web/server/mcp_client.py:104 | matching two runs of airports one after the other gives their matches one after the other |
| McpHandlers.Limit | web/server/mcp_client.py:121-122 | the number of matches at which `len(matches) >= max_results` first holds: at least 1, and the least such count |
| McpHandlers.EmptyOccurs | web/server/mcp_client.py:104-110 | the empty query occurs in every string, so it matches every airport |
| McpHandlers.SearchSpecMeaning | web/server/mcp_client.py:99-131 | a search returns the first matches in database order, at most as many as the limit, and all matches when fewer than the limit exist |
| McpHandlers.SearchAtLeastOne | web/server/mcp_client.py:121-122 | with `max_results` at most 0 a search still returns one airport when any matches, because the bound is checked after appending |
| McpHandlers.EmptyQueryMatchesAll | web/server/mcp_client.py:101-122 | an empty query returns the first airports of the database, up to the limit |
| McpHandlers.MatchingAll | web/server/mcp_client.py:104-110 | when every airport matches, all of them are the matches |
| McpHandlers.MatchingPrefix | web/server/mcp_client.py:104 | the matches of the airports split at any point into those before and after |
| McpHandlers.SearchStopsAtBound | web/server/mcp_client.py:121-122 | the loop breaks at the first airport that brings the matches to the bound |
| McpHandlers.SearchRanOut | web/server/mcp_client.py:104-122 | when the bound is never reached the search returns all matches |
| McpHandlers.SearchStep | web/server/mcp_client.py:104-120 | one more airport appends itself and its summary iff it matches |
| McpHandlers.SearchRaises | web/server/mcp_client.py:121 | a `max_results` of None raises at the first match, as `int >= None` does |
| McpHandlers.CollectMatches | web/server/mcp_client.py:102-122 | the search loop computes the summaries of the matches the search defines, or raises |
| McpHandlers.SearchAirports | web/server/mcp_client.py:99-131 | `_search_airports` returns the count, the airports and a markers visualisation of the upper-cased, stripped query's matches |
| McpHandlers.InCountryOnly | web/server/mcp_client.py:251-253 | exactly the airports whose upper-cased country equals the country, in order |
| McpHandlers.WithKey | web/server/mcp_client.py:259-271 | exactly the airports filed under one country key ("Unknown" for no country) |
| McpHandlers.BorderSummariesAppend | web/server/mcp_client.py:263-272 | one more airport appends its summary |
| McpHandlers.GroupedKeys | web/server/mcp_client.py:259-261 | `by_country` has exactly the country keys of the airports, in first-seen order |
| McpHandlers.GroupedBuckets | web/server/mcp_client.py:259-271 | each country's group is the summaries of that country's airports, in order |
| McpHandlers.GroupSizesSum | web/server/mcp_client.py:256-272 | the groups hold as many summaries as there are airports, so "count" is also the total of the groups |
| McpHandlers.GroupEntries | web/server/mcp_client.py:277 | `by_country` lists each key, in first-seen order, with its group |
| McpHandlers.BorderSelectionMeaning | web/server/mcp_client.py:251-253 | a non-empty country filter keeps exactly the airports of that country, whatever the letter case |
| McpHandlers.GroupStep | web/server/mcp_client.py:258-272 | one more airport adds its summary to its country's group, appends a new key once, and appends to the full list |
| McpHandlers.GroupBorderAirports | web/server/mcp_client.py:256-272 | the grouping loop computes the groups, their key order and the list of all summaries |
| McpHandlers.BorderCrossingAirports | web/server/mcp_client.py:247-283 | `_get_border_crossing_airports` returns the count, the groups, the airports and a customs-style markers visualisation of the selected airports, or raises for a non-string filter |
| McpHandlers.FuelPriceKey | web/server/mcp_client.py:413-418 | "avgas" anywhere in the lower-cased type picks the avgas price; else "jeta1" or "jet a1" picks jet A1; else "super" picks superplus; else no price |
| McpHandlers.FuelEntry | web/server/mcp_client.py:405-425 | a fuel entry carries the fuel type (default "Unknown"), the truthiness of "available" and the provider |
| McpHandlers.FuelEntryPricing | web/server/mcp_client.py:409-418 | without pricing the price and currency are None; with pricing the currency defaults to "EUR" and the price is read from the key the fuel type selects; a non-string fuel type raises at `.lower()` |
| McpHandlers.FuelEntriesStep | web/server/mcp_client.py:404-425 | one more fuel appends its entry or raises |
| McpHandlers.FuelEntriesRaises | web/server/mcp_client.py:404-425 | the fuel loop raises iff some fuel's entry raises |
| McpHandlers.FuelEntriesValues | web/server/mcp_client.py:404-425 | without a raise there is one entry per fuel, in order |
| McpHandlers.FuelPricesFound | web/server/mcp_client.py:390-402 | "found": False is returned iff there are no fuels and no pricing |
| McpHandlers.BuildFuelList | web/server/mcp_client.py:403-425 | the fuel loop computes the entries the fuels define, or raises |
| McpHandlers.FuelEntriesAfterRaise | web/server/mcp_client.py:404-425 | once a fuel raised the loop raises whatever follows |
| McpHandlers.GetFuelPrices | web/server/mcp_client.py:388-438 | `_get_fuel_prices` queries the stripped, upper-cased ICAO and returns the dict the fuels and pricing define, or raises |
| McpClient.ToolOf | web/server/mcp_client.py:63-86 | a name picks a handler only when it is that handler's tool name |
| McpClient.ToolOfName | web/server/mcp_client.py:63-86 | every handler is reached by its own tool name, so the eleven names are distinct |
| McpClient.Loaded | web/server/mcp_client.py:47-57 | the model is loaded only while unset; a failing database load sets nothing; a failing enrichment storage leaves the model set without it |
| McpClient.MaxResultsArg | web/server/mcp_client.py:99 | `max_results` defaults to 20 when not passed |
| McpClient.CallToolValid | web/server/mcp_client.py:47-57 | a call never leaves an enrichment storage without a model |
| McpClient.LoadedOnce | web/server/mcp_client.py:47 | once the model is set, later calls load nothing and change no attribute |
| McpClient.LoadFailure | web/server/mcp_client.py:47-97 | when the database load or the enrichment storage raises, the call returns `{"error": str(e)}` and runs no tool; a failing database load changes nothing, so the next call tries again, while a failing enrichment storage leaves the model set |
| McpClient.UnknownTool | web/server/mcp_client.py:47-97 | when loading raises the call returns the exception's error dict; otherwise `{"error": "Unknown tool: <name>"}` is returned iff the name is no handler's |
| McpClient.HandlerRaises | web/server/mcp_client.py:63-96 | a handler that raises (bad keywords included) makes the call return `{"error": str(e)}` |
| McpClient.EnrichmentFailureSticks | web/server/mcp_client.py:47-96 | when the enrichment storage fails on the first load, this and every later fuel-price call returns an error, since the model is never reloaded |
| McpClient.SearchDispatch | web/server/mcp_client.py:47-99 | `search_airports` with only a query runs the search with the default of 20 results, unless loading raised on this call, which gives the error dict |
| McpClient.Dispatch | web/server/mcp_client.py:63-86 | the if-chain runs the handler the tool names |
| McpClient.Client.constructor | web/server/mcp_client.py:21-31 | a new client has no database model and no enrichment storage |
| McpClient.Client.CallTool | web/server/mcp_client.py:33-97 | `_call_tool` sets the attributes and returns the result as the call specification defines (an exception while loading, including the enrichment storage's, returns the error dict before any tool runs), and keeps the storage tied to the model |
| BasicFilters.CountryFilterMeaning | shared/filtering/filters/basic_filters.py:17-27 | an empty or missing country passes every airport; a country code passes exactly the airports of that country, whatever the letter case of either |
| BasicFilters.CountryFilterExclusive | shared/filtering/filters/basic_filters.py:25-27 | no airport passes two different country codes |
| BasicFilters.FlagFiltersPassWithoutValue | shared/filtering/filters/basic_filters.py:42-97 | the procedures, AIP-data, hard-runway and point-of-entry filters pass every airport when no value is given |
| BasicFilters.FlagFiltersComplementary | shared/filtering/filters/basic_filters.py:36-99 | each flag filter passes an airport for exactly one of True and False |
| BasicFilters.FlagFilterTruthiness | shared/filtering/filters/basic_filters.py:45-99 | a flag filter compares with the value's truthiness, so the string "no" asks for the flag to be set |
| RunwayFilters.RunwayFiltersInactive | shared/filtering/filters/runway_filters.py:23-56 | no value, or one `float()` rejects, passes every airport |
| RunwayFilters.RunwayFiltersNeedData | shared/filtering/filters/runway_filters.py:31-60 | with a usable value an airport without runway data is excluded |
| RunwayFilters.RunwayFiltersCompare | shared/filtering/filters/runway_filters.py:35-62 | the maximum filter keeps runways no longer than the value, the minimum filter those at least as long, and both together exactly the value |
| RunwayFilters.RunwayFiltersMonotone | shared/filtering/filters/runway_filters.py:35-62 | raising the maximum keeps every airport it kept; lowering the minimum likewise |
| PricingFilters.LandingFeeGuards | shared/filtering/filters/pricing_filters.py:23-32 | no value passes; without enrichment storage any value, even unparseable, excludes |
| PricingFilters.LandingFeeUnparseableValue | shared/filtering/filters/pricing_filters.py:29-32 | with storage, a value `float()` rejects passes every airport |
| PricingFilters.LandingFeeMissingData | shared/filtering/filters/pricing_filters.py:34-51 | with a usable value an airport without a C172 fee (failing query, no pricing, no or bad fee) is excluded |
| PricingFilters.LandingFeeCompare | shared/filtering/filters/pricing_filters.py:44-46 | an airport passes iff its C172 fee is at most the value; raising the value keeps every airport it kept |
| FuelFilters.FuelTypeLower | shared/filtering/filters/fuel_filters.py:35-71 | a fuel type is read only from a dict entry |
| FuelFilters.FuelMatches | shared/filtering/filters/fuel_filters.py:35-72 | a fuel's test is defined exactly when its type can be read and lower-cased |
| FuelFilters.AnyFuelExists | shared/filtering/filters/fuel_filters.py:34-74 | on a well-formed fuel list `any` is true iff some fuel is of the type and available |
| FuelFilters.AnyFuelShortCircuits | shared/filtering/filters/fuel_filters.py:34-42 | `any` stops at the first match, so a malformed entry after it is never read, while one before it raises and excludes the airport |
| FuelFilters.FuelFilterMeaning | shared/filtering/filters/fuel_filters.py:23-76 | with a truthy value and a well-formed fuel list an airport passes iff some fuel is of the type and available |
| FuelFilters.FuelFilterOrderFree | shared/filtering/filters/fuel_filters.py:34-37 | on well-formed lists the order of the fuels does not matter |
| FuelFilters.FuelFilterGuards | shared/filtering/filters/fuel_filters.py:23-79 | a falsy value passes; without storage, with no fuels, or with a failing query the airport is excluded |
| FuelFilters.JetATypeSimplified | shared/filtering/filters/fuel_filters.py:69-71 | the "jet a1" test is subsumed by "jet a", so the Jet A filter is the "jeta1" or "jet a" test |
| AnswerQuality.IcaoCodesMeaning | tests/langsmith_tests/evaluators/answer_quality.py:11-15 | every extracted code is four characters of the upper-cased text, a letter then three upper-case letters or digits; every such word-bounded occurrence is extracted |
| AnswerQuality.NoCodeInsideWord | tests/langsmith_tests/evaluators/answer_quality.py:14-15 | a five-letter word yields no code, and lower-case codes are found after upper-casing: "EGLLX" gives none, "egll and LFPG" gives EGLL and LFPG |
| AnswerQuality.Mentioned | tests/langsmith_tests/evaluators/answer_quality.py:53-54 | exactly the expected keywords whose lower-cased form occurs in the lower-cased answer, in order |
| AnswerQuality.Unmentioned | tests/langsmith_tests/evaluators/answer_quality.py:55 | exactly the expected keywords whose lower-cased form does not occur in the answer, in order |
| AnswerQuality.KeywordsPartition | tests/langsmith_tests/evaluators/answer_quality.py:54-55 | the mentioned and missing keywords together are the expected keywords, as a multiset |
| AnswerQuality.CodesFound | tests/langsmith_tests/evaluators/answer_quality.py:59-63 | exactly the listed ICAOs that are among the extracted codes, in order |
| AnswerQuality.CodesMissing | tests/langsmith_tests/evaluators/answer_quality.py:60 | exactly the listed ICAOs that are not among the extracted codes, in order |
| AnswerQuality.MentionsScoreRange | tests/langsmith_tests/evaluators/answer_quality.py:65-72 | the score lies in [0, 1]; it is 1 iff everything expected was found and nothing unwanted was; five or more unwanted codes give 0 |
| AnswerQuality.Strings | tests/langsmith_tests/evaluators/answer_quality.py:41-54 | a list is usable as keywords iff every element is a string, and then gives those strings in order |
| AnswerQuality.AnswerMentionsMeaning | tests/langsmith_tests/evaluators/answer_quality.py:18-98 | the result has key "answer_mentions"; a falsy answer scores 0; any score lies in [0, 1] |
| AnswerQuality.AnswerMentionsScored | tests/langsmith_tests/evaluators/answer_quality.py:57-98 | once scoring is reached, a missing expected ICAO that is not a string makes the comment's join raise, giving the error result with score 0; when every missing one is a string the score is the answer's score against the expectations |
| AnswerQuality.AnswerScoreRange | tests/langsmith_tests/evaluators/answer_quality.py:53-72 | an answer scores 1 iff it mentions every keyword, includes every expected ICAO and none of the excluded ones |
| AnswerQuality.MentionedAll | tests/langsmith_tests/evaluators/answer_quality.py:54-68 | all keywords count as found iff every keyword occurs in the answer |
| AnswerQuality.CodesFoundAll | tests/langsmith_tests/evaluators/answer_quality.py:59 | all expected ICAOs count as found iff every one is among the extracted codes |
| AnswerQuality.CodesFoundNone | tests/langsmith_tests/evaluators/answer_quality.py:63-71 | no unwanted code is found iff none of the excluded ICAOs is among the extracted codes, so no penalty applies |
| AnswerQuality.CodesPartition | tests/langsmith_tests/evaluators/answer_quality.py:59-60 | the found and missing ICAOs together are the expected ones |
| AnswerQuality.WordCount | tests/langsmith_tests/evaluators/answer_quality.py:123 | `len(answer.split())` is at most the length of the answer |
| AnswerQuality.WordCountAllSpace | tests/langsmith_tests/evaluators/answer_quality.py:123 | an answer of whitespace only has no words |
| AnswerQuality.LengthScoreBands | tests/langsmith_tests/evaluators/answer_quality.py:126-137 | 0.3 exactly under 10 words, 0.7 exactly from 10 to 29 words or over 500, 1.0 exactly from 30 to 500 |
| AnswerQuality.AnswerLengthMeaning | tests/langsmith_tests/evaluators/answer_quality.py:101-150 | a falsy answer scores 0; a non-empty answer scores the band of its word count, so a whitespace-only answer scores 0.3 |
| AnswerQuality.FormatScoreValues | tests/langsmith_tests/evaluators/answer_quality.py:172-176 | the format score is a third per markdown feature present: 1 iff headers, lists and bold are all present, 0 iff none is |
| FilterExtraction.Normalize | tests/langsmith_tests/evaluators/filter_extraction.py:10-14 | non-strings are returned unchanged; a string stays a string no longer than before |
| FilterExtraction.NormalizeIdempotent | tests/langsmith_tests/evaluators/filter_extraction.py:10-14 | normalising twice is normalising once |
| FilterExtraction.NormalizeIgnoresCaseAndSpaces | tests/langsmith_tests/evaluators/filter_extraction.py:12-65 | upper-casing or stripping a string first changes nothing, so the comparison ignores case and surrounding whitespace |
| FilterExtraction.Classify | tests/langsmith_tests/evaluators/filter_extraction.py:60-68 | an expected filter counts as missing iff the actual filters lack its key |
| FilterExtraction.TallyWithPartition | tests/langsmith_tests/evaluators/filter_extraction.py:55-68 | every expected filter is counted exactly once as missing, incorrect or correct, and the missing ones are exactly those whose key is absent |
| FilterExtraction.TallyPartition | tests/langsmith_tests/evaluators/filter_extraction.py:55-70 | the missing, incorrect and correct counts add up to the number of expected filters |
| FilterExtraction.AllRightNothingMissing | tests/langsmith_tests/evaluators/filter_extraction.py:59-71 | when every expected filter is correct, every expected key is present |
| FilterExtraction.TallyStep | tests/langsmith_tests/evaluators/filter_extraction.py:59-68 | one more expected filter advances the tally by its own classification |
| FilterExtraction.CompareFilters | tests/langsmith_tests/evaluators/filter_extraction.py:55-68 | the comparison loop computes the tally the expected and actual filters define |
| FilterExtraction.EvaluateFilterExtraction | tests/langsmith_tests/evaluators/filter_extraction.py:17-93 | `evaluate_filter_extraction` returns the result the run, the example and the exception text define: the expected filters are read before the actual ones are used, and non-dict actual filters go through `in` as Python does |
| FilterExtraction.ExtractionScoreRange | tests/langsmith_tests/evaluators/filter_extraction.py:33-71 | no plan scores 0, falsy expected filters give no score, and any score lies in [0, 1] |
| FilterExtraction.LoopFilters | tests/langsmith_tests/evaluators/filter_extraction.py:59-63 | a dict of filters is used as it is; any other value passes the loop, as an empty dict, exactly when `key in filters` is False for every expected key, and raises otherwise |
| FilterExtraction.NonDictFiltersMissing | tests/langsmith_tests/evaluators/filter_extraction.py:59-71 | non-dict actual filters that hold none of the expected keys score 0, with every expected key reported missing |
| FilterExtraction.AllMissing | tests/langsmith_tests/evaluators/filter_extraction.py:59-61 | against no filters every expected key is missing, in order, and none is correct or incorrect |
| FilterExtraction.ExtraKeys | tests/langsmith_tests/evaluators/filter_extraction.py:116 | exactly the actual filter keys that no expected filter has |
| FilterExtraction.CompletenessMeaning | tests/langsmith_tests/evaluators/filter_extraction.py:118-131 | with expected filters the completeness score is 1 iff every expected key is present, else 0 |
| FilterExtraction.ExtractionImpliesCompleteness | tests/langsmith_tests/evaluators/filter_extraction.py:59-122 | a perfect extraction score implies a perfect completeness score |
| ToolSelection.ToolSelectionMeaning | tests/langsmith_tests/evaluators/tool_selection.py:10-62 | no plan scores 0; a falsy expected tool gives no score; otherwise the score is 1 iff the plan's selected tool equals the expected one, else 0 |
| ToolSelection.DictOrObjectAlike | tests/langsmith_tests/evaluators/tool_selection.py:27-34 | a plan given as a non-empty dict and one given as an object with the same fields are judged alike |
| ToolSelection.EmptyDictPlan | tests/langsmith_tests/evaluators/tool_selection.py:27-32 | an empty dict plan is falsy and scores 0 with the no-plan comment, exactly like no plan |
| ToolSelection.ToolExecutionMeaning | tests/langsmith_tests/evaluators/tool_selection.py:65-113 | the score is always set: 0 iff there is an error or no tool result; 1 iff no error and a dict result with truthy "airports", "routes" or "borders"; 0.5 otherwise |
| EvalRuns.PlanField | tests/langsmith_tests/evaluators/tool_selection.py:34 | a field read from a dict plan by key and from an object plan by attribute, with the default for no plan |
| EvalRuns.ExpectedOf | tests/langsmith_tests/evaluators/tool_selection.py:37 | `example.outputs.get("expected", {})` is usable iff it is a dict |
| EvalRuns.Iterable | tests/langsmith_tests/evaluators/answer_quality.py:54-60 | iterating a list gives its items, a string its characters, a dict its keys; None, booleans and numbers are not iterable |
| EvalRuns.Ratio | tests/langsmith_tests/evaluators/filter_extraction.py:71 | a ratio of hits to a positive total lies in [0, 1] and is 1 iff every item is a hit |
| PyValue.Str | shared/filtering/filters/basic_filters.py:25 | `str` of a string is the string itself, of an int its decimal text, of None the text "None" |
| PyValue.ReprQuote | tests/langsmith_tests/evaluators/filter_extraction.py:68 | `repr` quotes a string with a double quote only when it holds a single quote and no double quote; the chosen quote does not occur in the text unless both kinds do |
| PyValue.CharRepr | tests/langsmith_tests/evaluators/filter_extraction.py:68 | each character is written as itself or as an escape of at most four characters starting with a backslash, and never as a control character |
| PyValue.Escape | tests/langsmith_tests/evaluators/filter_extraction.py:68 | the escaped text of a string is at least as long as the string and holds no control character, so `repr` always fits on one line |
| PyValue.StrRepr | tests/langsmith_tests/evaluators/filter_extraction.py:68 | `repr` of a string (as shown inside a list or dict) starts and ends with the same quote `ReprQuote(s)` and holds no control character |
| PyValue.EscapeRoundTrip | tests/langsmith_tests/evaluators/filter_extraction.py:68 | reading the escapes back (`\t`, `\n`, `\r`, `\xhh`, an escaped quote or backslash) gives the original string, for either quote |
| PyValue.StrReprRoundTrip | tests/langsmith_tests/evaluators/filter_extraction.py:68 | the text between the quotes of `repr(s)` reads back as `s` |
| PyValue.StrReprPlain | tests/langsmith_tests/evaluators/filter_extraction.py:68 | printable ASCII text without a backslash and with at most one kind of quote is shown as itself between quotes |
| PyValue.LeadingZeros | tests/langsmith_tests/evaluators/filter_extraction.py:68 | a fraction in (0, 1) has `z` zeros before its first significant digit exactly when f·10^z < 1 <= f·10^(z+1) |
| PyValue.DecimalExponentBounds | tests/langsmith_tests/evaluators/filter_extraction.py:68 | the decimal exponent `e` of a positive float is the one with 10^e <= a < 10^(e+1) |
| PyValue.UsesExponentRange | tests/langsmith_tests/evaluators/filter_extraction.py:68 | float `repr` uses scientific notation (decimal exponent below -4 or from 16 up) exactly for magnitudes below 0.0001 or from 10^16 up |
| PyValue.SignificantDigits | tests/langsmith_tests/evaluators/filter_extraction.py:68 | the significant digits of a positive float are 1 to 17 decimal digits, the first and the last non-zero |
| PyValue.ExponentText | tests/langsmith_tests/evaluators/filter_extraction.py:68 | the exponent is written with a sign and at least two digits (`e-05`, `e+16`) |
| PyValue.Scientific | tests/langsmith_tests/evaluators/filter_extraction.py:68 | scientific notation holds an `e` |
| PyValue.Positional | tests/langsmith_tests/evaluators/filter_extraction.py:68 | positional notation holds only digits and the point |
| PyValue.FloatReprWhole | tests/langsmith_tests/evaluators/filter_extraction.py:68 | a whole float below 10^16 is written as its integer digits followed by `.0` |
| PyValue.FloatReprNotation | tests/langsmith_tests/evaluators/filter_extraction.py:68 | the text of a float holds an `e` exactly when it is non-zero and its magnitude is below 0.0001 or at least 10^16 |

## Left out

- Regex matching in the notification parser: the compiled patterns are not modelled. Each pattern's `search` result is a boolean input and each `finditer` result is a sequence of captured groups (`TextMatches`). Whether the hours pattern matched is taken to be "its match sequence is non-empty".
- `OPERATING_HOURS_PATTERN` and the rule fields `hours_start`/`hours_end` are never used or set by the parser, so they are not modelled.
- The LLM fallback `_parse_with_llm` is modelled as what it does: it always returns an empty list. Its logging is left out.
- `NotificationScorer` is imported by the notification package, but its source file is not part of this model.
- File, database and network I/O are parameters. `RulesManager.load_rules` gets the file contents as a `RulesFile` value (missing, unreadable, list, `questions` object, other JSON). The CSV source gets a `CsvFile`, the airfield-directory source an `ExportFile`, and the JSON directory source a `DirectoryListing` of parsed files. The composite source gets each sub-source's `get_reviews()` outcome, with None standing for an exception.
- JSON parsing and `json.dumps` are not modelled. Parsed documents are `PyValue.Value` trees, or typed records (`Rules.Rule`, `AirportJsonSource.AirportJson`) where the source reads fixed keys. Serialised tool results are opaque strings from the tool executor oracle.
- `AirfieldDirectorySource.fetch_data` only raises, so it is not modelled.
- The MCP client's euro_aip model and enrichment-storage loading is a `Backend` parameter: one query for the model, one for the storage, and the exception text. Only `_search_airports`, `_get_border_crossing_airports` and `_get_fuel_prices` are modelled. `find_airports_near_route`, `get_airport_details`, `get_airport_statistics`, `get_airport_pricing`, `get_pilot_reviews`, `web_search`, `list_rules_for_country` and `compare_rules_between_countries` go to the `others` oracle. Those handlers do network lookups (`_web_search` scrapes DuckDuckGo), float statistics or rules-file loading.
- The HTTP client and the `RulesManager` that `MCPClient.__init__` creates are not modelled. The modelled constructor only leaves the model and the enrichment storage unset; the base URL it stores is not used by the modelled handlers.
- Floating point: scores, confidences, fee means and evaluator ratios are exact `real`s, with no IEEE rounding. The percentage rounding in `_get_airport_statistics` and the average rating in `_get_pilot_reviews` are part of the unmodelled handlers.
- Case mapping (`upper`/`lower`) is ASCII-only. Non-ASCII letters are left unchanged. `str.isspace` is modelled with Python's exact whitespace set.
- Python set iteration order is modelled as sorted order. This affects the common and only-in id lists of `compare_rules_between_countries`, the first three only-in items shown in the comparison summary, and the order in which the filter evaluator lists extra keys.
- Composite deduplication compares review ids by structural `Value` equality. Python's hash equality of `1`, `1.0` and `True` is not modelled.
- The bullet character in `format_rules_for_display` is kept exactly as the source spells it: three code points (U+00E2 U+20AC U+00A2) that are a mis-decoded "•".
- Logging is not modelled anywhere. This includes `adapters/logging.py` and the per-priority counting loop in `PriorityEngine.apply`, which only feeds a log message.
- The LLM orchestration layer (planning, the LangGraph graph and runner, `build_formatter_runnable`, streaming adapters), the FastAPI routers, the authentication configuration, the Android app and the evaluation scripts and datasets are outside the modelled core.
- Airports.C172Fee: its own ensures gives only necessary conditions for a fee. The full meaning, all the cases with no fee, is stated by the `C172FeeMissing` and `C172FeeUnparseable` lemmas.
- FilterExtraction.Classify: its own ensures states only the missing case. The correct and incorrect cases and the exactly-once classification are stated by the evaluator's lemmas listed above.
- Rules.Rule: a JSON `null` field is modelled as an absent key. In Python `rule.get(key, default)` returns None for a null value, not the default.
- Rules.IndexPlacement: a rule whose `country_code` (or `category`) is `null` is filed under the UNKNOWN (or General) bucket. Python files it under the key None.
- RulesManagerClass.LoadStateMeaning: a rule with `"tags": null` makes `_build_index` raise TypeError. Python's `load_rules` then returns False, with `self.rules` already replaced, the index partly built, and `loaded` unchanged. The model treats null tags as no tags and loads normally.
- RulesManagerClass.RulesManager.LoadRules: the same null-tags case returns True here, where Python returns False after replacing the rules.
- Rules.Rule, `question` and `answer_html`: a `null` value reads as absent. In Python a search term makes `None.lower()` raise; a null answer_html raises only when the question does not match. The display prints "None" for a null question and raises in the tag stripping for a null answer_html.
- PyStr.ParseFloat: Python's `float()` also accepts `inf`, `infinity` and `nan` in any case, with a sign, and underscores between digits (`1_000`). `ParseFloat` gives None for all of these. Non-finite floats are not representable as `real`, and the underscore form is not modelled.
- PyValue.ToFloat: strings go through `ParseFloat`, with the same gaps.
- PyValue.StrRepr: non-ASCII characters are written as they are. Python's `repr` escapes the ones the Unicode database classes as non-printable (`\xa0`, `\u2028` and others) as `\xhh`, `\uxxxx` or `\Uxxxxxxxx`. The Unicode database is not modelled, so `PyValue.Repr` and `PyValue.Str` of lists and dicts holding such text differ from Python's.
- PyValue.FloatRepr: the model's floats are exact reals, and their digits are cut off, not rounded. A real with more than 17 significant digits (1/3, say) keeps its first 17 in scientific notation and 17 digits after the point in positional notation. Python rounds to at most 17 significant digits, the shortest that read back as the same double. So the incorrect-filter notes of the filter evaluator and the tool-selection comments can show a longer or differently ending float text than Python for such values. `inf` and `nan` are not `real`s and have no text here.
- CsvSource.RowOutcomeMeaning: a rating of `inf`, `nan` or `1_000` raises in the model. Python parses it and keeps the row.
- LandingFees.FeePrice: a `netPrice` of `inf`, `nan` or `1_000` contributes no price here. Python contributes it.
- Airports.C172FeeUnparseable: "n/a" is rejected as in Python, but `inf`, `nan` and `1_000` are also treated as unparseable here, which Python does not do.
- CostOptimized.ScoreOneScore: a C172 fee of `-inf` or `1_000` gives no fee here. In Python it is below 999999, so it becomes the score. `inf` and `nan` agree with the model, since neither is below 999999.
- RunwayFilters.RunwayFiltersInactive: a filter value of `inf`, `nan` or `1_000` passes every airport here. Python compares the runway length against the parsed float, so `nan` excludes every airport.
- PricingFilters.LandingFeeUnparseableValue: a maximum fee of `inf`, `nan` or `1_000` passes every airport here. Python compares the airport's fee against the parsed float. A stored fee in one of those forms likewise excludes the airport here, where Python compares it.
- AnswerQuality.IcaoCodes: the word boundaries of `\b[A-Z][A-Z0-9]{3}\b` use ASCII word characters. Python's `\b` is Unicode-aware, so "ÉEGLL" yields no code there but yields EGLL here.
- AnswerQuality.AnswerFormat: the three markdown regular-expression searches are not modelled. Their outcomes on the answer are a `search` parameter.
- AirportJsonSource.AirportFile: a file that is not valid UTF-8 raises `UnicodeDecodeError` out of the loader, since `_parse_airport_file` catches only JSON and I/O errors. The model has no such case.
