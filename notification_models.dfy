/**
  The records of the notification-rule agent: the rule and notification
  kinds, one extracted `NotificationRule`, the `ParsedNotificationRules` of an
  airport with its derived properties and summary, and the `HassleScore`
  computed from a parse.
 */
module NotificationModels {
  import opened Wrappers
  import opened PyStr

  datatype RuleType = PPR | PN | CUSTOMS | IMMIGRATION | HANDLING

  datatype NotificationType =
    | HOURS | BUSINESS_DAY | SPECIFIC_TIME | ON_REQUEST | H24 | AS_AD_HOURS | NOT_AVAILABLE | UNKNOWN

  /** 0 is Monday, 6 is Sunday (the field validators allow 0..6 only). */
  type Weekday = d: int | 0 <= d <= 6

  /** Extraction confidence, validated to lie in [0, 1]. */
  type Confidence = c: real | 0.0 <= c <= 1.0

  /** AIP field id of the customs/immigration entry. */
  const CustomsFieldId: int := 302

  datatype NotificationRule = NotificationRule(
    ruleType: RuleType,
    notificationType: NotificationType,
    hoursNotice: Option<int>,
    weekdayStart: Option<Weekday>,
    weekdayEnd: Option<Weekday>,
    includesHolidays: bool,
    businessDayOffset: Option<int>,
    specificTime: Option<string>,
    hoursStart: Option<string>,
    hoursEnd: Option<string>,
    isObligatory: bool,
    schengenOnly: bool,
    nonSchengenOnly: bool,
    rawText: Option<string>,
    confidence: Confidence,
    extractionMethod: string)

  /** A rule with every optional field at its declared default. */
  function DefaultRule(ruleType: RuleType, kind: NotificationType, raw: string, confidence: Confidence): (r: NotificationRule)
    ensures r.ruleType == ruleType && r.notificationType == kind && r.rawText == Some(raw)
    ensures r.confidence == confidence && r.hoursNotice.None? && r.weekdayStart.None? && r.weekdayEnd.None?
    ensures !r.includesHolidays && !r.schengenOnly && !r.nonSchengenOnly && r.isObligatory
    ensures r.businessDayOffset.None? && r.specificTime.None? && r.extractionMethod == "regex"
  {
    NotificationRule(ruleType, kind, None, None, None, false, None, None, None, None,
                     true, false, false, Some(raw), confidence, "regex")
  }

  const DayNames: seq<string> := ["MON", "TUE", "WED", "THU", "FRI", "SAT", "SUN"]

  /** `NotificationRule.get_weekday_description` */
  function WeekdayDescription(start: Option<Weekday>, end: Option<Weekday>): (s: string)
    ensures start.None? ==> s == "all days"
    ensures start.Some? && end.None? ==> s == DayNames[start.value]
    ensures start == Some(0) && end == Some(4) ==> s == "weekdays"
    ensures start == Some(5) && end == Some(6) ==> s == "weekends"
    ensures (start.Some? && end.Some? && !(start.value == 0 && end.value == 4) && !(start.value == 5 && end.value == 6))
      ==> s == DayNames[start.value] + "-" + DayNames[end.value]
  {
    if start.None? then "all days"
    else if end.None? then DayNames[start.value]
    else if start.value == 0 && end.value == 4 then "weekdays"
    else if start.value == 5 && end.value == 6 then "weekends"
    else DayNames[start.value] + "-" + DayNames[end.value]
  }

  lemma DayNamesDistinct(i: Weekday, j: Weekday)
    requires DayNames[i] == DayNames[j]
    ensures i == j
  {
  }

  /** Once a start day is present, the description determines the day range. */
  lemma WeekdayDescriptionInjective(s1: Weekday, e1: Option<Weekday>, s2: Weekday, e2: Option<Weekday>)
    requires WeekdayDescription(Some(s1), e1) == WeekdayDescription(Some(s2), e2)
    ensures s1 == s2 && e1 == e2
  {
    var d1 := WeekdayDescription(Some(s1), e1);
    var d2 := WeekdayDescription(Some(s2), e2);
    assert |DayNames[s1]| == 3 && |DayNames[s2]| == 3;
    if e1.Some? && e2.Some? {
      var r1 := e1.value == 0 || e1.value == 4 || e1.value == 5 || e1.value == 6;
      if |d1| == 7 {
        assert d1[..3] == DayNames[s1] && d2[..3] == DayNames[s2];
        assert d1[4..] == DayNames[e1.value] && d2[4..] == DayNames[e2.value];
        DayNamesDistinct(s1, s2);
        DayNamesDistinct(e1.value, e2.value);
      } else {
        assert d1 == "weekdays" || d1 == "weekends";
      }
    } else if e1.None? && e2.None? {
      DayNamesDistinct(s1, s2);
    }
  }

  datatype ParsedNotificationRules = ParsedNotificationRules(
    icao: string,
    rules: seq<NotificationRule>,
    rawText: string,
    sourceStdFieldId: int,
    parseWarnings: seq<string>)

  predicate HasRules(p: ParsedNotificationRules) {
    |p.rules| > 0
  }

  /** `is_h24`: some rule is an H24 rule. */
  predicate IsH24(p: ParsedNotificationRules) {
    exists i :: 0 <= i < |p.rules| && p.rules[i].notificationType == H24
  }

  /** `is_on_request`: every rule is on-request, and there is at least one. */
  predicate IsOnRequest(p: ParsedNotificationRules) {
    (forall i :: 0 <= i < |p.rules| ==> p.rules[i].notificationType == ON_REQUEST) && HasRules(p)
  }

  lemma NoRulesNotOnRequest(p: ParsedNotificationRules)
    requires !HasRules(p)
    ensures !IsOnRequest(p) && !IsH24(p)
  {
  }

  /** `max_hours_notice`: the largest hours_notice present, None when no rule has one. */
  function MaxHoursNotice(rules: seq<NotificationRule>): (m: Option<int>)
    ensures m.None? <==> forall i :: 0 <= i < |rules| ==> rules[i].hoursNotice.None?
    ensures m.Some? ==> forall i :: 0 <= i < |rules| && rules[i].hoursNotice.Some? ==> rules[i].hoursNotice.value <= m.value
    ensures m.Some? ==> exists i :: 0 <= i < |rules| && rules[i].hoursNotice == m
  {
    if rules == [] then None
    else
      var rest := MaxHoursNotice(rules[1..]);
      var h := rules[0].hoursNotice;
      if h.None? then rest
      else if rest.None? || rest.value < h.value then h
      else rest
  }

  /** The fragment a rule contributes to the summary, or None when it contributes none. */
  function SummaryFragment(r: NotificationRule): Option<string> {
    if r.notificationType == HOURS && r.hoursNotice.Some? && r.hoursNotice.value != 0 then
      var desc := WeekdayDescription(r.weekdayStart, r.weekdayEnd);
      var ppr := "PPR " + IntToString(r.hoursNotice.value) + "h";
      Some(if desc == "all days" then ppr else desc + ": " + ppr)
    else if r.notificationType == BUSINESS_DAY then
      var timeStr := if r.specificTime.Some? && r.specificTime.value != "" then " before " + r.specificTime.value else "";
      Some("Last business day" + timeStr)
    else if r.notificationType == ON_REQUEST then Some("O/R")
    else None
  }

  predicate ContributesToSummary(r: NotificationRule) {
    SummaryFragment(r).Some?
  }

  /** Fragments of the rules, in rule order. */
  function SummaryFragments(rules: seq<NotificationRule>): seq<string> {
    if rules == [] then []
    else
      var last := SummaryFragment(rules[|rules| - 1]);
      SummaryFragments(rules[..|rules| - 1]) + (if last.Some? then [last.value] else [])
  }

  /** Number of rules satisfying ContributesToSummary. */
  function CountContributing(rules: seq<NotificationRule>): nat {
    if rules == [] then 0
    else CountContributing(rules[..|rules| - 1]) + (if ContributesToSummary(rules[|rules| - 1]) then 1 else 0)
  }

  /** One fragment per contributing rule: HOURS rules with no or zero hours and other kinds add nothing. */
  lemma {:induction false} SummaryFragmentsCount(rules: seq<NotificationRule>)
    ensures |SummaryFragments(rules)| == CountContributing(rules)
    ensures |SummaryFragments(rules)| == 0 <==> forall i :: 0 <= i < |rules| ==> !ContributesToSummary(rules[i])
  {
    if rules != [] {
      var p := rules[..|rules| - 1];
      SummaryFragmentsCount(p);
      if ContributesToSummary(rules[|rules| - 1]) {
        assert |SummaryFragments(rules)| > 0;
      } else {
        forall i | 0 <= i < |p| ensures rules[i] == p[i] { }
      }
    }
  }

  /** `get_summary` as a function of the parse. */
  function Summary(p: ParsedNotificationRules): string {
    if !HasRules(p) then "No notification rules parsed"
    else if IsH24(p) then "H24 - No prior notice required"
    else if IsOnRequest(p) then "On request / by arrangement"
    else
      var frags := SummaryFragments(p.rules);
      if |frags| > 0 then Join(frags, "; ") else "See detailed rules"
  }

  /** `ParsedNotificationRules.get_summary` */
  method GetSummary(p: ParsedNotificationRules) returns (s: string)
    ensures s == Summary(p)
  {
    if |p.rules| == 0 {
      return "No notification rules parsed";
    }
    if IsH24(p) {
      return "H24 - No prior notice required";
    }
    if IsOnRequest(p) {
      return "On request / by arrangement";
    }
    var summaries: seq<string> := [];
    var i := 0;
    while i < |p.rules|
      invariant 0 <= i <= |p.rules|
      invariant summaries == SummaryFragments(p.rules[..i])
    {
      var rule := p.rules[i];
      assert p.rules[..i + 1] == p.rules[..i] + [rule];
      assert p.rules[..i + 1][..i] == p.rules[..i];
      if rule.notificationType == HOURS && rule.hoursNotice.Some? && rule.hoursNotice.value != 0 {
        var weekdayDesc := WeekdayDescription(rule.weekdayStart, rule.weekdayEnd);
        var ppr := "PPR " + IntToString(rule.hoursNotice.value) + "h";
        if weekdayDesc == "all days" {
          summaries := summaries + [ppr];
        } else {
          summaries := summaries + [weekdayDesc + ": " + ppr];
        }
      } else if rule.notificationType == BUSINESS_DAY {
        var timeStr := if rule.specificTime.Some? && rule.specificTime.value != "" then " before " + rule.specificTime.value else "";
        summaries := summaries + ["Last business day" + timeStr];
      } else if rule.notificationType == ON_REQUEST {
        summaries := summaries + ["O/R"];
      }
      i := i + 1;
    }
    assert p.rules[..i] == p.rules;
    s := if |summaries| > 0 then Join(summaries, "; ") else "See detailed rules";
  }

  /** The summary is the fixed fallback exactly when no rule contributes a fragment. */
  lemma SummaryFallback(p: ParsedNotificationRules)
    requires HasRules(p) && !IsH24(p) && !IsOnRequest(p)
    ensures (forall i :: 0 <= i < |p.rules| ==> !ContributesToSummary(p.rules[i])) ==> Summary(p) == "See detailed rules"
    ensures (exists i :: 0 <= i < |p.rules| && ContributesToSummary(p.rules[i])) ==> Summary(p) == Join(SummaryFragments(p.rules), "; ")
  {
    SummaryFragmentsCount(p.rules);
  }

  datatype HassleLevel = NONE | LOW | MODERATE | HIGH | VERY_HIGH | NOT_AVAILABLE

  /** Order of the graded levels (NOT_AVAILABLE is never produced by the scorer). */
  function LevelRank(l: HassleLevel): nat {
    match l
    case NONE => 0
    case LOW => 1
    case MODERATE => 2
    case HIGH => 3
    case VERY_HIGH => 4
    case NOT_AVAILABLE => 5
  }

  /** Normalised hassle, validated to lie in [0, 1]. */
  type Score = s: real | 0.0 <= s <= 1.0

  datatype HassleScore = HassleScore(
    icao: string,
    level: HassleLevel,
    score: Score,
    summary: string,
    maxHoursNotice: Option<int>,
    hasWeekendRules: bool,
    hasSchengenRules: bool)

  /** The threshold table on the largest hours notice. */
  function HoursLevel(maxHours: Option<int>): (ls: (HassleLevel, Score))
    ensures maxHours.None? ==> ls == (HIGH, 0.7)
    ensures maxHours.Some? && maxHours.value <= 2 ==> ls == (LOW, 0.15)
    ensures maxHours.Some? && 2 < maxHours.value <= 12 ==> ls == (LOW, 0.25)
    ensures maxHours.Some? && 12 < maxHours.value <= 24 ==> ls == (MODERATE, 0.4)
    ensures maxHours.Some? && 24 < maxHours.value <= 48 ==> ls == (HIGH, 0.6)
    ensures maxHours.Some? && 48 < maxHours.value <= 72 ==> ls == (HIGH, 0.75)
    ensures maxHours.Some? && 72 < maxHours.value ==> ls == (VERY_HIGH, 0.9)
  {
    if maxHours.None? then (HIGH, 0.7)
    else if maxHours.value <= 2 then (LOW, 0.15)
    else if maxHours.value <= 12 then (LOW, 0.25)
    else if maxHours.value <= 24 then (MODERATE, 0.4)
    else if maxHours.value <= 48 then (HIGH, 0.6)
    else if maxHours.value <= 72 then (HIGH, 0.75)
    else (VERY_HIGH, 0.9)
  }

  /** More notice never means less hassle, in level or in score. */
  lemma HoursLevelMonotone(a: int, b: int)
    requires a <= b
    ensures LevelRank(HoursLevel(Some(a)).0) <= LevelRank(HoursLevel(Some(b)).0)
    ensures HoursLevel(Some(a)).1 <= HoursLevel(Some(b)).1
  {
  }

  /** The boundary between HIGH and VERY_HIGH lies between 72 and 73 hours. */
  lemma HoursLevelBoundary()
    ensures HoursLevel(Some(72)) == (HIGH, 0.75)
    ensures HoursLevel(Some(73)) == (VERY_HIGH, 0.9)
  {
  }

  predicate HasWeekendRule(rules: seq<NotificationRule>) {
    exists i :: 0 <= i < |rules| && (rules[i].weekdayStart == Some(5) || rules[i].includesHolidays)
  }

  predicate HasSchengenRule(rules: seq<NotificationRule>) {
    exists i :: 0 <= i < |rules| && (rules[i].schengenOnly || rules[i].nonSchengenOnly)
  }

  predicate AllOfType(rules: seq<NotificationRule>, t: NotificationType) {
    forall i :: 0 <= i < |rules| ==> rules[i].notificationType == t
  }

  /** The weekend bump: ten points more, capped at 1. */
  function WeekendBump(score: Score): (r: Score)
    ensures r >= score
    ensures r == if score + 0.1 <= 1.0 then score + 0.1 else 1.0
  {
    if 1.0 < score + 0.1 then 1.0 else score + 0.1
  }

  /** `HassleScore.from_parsed_rules` */
  function FromParsedRules(p: ParsedNotificationRules): (h: HassleScore)
    ensures h.icao == p.icao
    ensures !HasRules(p) ==> h.level == MODERATE && h.score == 0.5 && h.summary == "Unable to parse notification rules"
    ensures HasRules(p) && IsH24(p) ==> h.level == NONE && h.score == 0.0
    ensures HasRules(p) && !IsH24(p) && IsOnRequest(p) ==> h.level == LOW && h.score == 0.2
    ensures HasRules(p) && !IsH24(p) && !IsOnRequest(p) && AllOfType(p.rules, AS_AD_HOURS) ==> h.level == LOW && h.score == 0.15
    ensures (!HasRules(p) || IsH24(p) || IsOnRequest(p) || AllOfType(p.rules, AS_AD_HOURS))
              ==> h.maxHoursNotice.None? && !h.hasWeekendRules && !h.hasSchengenRules
    ensures HasRules(p) && !IsH24(p) && !IsOnRequest(p) && !AllOfType(p.rules, AS_AD_HOURS) ==>
              && h.level == HoursLevel(MaxHoursNotice(p.rules)).0
              && h.score == (if HasWeekendRule(p.rules) then WeekendBump(HoursLevel(MaxHoursNotice(p.rules)).1)
                             else HoursLevel(MaxHoursNotice(p.rules)).1)
              && h.maxHoursNotice == MaxHoursNotice(p.rules)
              && h.hasWeekendRules == HasWeekendRule(p.rules)
              && h.hasSchengenRules == HasSchengenRule(p.rules)
              && h.summary == Summary(p)
  {
    if !HasRules(p) then
      HassleScore(p.icao, MODERATE, 0.5, "Unable to parse notification rules", None, false, false)
    else if IsH24(p) then
      HassleScore(p.icao, NONE, 0.0, "H24 - No prior notice required", None, false, false)
    else if IsOnRequest(p) then
      HassleScore(p.icao, LOW, 0.2, "On request / by arrangement", None, false, false)
    else if AllOfType(p.rules, AS_AD_HOURS) then
      HassleScore(p.icao, LOW, 0.15, "As aerodrome hours", None, false, false)
    else
      var maxHours := MaxHoursNotice(p.rules);
      var hasWeekend := HasWeekendRule(p.rules);
      var (level, base) := HoursLevel(maxHours);
      var score := if hasWeekend then WeekendBump(base) else base;
      HassleScore(p.icao, level, score, Summary(p), maxHours, hasWeekend, HasSchengenRule(p.rules))
  }

  /** The weekend bump changes the score by at most a tenth and never the level. */
  lemma WeekendBumpKeepsLevel(p: ParsedNotificationRules)
    requires HasRules(p) && !IsH24(p) && !IsOnRequest(p) && !AllOfType(p.rules, AS_AD_HOURS)
    ensures var h := FromParsedRules(p);
            var base := HoursLevel(MaxHoursNotice(p.rules));
            h.level == base.0 && base.1 <= h.score <= base.1 + 0.1 && h.score <= 1.0
  {
  }

  /** In the main branch, max_hours_notice decides the level: more notice never lowers it. */
  lemma FromParsedRulesMonotone(p: ParsedNotificationRules, q: ParsedNotificationRules)
    requires HasRules(p) && !IsH24(p) && !IsOnRequest(p) && !AllOfType(p.rules, AS_AD_HOURS)
    requires HasRules(q) && !IsH24(q) && !IsOnRequest(q) && !AllOfType(q.rules, AS_AD_HOURS)
    requires MaxHoursNotice(p.rules).Some? && MaxHoursNotice(q.rules).Some?
    requires MaxHoursNotice(p.rules).value <= MaxHoursNotice(q.rules).value
    requires HasWeekendRule(p.rules) == HasWeekendRule(q.rules)
    ensures LevelRank(FromParsedRules(p).level) <= LevelRank(FromParsedRules(q).level)
    ensures FromParsedRules(p).score <= FromParsedRules(q).score
  {
    HoursLevelMonotone(MaxHoursNotice(p.rules).value, MaxHoursNotice(q.rules).value);
  }
}
