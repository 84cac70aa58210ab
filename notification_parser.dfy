/**
  The deterministic notification-rule parser. The regular expressions are not
  modelled: what `search` and `finditer` would report on the stripped text is
  given by a `Patterns` function from text to `TextMatches`. The branch logic,
  the day table, the extraction loops, the de-duplication by hours, the
  Schengen annotation and the warnings are modelled as the code does them.
 */
module NotificationParser {
  import opened Wrappers
  import opened PyStr
  import opened Seqs
  import opened NotificationModels

  /** One match of WEEKDAY_HOURS_PATTERN: start token, optional end token, hours digits, whole match. */
  datatype WeekdayMatch = WeekdayMatch(startToken: string, endToken: Option<string>, hours: nat, matched: string)

  /** One match of HOURS_PATTERN: the integer value of each of the three capture groups that took part. */
  datatype HoursMatch = HoursMatch(group1: Option<nat>, group2: Option<nat>, group3: Option<nat>, matched: string)

  /** One match of BUSINESS_DAY_PATTERN: the optional four-digit time and the whole match. */
  datatype BusinessMatch = BusinessMatch(time: Option<string>, matched: string)

  /**
    What the patterns find in one text. `hours` is the finditer sequence of
    HOURS_PATTERN; that pattern never matches the empty string, so its
    `search` succeeds exactly when `hours` is non-empty.
   */
  datatype TextMatches = TextMatches(
    h24: bool,
    onRequest: bool,
    asAdHours: bool,
    nonSchengen: bool,
    intraSchengen: bool,
    weekday: seq<WeekdayMatch>,
    hours: seq<HoursMatch>,
    business: seq<BusinessMatch>)

  type Patterns = string -> TextMatches

  predicate HoursSearch(m: TextMatches) {
    |m.hours| > 0
  }

  // ---------------------------------------------------------------- _parse_day

  datatype DayEntry = Day(day: Weekday) | Span(first: Weekday, last: Weekday)

  const DayMap: map<string, DayEntry> := map[
    "mon" := Day(0), "monday" := Day(0),
    "tue" := Day(1), "tuesday" := Day(1),
    "wed" := Day(2), "wednesday" := Day(2),
    "thu" := Day(3), "thursday" := Day(3),
    "fri" := Day(4), "friday" := Day(4),
    "sat" := Day(5), "saturday" := Day(5),
    "sun" := Day(6), "sunday" := Day(6),
    "weekday" := Span(0, 4), "weekdays" := Span(0, 4),
    "week-end" := Span(5, 6), "weekend" := Span(5, 6)]

  /** Length taken by the optional `(?:idays?)`, greedy. */
  function HolidaySuffix(s: string): (n: nat)
    ensures n <= |s|
  {
    if StartsWith(s, "iday") then (if |s| > 4 && s[4] == 's' then 5 else 4) else 0
  }

  /**
    Length of the match of `\s*(?:and\s+)?hol(?:idays?)?` that starts at the
    head of `s`, or 0 when there is none. Backtracking cannot help: after the
    greedy `\s*` (or `\s+`) the next character must be `a` or `h`.
   */
  function HolMatchAt(s: string): (n: nat)
    ensures n <= |s|
    ensures n > 0 ==> Contains(s, "hol")
  {
    var w := SpaceRun(s);
    var t := s[w..];
    if StartsWith(t, "and") && |t| > 3 && IsSpace(t[3]) then
      var w2 := SpaceRun(t[3..]);
      var u := t[3 + w2..];
      if StartsWith(u, "hol") then
        assert s[w + 3 + w2..][..3] == u[..3];
        assert OccursAt(s, "hol", w + 3 + w2);
        w + 3 + w2 + 3 + HolidaySuffix(u[3..])
      else 0
    else if StartsWith(t, "hol") then
      assert OccursAt(s, "hol", w);
      w + 3 + HolidaySuffix(t[3..])
    else 0
  }

  /** `re.sub(r'\s*(?:and\s+)?hol(?:idays?)?', '', s)`, scanning left to right. */
  function RemoveHolidays(s: string): (r: string)
    ensures |r| <= |s|
  {
    if s == [] then []
    else
      var n := HolMatchAt(s);
      if n > 0 then RemoveHolidays(s[n..]) else [s[0]] + RemoveHolidays(s[1..])
  }

  /** `DAY_MAP.get(key)`, as a start day and an optional end day. */
  function LookupDay(key: string): (r: (Option<Weekday>, Option<Weekday>))
    ensures r.0.None? ==> r.1.None?
  {
    if key in DayMap then
      match DayMap[key]
      case Day(x) => (Some(x), None)
      case Span(a, b) => (Some(a), Some(b))
    else (None, None)
  }

  /** `_parse_day`: start day, end day and whether holidays are mentioned. */
  function ParseDay(dayStr: string): (r: (Option<Weekday>, Option<Weekday>, bool))
    ensures r.0.None? ==> r.1.None?
  {
    var d := Strip(Lower(dayStr));
    var includesHolidays := Contains(d, "hol");
    var key := Strip(RemoveHolidays(d));
    var (startDay, endDay) := LookupDay(key);
    (startDay, endDay, includesHolidays)
  }

  lemma ContainsTail(s: string, sub: string)
    requires s != [] && Contains(s[1..], sub)
    ensures Contains(s, sub)
  {
    var k :| 0 <= k <= |s[1..]| && OccursAt(s[1..], sub, k);
    assert s[k + 1..k + 1 + |sub|] == s[1..][k..k + |sub|];
    assert OccursAt(s, sub, k + 1);
  }

  /** A string that does not mention "hol" is left alone by the substitution. */
  lemma {:induction false} RemoveHolidaysNoHol(s: string)
    requires !Contains(s, "hol")
    ensures RemoveHolidays(s) == s
  {
    if s != [] {
      if Contains(s[1..], "hol") {
        ContainsTail(s, "hol");
      }
      RemoveHolidaysNoHol(s[1..]);
      assert [s[0]] + s[1..] == s;
    }
  }

  predicate PlainToken(s: string) {
    forall i :: 0 <= i < |s| ==> ('a' <= s[i] <= 'z' || s[i] == '-')
  }

  /** A lower-case token without "hol" is looked up as it is. */
  lemma ParseDayPlain(s: string)
    requires PlainToken(s) && !Contains(s, "hol")
    ensures ParseDay(s) == (LookupDay(s).0, LookupDay(s).1, false)
  {
    assert Lower(s) == s;
    StripSpaceFree(s);
    RemoveHolidaysNoHol(s);
  }

  /** `_parse_day` lower-cases its argument first, so ASCII case does not matter. */
  lemma ParseDayIgnoresCase(s: string)
    ensures ParseDay(s) == ParseDay(Lower(s))
  {
    assert Lower(Lower(s)) == Lower(s);
  }

  lemma LowerUpperPlain(s: string)
    requires PlainToken(s)
    ensures Lower(Upper(s)) == s
  {
  }

  /** No "h" in `s` is followed by "o". */
  predicate NoHo(s: string) {
    forall i :: 0 <= i < |s| - 1 ==> s[i] != 'h' || s[i + 1] != 'o'
  }

  lemma NoHoNoHol(s: string)
    requires NoHo(s)
    ensures !Contains(s, "hol")
  {
    forall k | 0 <= k <= |s| ensures !OccursAt(s, "hol", k) {
      if k + 3 <= |s| {
        assert s[k..k + 3][0] == s[k] && s[k..k + 3][1] == s[k + 1];
      }
    }
  }

  const DayKeys: seq<string> := [
    "mon", "monday", "tue", "tuesday", "wed", "wednesday", "thu", "thursday", "fri", "friday",
    "sat", "saturday", "sun", "sunday", "weekday", "weekdays", "week-end", "weekend"]

  lemma DayKeysListed(k: string)
    requires k in DayMap
    ensures k in DayKeys
  {
  }

  lemma DayKeysLong(k: string)
    requires k in DayKeys
    ensures |Upper(k)| >= 3
  {
  }

  lemma DayKeysPlain(k: string)
    requires k in DayKeys
    ensures PlainToken(k)
  {
  }

  lemma DayKeysNoHo(k: string)
    requires k in DayKeys
    ensures NoHo(k)
  {
  }

  /** Every key of the day table, in any ASCII case, gives its entry and no holidays. */
  lemma ParseDayTable(k: string)
    requires k in DayMap
    ensures ParseDay(k) == (LookupDay(k).0, LookupDay(k).1, false)
    ensures ParseDay(Upper(k)) == ParseDay(k)
  {
    DayKeysListed(k);
    DayKeysPlain(k);
    DayKeysNoHo(k);
    NoHoNoHol(k);
    ParseDayPlain(k);
    LowerUpperPlain(k);
    ParseDayIgnoresCase(Upper(k));
  }

  lemma NotADayKey(key: string)
    requires key !in DayKeys
    ensures LookupDay(key) == (None, None)
  {
    if key in DayMap {
      DayKeysListed(key);
    }
  }

  /** At a "hol" that is not preceded by whitespace, the match is "hol" and its suffix. */
  lemma HolMatchAtHol(s: string)
    requires |s| >= 3 && s[..3] == "hol"
    ensures HolMatchAt(s) == 3 + HolidaySuffix(s[3..])
  {
    assert s[0] == s[..3][0];
    assert SpaceRun(s) == 0;
    assert s[0..] == s;
  }

  lemma HolidayTokenRemoved(t: string)
    requires t == "hol" || t == "holidays"
    ensures RemoveHolidays(t) == ""
    ensures Contains(t, "hol")
  {
    assert t[..3] == "hol";
    HolMatchAtHol(t);
    if t == "holidays" {
      assert t[3..] == "idays";
      assert StartsWith(t[3..], "iday");
    }
    assert HolMatchAt(t) == |t|;
    assert OccursAt(t, "hol", 0);
  }

  lemma HolidayTokenUnstripped(t: string)
    requires t == "hol" || t == "holidays"
    ensures Strip(t) == t
  {
    assert !IsSpace(t[0]) && !IsSpace(t[|t| - 1]);
    assert SpaceRun(t) == 0 && TrailingSpaceRun(t) == 0;
  }

  /** A bare holiday token names no day but sets the holiday flag. */
  lemma ParseDayHolidayOnly(token: string)
    requires Lower(token) == "hol" || Lower(token) == "holidays"
    ensures ParseDay(token) == (None, None, true)
  {
    var t := Lower(token);
    HolidayTokenUnstripped(t);
    HolidayTokenRemoved(t);
    var d := Strip(t);
    assert d == t;
    assert RemoveHolidays(d) == "";
    assert Strip(RemoveHolidays(d)) == "";
    NotADayKey("");
  }

  /**
    The weekday pattern accepts "WEEK-DAYS", but the day table only has the
    unhyphenated form, so it gives no days.
   */
  lemma ParseDayHyphenatedWeekdays(token: string)
    requires Lower(token) == "week-days"
    ensures ParseDay(token) == (None, None, false)
  {
    var t := Lower(token);
    assert PlainToken(t) && NoHo(t);
    NoHoNoHol(t);
    StripSpaceFree(t);
    RemoveHolidaysNoHol(t);
    NotTableShaped(t);
    NotADayKey(t);
  }

  /** The only nine-letter key of the day table is "wednesday". */
  lemma NotTableShaped(key: string)
    requires |key| == 9 && key[2] != 'd'
    ensures key !in DayKeys
  {
  }

  // ------------------------------------------------------ _extract_weekday_rules

  predicate HasEndToken(m: WeekdayMatch) {
    m.endToken.Some? && m.endToken.value != ""
  }

  /** The rule one weekday match yields. */
  function WeekdayRule(m: WeekdayMatch): (r: NotificationRule)
    ensures r.ruleType == PPR && r.notificationType == HOURS && r.confidence == 0.85
    ensures r.hoursNotice == Some(m.hours as int) && r.rawText == Some(m.matched)
    ensures !r.schengenOnly && !r.nonSchengenOnly
  {
    var start := ParseDay(m.startToken);
    var end := if HasEndToken(m) then Some(ParseDay(m.endToken.value)) else None;
    DefaultRule(PPR, HOURS, m.matched, 0.85).(
      hoursNotice := Some(m.hours as int),
      weekdayStart := start.0,
      weekdayEnd := if end.Some? then end.value.0 else start.1,
      includesHolidays := start.2 || (end.Some? && end.value.2))
  }

  /** One rule per weekday match, in match order. */
  function WeekdayRules(ms: seq<WeekdayMatch>): (rules: seq<NotificationRule>)
    ensures |rules| == |ms|
  {
    if ms == [] then [] else WeekdayRules(ms[..|ms| - 1]) + [WeekdayRule(ms[|ms| - 1])]
  }

  /** `_extract_weekday_rules` */
  method ExtractWeekdayRules(ms: seq<WeekdayMatch>) returns (rules: seq<NotificationRule>)
    ensures rules == WeekdayRules(ms)
  {
    rules := [];
    for i := 0 to |ms|
      invariant rules == WeekdayRules(ms[..i])
    {
      WeekdayRulesStep(ms, i);
      var rule := WeekdayRule(ms[i]);
      rules := rules + [rule];
    }
    assert ms[..|ms|] == ms;
  }

  lemma WeekdayRulesStep(ms: seq<WeekdayMatch>, i: nat)
    requires i < |ms|
    ensures WeekdayRules(ms[..i + 1]) == WeekdayRules(ms[..i]) + [WeekdayRule(ms[i])]
  {
    assert ms[..i + 1][..i] == ms[..i];
  }

  // -------------------------------------------------------- _extract_hours_rules

  /** Two day-table tokens, as "MON-FRI": the start day of the first and the start day of the second. */
  lemma WeekdayRuleRange(m: WeekdayMatch, a: string, b: string)
    requires a in DayMap && b in DayMap
    requires m.startToken == Upper(a) && m.endToken == Some(Upper(b))
    ensures WeekdayRule(m).weekdayStart == LookupDay(a).0
    ensures WeekdayRule(m).weekdayEnd == LookupDay(b).0
    ensures !WeekdayRule(m).includesHolidays
  {
    var sa := ParseDay(Upper(a));
    var sb := ParseDay(Upper(b));
    assert sa == (LookupDay(a).0, LookupDay(a).1, false) by { ParseDayTable(a); }
    assert sb == (LookupDay(b).0, LookupDay(b).1, false) by { ParseDayTable(b); }
    assert HasEndToken(m) by { DayKeysListed(b); DayKeysLong(b); }
    WeekdayRuleParts(m);
  }

  /** One token and no end token, as "WEEKDAYS": the token's own span, or no end day for a single day. */
  lemma WeekdayRuleSingle(m: WeekdayMatch, a: string)
    requires a in DayMap
    requires m.startToken == Upper(a) && m.endToken.None?
    ensures WeekdayRule(m).weekdayStart == LookupDay(a).0
    ensures WeekdayRule(m).weekdayEnd == LookupDay(a).1
    ensures !WeekdayRule(m).includesHolidays
  {
    var sa := ParseDay(Upper(a));
    assert sa == (LookupDay(a).0, LookupDay(a).1, false) by { ParseDayTable(a); }
    WeekdayRuleParts(m);
  }

  /** The day fields of a weekday rule in terms of the two `_parse_day` results. */
  lemma WeekdayRuleParts(m: WeekdayMatch)
    ensures var r, s := WeekdayRule(m), ParseDay(m.startToken);
      && r.weekdayStart == s.0
      && (HasEndToken(m) ==> r.weekdayEnd == ParseDay(m.endToken.value).0 && r.includesHolidays == (s.2 || ParseDay(m.endToken.value).2))
      && (!HasEndToken(m) ==> r.weekdayEnd == s.1 && r.includesHolidays == s.2)
  {
  }

  /** The hours of a match: the first capture group among 1..3 that took part. */
  function HoursValue(m: HoursMatch): (h: Option<nat>)
    ensures m.group1.Some? ==> h == m.group1
    ensures m.group1.None? && m.group2.Some? ==> h == m.group2
    ensures m.group1.None? && m.group2.None? ==> h == m.group3
  {
    if m.group1.Some? then m.group1 else if m.group2.Some? then m.group2 else m.group3
  }

  function HoursRule(hours: nat, matched: string): (r: NotificationRule)
    ensures r.ruleType == PPR && r.notificationType == HOURS && r.confidence == 0.8
    ensures r.hoursNotice == Some(hours as int) && r.rawText == Some(matched)
    ensures r.weekdayStart.None? && !r.schengenOnly && !r.nonSchengenOnly
  {
    DefaultRule(PPR, HOURS, matched, 0.8).(hoursNotice := Some(hours as int))
  }

  /** Rules of the matches that captured an hours value, in match order. */
  function HoursCandidates(ms: seq<HoursMatch>): seq<NotificationRule> {
    if ms == [] then []
    else
      var m := ms[|ms| - 1];
      var h := HoursValue(m);
      HoursCandidates(ms[..|ms| - 1]) + (if h.Some? then [HoursRule(h.value, m.matched)] else [])
  }

  /** The hours values of the rules (Python's `seen_hours` after them). */
  function HoursOf(rules: seq<NotificationRule>): set<Option<int>> {
    set i | 0 <= i < |rules| :: rules[i].hoursNotice
  }

  /** Keep the first rule of each hours value, in order. */
  function DedupByHours(rules: seq<NotificationRule>): seq<NotificationRule> {
    if rules == [] then []
    else
      var p := rules[..|rules| - 1];
      var r := rules[|rules| - 1];
      DedupByHours(p) + (if r.hoursNotice in HoursOf(p) then [] else [r])
  }

  /** `rules` at `j` has an hours value no earlier rule has. */
  predicate FirstOfItsHours(rules: seq<NotificationRule>, j: int)
    requires 0 <= j < |rules|
  {
    forall i :: 0 <= i < j ==> rules[i].hoursNotice != rules[j].hoursNotice
  }

  lemma HoursOfAppend(p: seq<NotificationRule>, r: NotificationRule)
    ensures HoursOf(p + [r]) == HoursOf(p) + {r.hoursNotice}
  {
    var q := p + [r];
    forall h | h in HoursOf(q) ensures h in HoursOf(p) + {r.hoursNotice} {
      var i :| 0 <= i < |q| && q[i].hoursNotice == h;
      if i < |p| { assert p[i] == q[i]; }
    }
    forall h | h in HoursOf(p) + {r.hoursNotice} ensures h in HoursOf(q) {
      if h in HoursOf(p) {
        var i :| 0 <= i < |p| && p[i].hoursNotice == h;
        assert q[i] == p[i];
      } else {
        assert q[|p|] == r;
      }
    }
  }

  /** De-duplication loses no hours value. */
  lemma {:induction false} DedupByHoursSameHours(rules: seq<NotificationRule>)
    ensures HoursOf(DedupByHours(rules)) == HoursOf(rules)
  {
    if rules != [] {
      var p := rules[..|rules| - 1];
      var r := rules[|rules| - 1];
      var d := DedupByHours(p);
      DedupByHoursSameHours(p);
      assert p + [r] == rules;
      HoursOfAppend(p, r);
      if r.hoursNotice in HoursOf(p) {
        assert DedupByHours(rules) == d;
      } else {
        assert DedupByHours(rules) == d + [r];
        HoursOfAppend(d, r);
      }
    }
  }

  /** No two kept rules share an hours value. */
  lemma {:induction false} DedupByHoursDistinct(rules: seq<NotificationRule>)
    ensures forall i, j :: 0 <= i < j < |DedupByHours(rules)| ==>
              DedupByHours(rules)[i].hoursNotice != DedupByHours(rules)[j].hoursNotice
  {
    if rules != [] {
      var p := rules[..|rules| - 1];
      var r := rules[|rules| - 1];
      var d := DedupByHours(p);
      DedupByHoursDistinct(p);
      if r.hoursNotice !in HoursOf(p) {
        DedupByHoursSameHours(p);
        var d' := d + [r];
        assert DedupByHours(rules) == d';
        forall i, j | 0 <= i < j < |d'| ensures d'[i].hoursNotice != d'[j].hoursNotice {
          if j == |d| {
            assert d[i].hoursNotice in HoursOf(d);
          }
        }
      }
    }
  }

  /** The kept rules are rules of the input, in input order. */
  lemma {:induction false} DedupByHoursSubsequence(rules: seq<NotificationRule>)
    ensures IsSubsequence(DedupByHours(rules), rules)
  {
    if rules != [] {
      var p := rules[..|rules| - 1];
      var r := rules[|rules| - 1];
      var d := DedupByHours(p);
      DedupByHoursSubsequence(p);
      assert p + [r] == rules;
      if r.hoursNotice in HoursOf(p) {
        assert DedupByHours(rules) == d;
        SubsequenceExtend(d, p, r);
      } else {
        assert DedupByHours(rules) == d + [r];
        SubsequenceAppendBoth(d, p, r);
      }
    }
  }

  /** The first position holding the hours value of position `j`. */
  lemma {:induction false} FirstWithHours(rules: seq<NotificationRule>, j: int) returns (i: int)
    requires 0 <= j < |rules|
    ensures 0 <= i <= j && FirstOfItsHours(rules, i) && rules[i].hoursNotice == rules[j].hoursNotice
    decreases j
  {
    if FirstOfItsHours(rules, j) {
      i := j;
    } else {
      var k :| 0 <= k < j && rules[k].hoursNotice == rules[j].hoursNotice;
      i := FirstWithHours(rules, k);
    }
  }

  /**
    A rule that no earlier rule shares its hours value with is kept; any
    other rule's hours value is kept from an earlier position.
   */
  lemma {:induction false} DedupByHoursKeepsFirst(rules: seq<NotificationRule>, j: int)
    requires 0 <= j < |rules|
    ensures FirstOfItsHours(rules, j) ==> rules[j] in DedupByHours(rules)
    ensures !FirstOfItsHours(rules, j) ==>
      exists i :: 0 <= i < j && rules[i] in DedupByHours(rules) && rules[i].hoursNotice == rules[j].hoursNotice
    decreases |rules|, j
  {
    var p := rules[..|rules| - 1];
    if !FirstOfItsHours(rules, j) {
      var i := FirstWithHours(rules, j);
      DedupByHoursKeepsFirst(rules, i);
    } else if j < |rules| - 1 {
      DedupByHoursKeepsFirst(p, j);
      assert p[..j] == rules[..j];
      assert FirstOfItsHours(p, j) == FirstOfItsHours(rules, j);
    } else {
      forall h | h in HoursOf(p) ensures h != rules[j].hoursNotice {
        var i :| 0 <= i < |p| && p[i].hoursNotice == h;
        assert rules[i] == p[i];
      }
    }
  }

  /** `_extract_hours_rules`: collect a rule per usable match, then drop repeated hours values. */
  method ExtractHoursRules(ms: seq<HoursMatch>) returns (uniqueRules: seq<NotificationRule>)
    ensures uniqueRules == DedupByHours(HoursCandidates(ms))
  {
    var rules: seq<NotificationRule> := [];
    for i := 0 to |ms|
      invariant rules == HoursCandidates(ms[..i])
    {
      var m := ms[i];
      var hours: Option<nat> := None;
      if m.group1.Some? {
        hours := m.group1;
      } else if m.group2.Some? {
        hours := m.group2;
      } else if m.group3.Some? {
        hours := m.group3;
      }
      assert ms[..i + 1][..i] == ms[..i];
      if hours.None? {
        continue;
      }
      var rule := DefaultRule(PPR, HOURS, m.matched, 0.8).(hoursNotice := Some(hours.value as int));
      rules := rules + [rule];
    }
    assert ms[..|ms|] == ms;
    var seenHours: set<Option<int>> := {};
    uniqueRules := [];
    for i := 0 to |rules|
      invariant seenHours == HoursOf(rules[..i])
      invariant uniqueRules == DedupByHours(rules[..i])
    {
      var rule := rules[i];
      assert rules[..i + 1][..i] == rules[..i];
      assert rules[..i + 1] == rules[..i] + [rule];
      HoursOfAppend(rules[..i], rule);
      if rule.hoursNotice !in seenHours {
        seenHours := seenHours + {rule.hoursNotice};
        uniqueRules := uniqueRules + [rule];
      }
    }
    assert rules[..|rules|] == rules;
  }

  // ------------------------------------------------- _extract_business_day_rules

  function BusinessRule(m: BusinessMatch): (r: NotificationRule)
    ensures r.ruleType == PPR && r.notificationType == BUSINESS_DAY && r.confidence == 0.75
    ensures r.businessDayOffset == Some(-1) && r.specificTime == m.time && r.rawText == Some(m.matched)
    ensures r.hoursNotice.None? && !r.schengenOnly && !r.nonSchengenOnly
  {
    DefaultRule(PPR, BUSINESS_DAY, m.matched, 0.75).(businessDayOffset := Some(-1), specificTime := m.time)
  }

  /** One rule per business-day match, in match order. */
  function BusinessRules(ms: seq<BusinessMatch>): (rules: seq<NotificationRule>)
    ensures |rules| == |ms|
    ensures forall i :: 0 <= i < |ms| ==> rules[i] == BusinessRule(ms[i])
  {
    if ms == [] then [] else BusinessRules(ms[..|ms| - 1]) + [BusinessRule(ms[|ms| - 1])]
  }

  /** `_extract_business_day_rules` */
  method ExtractBusinessDayRules(ms: seq<BusinessMatch>) returns (rules: seq<NotificationRule>)
    ensures rules == BusinessRules(ms)
  {
    rules := [];
    for i := 0 to |ms|
      invariant rules == BusinessRules(ms[..i])
    {
      var rule := BusinessRule(ms[i]);
      rules := rules + [rule];
      assert ms[..i + 1][..i] == ms[..i];
    }
    assert ms[..|ms|] == ms;
  }

  // ------------------------------------------------------------------- parse

  /** The rules found before the Schengen annotation: first-match-wins, then layered extraction. */
  function RegexRules(m: TextMatches, text: string): seq<NotificationRule> {
    if m.h24 then [DefaultRule(CUSTOMS, H24, text, 0.95)]
    else if m.onRequest && !HoursSearch(m) then [DefaultRule(CUSTOMS, ON_REQUEST, text, 0.9)]
    else if m.asAdHours && !HoursSearch(m) then [DefaultRule(CUSTOMS, AS_AD_HOURS, text, 0.9)]
    else LayeredRules(m)
  }

  /** Weekday rules, else plain hours rules, and business-day rules in either case. */
  function LayeredRules(m: TextMatches): seq<NotificationRule> {
    var weekday := WeekdayRules(m.weekday);
    if weekday != [] then weekday + BusinessRules(m.business)
    else DedupByHours(HoursCandidates(m.hours)) + BusinessRules(m.business)
  }

  /** The Schengen context of one rule. */
  function WithSchengen(r: NotificationRule, isNonSchengen: bool, isSchengen: bool): NotificationRule {
    if isNonSchengen && !isSchengen then r.(nonSchengenOnly := true)
    else if isSchengen && !isNonSchengen then r.(schengenOnly := true)
    else r
  }

  function AnnotateSchengen(rules: seq<NotificationRule>, isNonSchengen: bool, isSchengen: bool): (r: seq<NotificationRule>)
    ensures |r| == |rules|
    ensures forall i :: 0 <= i < |rules| ==> r[i] == WithSchengen(rules[i], isNonSchengen, isSchengen)
  {
    seq(|rules|, i requires 0 <= i < |rules| => WithSchengen(rules[i], isNonSchengen, isSchengen))
  }

  const EmptyTextWarning := "Empty text"
  const NoRegexWarning := "Could not parse notification rules with regex patterns"
  const NoRegexOrLlmWarning := "Could not parse with regex or LLM"

  /** `not text or not text.strip()` */
  predicate IsBlank(text: Option<string>) {
    text.None? || text.value == "" || Strip(text.value) == ""
  }

  /** What `parse` returns, with the pattern results given by `patterns` on the stripped text. */
  function ParseSpec(useLlmFallback: bool, icao: string, text: Option<string>, stdFieldId: int, patterns: Patterns): ParsedNotificationRules {
    if IsBlank(text) then
      ParsedNotificationRules(icao, [], text.GetOr(""), stdFieldId, [EmptyTextWarning])
    else
      var t := Strip(text.value);
      var m := patterns(t);
      var rules := AnnotateSchengen(RegexRules(m, t), m.nonSchengen, m.intraSchengen);
      // the LLM stub contributes no rules, so only the warning depends on the flag
      var warnings := if rules != [] then [] else if useLlmFallback then [NoRegexOrLlmWarning] else [NoRegexWarning];
      ParsedNotificationRules(icao, rules, t, stdFieldId, warnings)
  }

  /** The pattern stage of `parse`: the first-match-wins checks, then the layered extraction. */
  method ExtractRules(m: TextMatches, t: string) returns (rules: seq<NotificationRule>)
    ensures rules == RegexRules(m, t)
  {
    rules := [];
    if m.h24 {
      rules := rules + [DefaultRule(CUSTOMS, H24, t, 0.95)];
    } else if m.onRequest && !(|m.hours| > 0) {
      rules := rules + [DefaultRule(CUSTOMS, ON_REQUEST, t, 0.9)];
    } else if m.asAdHours && !(|m.hours| > 0) {
      rules := rules + [DefaultRule(CUSTOMS, AS_AD_HOURS, t, 0.9)];
    } else {
      rules := ExtractLayered(m);
    }
  }

  /** The layered part of the pattern stage. */
  method ExtractLayered(m: TextMatches) returns (rules: seq<NotificationRule>)
    ensures rules == LayeredRules(m)
  {
    rules := [];
    var weekdayRules := ExtractWeekdayRules(m.weekday);
    if weekdayRules != [] {
      rules := rules + weekdayRules;
    }
    assert rules == weekdayRules;
    ghost var hoursPart: seq<NotificationRule> := [];
    if rules == [] {
      var hoursRules := ExtractHoursRules(m.hours);
      hoursPart := hoursRules;
      if hoursRules != [] {
        rules := rules + hoursRules;
      }
    }
    assert rules == weekdayRules + hoursPart;
    var businessRules := ExtractBusinessDayRules(m.business);
    if businessRules != [] {
      rules := rules + businessRules;
    }
    assert rules == weekdayRules + hoursPart + businessRules;
    if weekdayRules != [] {
      assert weekdayRules + hoursPart == weekdayRules;
    }
  }

  /** The Schengen stage of `parse`: every rule gets the flag the text's context calls for. */
  method MarkSchengen(found: seq<NotificationRule>, isNonSchengen: bool, isSchengen: bool) returns (rules: seq<NotificationRule>)
    ensures rules == AnnotateSchengen(found, isNonSchengen, isSchengen)
  {
    rules := found;
    for i := 0 to |rules|
      invariant |rules| == |found|
      invariant forall k :: 0 <= k < i ==> rules[k] == WithSchengen(found[k], isNonSchengen, isSchengen)
      invariant forall k :: i <= k < |rules| ==> rules[k] == found[k]
    {
      if isNonSchengen && !isSchengen {
        rules := rules[i := rules[i].(nonSchengenOnly := true)];
      } else if isSchengen && !isNonSchengen {
        rules := rules[i := rules[i].(schengenOnly := true)];
      }
    }
  }

  class Parser {
    const useLlmFallback: bool
    const llmModel: string
    const llmApiKey: Option<string>

    constructor(useLlmFallback: bool, llmModel: string, llmApiKey: Option<string>)
      ensures this.useLlmFallback == useLlmFallback && this.llmModel == llmModel && this.llmApiKey == llmApiKey
    {
      this.useLlmFallback := useLlmFallback;
      this.llmModel := llmModel;
      this.llmApiKey := llmApiKey;
    }

    /** `_parse_with_llm`: a stub that yields no rules whichever way it returns. */
    method ParseWithLlm(icao: string, text: string) returns (rules: seq<NotificationRule>)
      ensures rules == []
    {
      if !useLlmFallback {
        return [];
      }
      return [];
    }

    /** `NotificationParser.parse` */
    method Parse(icao: string, text: Option<string>, stdFieldId: int, patterns: Patterns) returns (result: ParsedNotificationRules)
      ensures result == ParseSpec(useLlmFallback, icao, text, stdFieldId, patterns)
    {
      if text.None? || text.value == "" || Strip(text.value) == "" {
        return ParsedNotificationRules(icao, [], text.GetOr(""), stdFieldId, [EmptyTextWarning]);
      }
      var t := Strip(text.value);
      var m := patterns(t);
      var warnings: seq<string> := [];
      var rules := ExtractRules(m, t);
      rules := MarkSchengen(rules, m.nonSchengen, m.intraSchengen);
      if rules == [] && useLlmFallback {
        var llmRules := ParseWithLlm(icao, t);
        if llmRules != [] {
          rules := rules + llmRules;
        } else {
          warnings := warnings + [NoRegexOrLlmWarning];
        }
      } else if rules == [] {
        warnings := warnings + [NoRegexWarning];
      }
      result := ParsedNotificationRules(icao, rules, t, stdFieldId, warnings);
    }

    /** `parse_batch`: one parse per (icao, text) pair, in input order. */
    function ParseBatch(airports: seq<(string, Option<string>)>, stdFieldId: int, patterns: Patterns): (r: seq<ParsedNotificationRules>)
      ensures |r| == |airports|
      ensures forall i :: 0 <= i < |airports| ==> r[i] == ParseSpec(useLlmFallback, airports[i].0, airports[i].1, stdFieldId, patterns)
    {
      seq(|airports|, i requires 0 <= i < |airports| => ParseSpec(useLlmFallback, airports[i].0, airports[i].1, stdFieldId, patterns))
    }
  }

  // ------------------------------------------------------------ properties

  /** The three kinds of rule the layered extraction produces. */
  predicate IsWeekdayRule(r: NotificationRule) {
    r.ruleType == PPR && r.notificationType == HOURS && r.confidence == 0.85 && !r.schengenOnly && !r.nonSchengenOnly
  }

  predicate IsHoursRule(r: NotificationRule) {
    r.ruleType == PPR && r.notificationType == HOURS && r.confidence == 0.8 && r.hoursNotice.Some?
    && !r.schengenOnly && !r.nonSchengenOnly
  }

  predicate IsBusinessRule(r: NotificationRule) {
    r.ruleType == PPR && r.notificationType == BUSINESS_DAY && r.confidence == 0.75 && !r.schengenOnly && !r.nonSchengenOnly
  }

  lemma {:induction false} WeekdayRulesShape(ms: seq<WeekdayMatch>)
    ensures forall r :: r in WeekdayRules(ms) ==> IsWeekdayRule(r)
  {
    if ms != [] {
      WeekdayRulesShape(ms[..|ms| - 1]);
      var w := WeekdayRule(ms[|ms| - 1]);
      assert IsWeekdayRule(w);
    }
  }

  lemma {:induction false} HoursCandidatesShape(ms: seq<HoursMatch>)
    ensures forall r :: r in HoursCandidates(ms) ==> IsHoursRule(r)
    ensures |HoursCandidates(ms)| <= |ms|
  {
    if ms != [] {
      HoursCandidatesShape(ms[..|ms| - 1]);
    }
  }

  lemma {:induction false} BusinessRulesShape(ms: seq<BusinessMatch>)
    ensures forall r :: r in BusinessRules(ms) ==> IsBusinessRule(r)
  {
    if ms != [] {
      BusinessRulesShape(ms[..|ms| - 1]);
    }
  }

  /**
    The layered extraction: every rule is of one of its three kinds, and
    weekday rules shut out the plain hours rules.
   */
  lemma LayeredRulesShape(m: TextMatches)
    ensures forall r :: r in LayeredRules(m) ==> IsWeekdayRule(r) || IsHoursRule(r) || IsBusinessRule(r)
    ensures m.weekday != [] ==> forall r :: r in LayeredRules(m) ==> !IsHoursRule(r)
    ensures m.weekday == [] ==> forall r :: r in LayeredRules(m) ==> !IsWeekdayRule(r)
  {
    var c := HoursCandidates(m.hours);
    var d := DedupByHours(c);
    WeekdayRulesShape(m.weekday);
    HoursCandidatesShape(m.hours);
    BusinessRulesShape(m.business);
    DedupByHoursSubsequence(c);
    SubsequenceElements(d, c);
    if m.weekday == [] {
      assert LayeredRules(m) == d + BusinessRules(m.business);
    } else {
      assert |WeekdayRules(m.weekday)| > 0;
      assert LayeredRules(m) == WeekdayRules(m.weekday) + BusinessRules(m.business);
    }
  }

  /** The plain hours rules in a layered extraction have pairwise distinct hours values. */
  lemma LayeredHoursDistinct(m: TextMatches)
    ensures forall i, j :: 0 <= i < j < |LayeredRules(m)| && IsHoursRule(LayeredRules(m)[i]) && IsHoursRule(LayeredRules(m)[j])
              ==> LayeredRules(m)[i].hoursNotice != LayeredRules(m)[j].hoursNotice
  {
    var l := LayeredRules(m);
    if m.weekday == [] {
      var c := HoursCandidates(m.hours);
      var d := DedupByHours(c);
      var b := BusinessRules(m.business);
      BusinessRulesShape(m.business);
      DedupByHoursDistinct(c);
      assert l == d + b;
      forall k | |d| <= k < |l| ensures !IsHoursRule(l[k]) {
        assert l[k] == b[k - |d|] && l[k] in b;
      }
    } else {
      LayeredRulesShape(m);
      forall i | 0 <= i < |l| ensures !IsHoursRule(l[i]) {
        assert l[i] in l;
      }
    }
  }

  /**
    First match wins: H24, then O/R, then AS AD HOURS, each only when the
    earlier ones did not match and (for O/R and AS AD HOURS) no explicit hours
    are stated; otherwise every rule is a PPR rule of the layered extraction.
   */
  lemma RegexRulesFirstMatch(m: TextMatches, t: string)
    ensures m.h24 ==> RegexRules(m, t) == [DefaultRule(CUSTOMS, H24, t, 0.95)]
    ensures !m.h24 && m.onRequest && !HoursSearch(m) ==> RegexRules(m, t) == [DefaultRule(CUSTOMS, ON_REQUEST, t, 0.9)]
    ensures !m.h24 && !m.onRequest && m.asAdHours && !HoursSearch(m) ==> RegexRules(m, t) == [DefaultRule(CUSTOMS, AS_AD_HOURS, t, 0.9)]
    ensures !m.h24 && (HoursSearch(m) || (!m.onRequest && !m.asAdHours)) ==>
              forall r :: r in RegexRules(m, t) ==> r.ruleType == PPR && (r.notificationType == HOURS || r.notificationType == BUSINESS_DAY)
  {
    LayeredRulesShape(m);
  }

  /** Every rule the patterns yield is still free of Schengen flags. */
  lemma RegexRulesUnflagged(m: TextMatches, t: string)
    ensures forall r :: r in RegexRules(m, t) ==> !r.schengenOnly && !r.nonSchengenOnly
  {
    LayeredRulesShape(m);
  }

  /**
    The Schengen stage marks every rule alike: non-Schengen only when only the
    non-Schengen pattern matched, Schengen only when only the intra-Schengen
    pattern matched, never both; nothing else in a rule changes.
   */
  lemma AnnotateSchengenFlags(rules: seq<NotificationRule>, isNonSchengen: bool, isSchengen: bool)
    requires forall r :: r in rules ==> !r.schengenOnly && !r.nonSchengenOnly
    ensures forall i :: 0 <= i < |rules| ==>
              var a := AnnotateSchengen(rules, isNonSchengen, isSchengen)[i];
              && (a.nonSchengenOnly <==> isNonSchengen && !isSchengen)
              && (a.schengenOnly <==> isSchengen && !isNonSchengen)
              && a.(schengenOnly := false, nonSchengenOnly := false) == rules[i]
  {
    forall i | 0 <= i < |rules|
      ensures var a := AnnotateSchengen(rules, isNonSchengen, isSchengen)[i];
              && (a.nonSchengenOnly <==> isNonSchengen && !isSchengen)
              && (a.schengenOnly <==> isSchengen && !isNonSchengen)
              && a.(schengenOnly := false, nonSchengenOnly := false) == rules[i]
    {
      assert rules[i] in rules;
    }
  }

  /** In a parse of non-blank text, every rule carries the Schengen context of the whole text. */
  lemma ParseSchengenContext(useLlmFallback: bool, icao: string, text: Option<string>, stdFieldId: int, patterns: Patterns)
    requires !IsBlank(text)
    ensures var m := patterns(Strip(text.value));
            forall r :: r in ParseSpec(useLlmFallback, icao, text, stdFieldId, patterns).rules ==>
              && (r.nonSchengenOnly <==> m.nonSchengen && !m.intraSchengen)
              && (r.schengenOnly <==> m.intraSchengen && !m.nonSchengen)
  {
    var t := Strip(text.value);
    var m := patterns(t);
    var found := RegexRules(m, t);
    RegexRulesUnflagged(m, t);
    AnnotateSchengenFlags(found, m.nonSchengen, m.intraSchengen);
    var rules := AnnotateSchengen(found, m.nonSchengen, m.intraSchengen);
    assert ParseSpec(useLlmFallback, icao, text, stdFieldId, patterns).rules == rules;
    forall r | r in rules
      ensures (r.nonSchengenOnly <==> m.nonSchengen && !m.intraSchengen) && (r.schengenOnly <==> m.intraSchengen && !m.nonSchengen)
    {
      var i :| 0 <= i < |rules| && rules[i] == r;
    }
  }

  /**
    Warnings: blank text gives no rules and only the empty-text warning;
    otherwise there is a warning exactly when no rule was found, and which
    one depends on whether the LLM fallback is enabled.
   */
  lemma ParseWarnings(useLlmFallback: bool, icao: string, text: Option<string>, stdFieldId: int, patterns: Patterns)
    ensures var p := ParseSpec(useLlmFallback, icao, text, stdFieldId, patterns);
            && p.icao == icao && p.sourceStdFieldId == stdFieldId
            && (IsBlank(text) ==> p.rules == [] && p.parseWarnings == [EmptyTextWarning] && p.rawText == text.GetOr(""))
            && (!IsBlank(text) ==> p.rawText == Strip(text.value) && (p.parseWarnings == [] <==> p.rules != []))
            && (!IsBlank(text) && p.rules == [] ==>
                  p.parseWarnings == [if useLlmFallback then NoRegexOrLlmWarning else NoRegexWarning])
  {
  }
}
