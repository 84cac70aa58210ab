/**
  The answer-quality evaluators: which expected keywords and ICAO codes the
  final answer mentions (and which unwanted codes it does), whether its
  length in words is reasonable, and how much markdown structure it uses.
 */
module AnswerQuality {
  import opened Wrappers
  import opened PyStr
  import opened PyValue
  import opened Airports
  import opened EvalRuns

  // ------------------------------------------------------------ ICAO codes

  /**
    A character of `\w`, taken as the ASCII letters, digits and underscore.
    Python's `\w` on text is Unicode-aware, so there a letter such as `É`
    next to a code also blocks the match.
   */
  predicate IsWordChar(c: char) {
    'A' <= c <= 'Z' || 'a' <= c <= 'z' || '0' <= c <= '9' || c == '_'
  }

  predicate IsUpperAlnum(c: char) {
    'A' <= c <= 'Z' || '0' <= c <= '9'
  }

  /**
    `\b[A-Z][A-Z0-9]{3}\b` matches at `i`: a capital letter and three capitals
    or digits, with no word character just before or just after. Two such
    matches never overlap, so `findall` finds every one of them.
   */
  predicate IcaoAt(u: string, i: int) {
    && 0 <= i && i + 4 <= |u|
    && 'A' <= u[i] <= 'Z' && IsUpperAlnum(u[i + 1]) && IsUpperAlnum(u[i + 2]) && IsUpperAlnum(u[i + 3])
    && (i == 0 || !IsWordChar(u[i - 1]))
    && (i + 4 == |u| || !IsWordChar(u[i + 4]))
  }

  /** `extract_icao_codes(text)`, as a set: the distinct matches in the uppercased text. */
  function IcaoCodes(text: string): set<string> {
    var u := Upper(text);
    set i | 0 <= i <= |u| - 4 && IcaoAt(u, i) :: u[i..i + 4]
  }

  /**
    Each code is four characters, a capital letter then three capitals or
    digits, and occurs in the uppercased text; every match of the pattern
    is among the codes.
   */
  lemma IcaoCodesMeaning(text: string)
    ensures forall c :: c in IcaoCodes(text) ==>
      && |c| == 4 && 'A' <= c[0] <= 'Z' && IsUpperAlnum(c[1]) && IsUpperAlnum(c[2]) && IsUpperAlnum(c[3])
      && Contains(Upper(text), c)
    ensures forall i :: IcaoAt(Upper(text), i) ==> Upper(text)[i..i + 4] in IcaoCodes(text)
  {
    var u := Upper(text);
    forall c | c in IcaoCodes(text)
      ensures |c| == 4 && 'A' <= c[0] <= 'Z' && IsUpperAlnum(c[1]) && IsUpperAlnum(c[2]) && IsUpperAlnum(c[3])
      ensures Contains(u, c)
    {
      var i :| 0 <= i <= |u| - 4 && IcaoAt(u, i) && c == u[i..i + 4];
      assert OccursAt(u, c, i);
    }
  }

  /** A word glued to letters or digits is not a code: "EGLLX" holds none. */
  lemma NoCodeInsideWord()
    ensures IcaoCodes("EGLLX") == {}
    ensures IcaoCodes("egll and LFPG") == {"EGLL", "LFPG"}
  {
    var u := Upper("EGLLX");
    assert u == "EGLLX";
    assert !IcaoAt(u, 0) && !IcaoAt(u, 1);
    var v := Upper("egll and LFPG");
    assert v == "EGLL AND LFPG";
    assert IcaoAt(v, 0) && v[0..4] == "EGLL";
    assert IcaoAt(v, 9) && v[9..13] == "LFPG";
    assert forall i :: 0 <= i <= |v| - 4 && i != 0 && i != 9 ==> !IcaoAt(v, i);
  }

  // -------------------------------------------------------------- mentions

  /** The keywords the (lowercased) answer mentions, in order. */
  function Mentioned(keywords: seq<string>, answerLower: string): (r: seq<string>)
    ensures |r| <= |keywords|
    ensures forall k :: k in r <==> k in keywords && Contains(answerLower, Lower(k))
  {
    if keywords == [] then []
    else
      var k := keywords[|keywords| - 1];
      Mentioned(keywords[..|keywords| - 1], answerLower) + (if Contains(answerLower, Lower(k)) then [k] else [])
  }

  /** The keywords it does not mention, in order. */
  function Unmentioned(keywords: seq<string>, answerLower: string): (r: seq<string>)
    ensures |r| <= |keywords|
    ensures forall k :: k in r <==> k in keywords && !Contains(answerLower, Lower(k))
  {
    if keywords == [] then []
    else
      var k := keywords[|keywords| - 1];
      Unmentioned(keywords[..|keywords| - 1], answerLower) + (if Contains(answerLower, Lower(k)) then [] else [k])
  }

  /** Mentioned and missing keywords split the expected ones: every keyword lands in exactly one. */
  lemma {:induction false} KeywordsPartition(keywords: seq<string>, answerLower: string)
    ensures |Mentioned(keywords, answerLower)| + |Unmentioned(keywords, answerLower)| == |keywords|
    ensures multiset(Mentioned(keywords, answerLower)) + multiset(Unmentioned(keywords, answerLower)) == multiset(keywords)
  {
    if keywords != [] {
      var p := keywords[..|keywords| - 1];
      var k := keywords[|keywords| - 1];
      KeywordsPartition(p, answerLower);
      var mp, up := Mentioned(p, answerLower), Unmentioned(p, answerLower);
      assert keywords == p + [k];
      var c := Contains(answerLower, Lower(k));
      SplitStep(mp, up, p, k, c);
      if c {
        assert Mentioned(keywords, answerLower) == mp + [k];
        assert Unmentioned(keywords, answerLower) == up by { assert up + [] == up; }
      } else {
        assert Mentioned(keywords, answerLower) == mp by { assert mp + [] == mp; }
        assert Unmentioned(keywords, answerLower) == up + [k];
      }
    }
  }

  /** One more element lands on one side of a split. */
  lemma SplitStep<T>(ins: seq<T>, outs: seq<T>, s: seq<T>, x: T, toIns: bool)
    requires |ins| + |outs| == |s| && multiset(ins) + multiset(outs) == multiset(s)
    ensures toIns ==> |ins + [x]| + |outs| == |s + [x]| && multiset(ins + [x]) + multiset(outs) == multiset(s + [x])
    ensures !toIns ==> |ins| + |outs + [x]| == |s + [x]| && multiset(ins) + multiset(outs + [x]) == multiset(s + [x])
  {
    assert multiset(ins + [x]) == multiset(ins) + multiset{x};
    assert multiset(outs + [x]) == multiset(outs) + multiset{x};
    assert multiset(s + [x]) == multiset(s) + multiset{x};
  }

  /** `icao in mentioned_icaos`: a string equal to one of the codes. */
  predicate AmongCodes(v: Value, codes: set<string>) {
    v.VStr? && v.s in codes
  }

  /** The listed codes that the answer mentions, in order. */
  function CodesFound(icaos: seq<Value>, codes: set<string>): (r: seq<Value>)
    ensures |r| <= |icaos|
    ensures forall v :: v in r <==> v in icaos && AmongCodes(v, codes)
  {
    if icaos == [] then []
    else
      var v := icaos[|icaos| - 1];
      CodesFound(icaos[..|icaos| - 1], codes) + (if AmongCodes(v, codes) then [v] else [])
  }

  /** The listed codes it does not mention, in order. */
  function CodesMissing(icaos: seq<Value>, codes: set<string>): (r: seq<Value>)
    ensures |r| <= |icaos|
    ensures forall v :: v in r <==> v in icaos && !AmongCodes(v, codes)
  {
    if icaos == [] then []
    else
      var v := icaos[|icaos| - 1];
      CodesMissing(icaos[..|icaos| - 1], codes) + (if AmongCodes(v, codes) then [] else [v])
  }

  /**
    The mentions score: the share of expected keywords and codes found (1.0
    when nothing is expected), less 0.2 for each unwanted code, and never
    below zero.
   */
  function MentionsScore(found: nat, expected: nat, unwanted: nat): real
    requires found <= expected
  {
    var score := if expected > 0 then found as real / expected as real else 1.0;
    if unwanted > 0 then
      var s := score - 0.2 * unwanted as real;
      if s > 0.0 then s else 0.0
    else score
  }

  /**
    The score lies in [0, 1]; it is 1 exactly when everything expected was
    found and no unwanted code appears; five unwanted codes bring it to 0.
   */
  lemma MentionsScoreRange(found: nat, expected: nat, unwanted: nat)
    requires found <= expected
    ensures 0.0 <= MentionsScore(found, expected, unwanted) <= 1.0
    ensures MentionsScore(found, expected, unwanted) == 1.0 <==> found == expected && unwanted == 0
    ensures unwanted >= 5 ==> MentionsScore(found, expected, unwanted) == 0.0
  {
    if expected > 0 {
      Ratio(found, expected);
    }
  }

  /** The expectations of a case, once Python has iterated them. */
  datatype Expectations = Expectations(shouldMention: seq<string>, shouldInclude: seq<Value>, shouldNotInclude: seq<Value>)

  /**
    The keywords as strings, None if one is not a string (Python raises at
    `kw.lower()`).
   */
  function Strings(vs: seq<Value>): (r: Option<seq<string>>)
    ensures r.Some? <==> forall i :: 0 <= i < |vs| ==> vs[i].VStr?
    ensures r.Some? ==> |r.value| == |vs| && forall i :: 0 <= i < |vs| ==> r.value[i] == vs[i].s
  {
    if vs == [] then Some([])
    else
      var p := Strings(vs[..|vs| - 1]);
      var v := vs[|vs| - 1];
      assert forall i :: 0 <= i < |vs| - 1 ==> vs[..|vs| - 1][i] == vs[i];
      if p.Some? && v.VStr? then Some(p.value + [v.s]) else None
  }

  function ExpectationsOf(sm: Value, si: Value, sn: Value): Query<Expectations> {
    match (Iterable(sm), Iterable(si), Iterable(sn))
    case (Some(m), Some(i), Some(n)) =>
      (match Strings(m)
       case Some(ks) => Found(Expectations(ks, i, n))
       case None => Raises)
    case _ => Raises
  }

  function JoinedIf(heading: string, parts: seq<string>): seq<string> {
    if parts == [] then [] else [heading + Join(parts, ", ")]
  }

  function Strs(vs: seq<Value>): (r: seq<string>)
    ensures |r| == |vs|
  {
    if vs == [] then [] else Strs(vs[..|vs| - 1]) + [Str(vs[|vs| - 1])]
  }

  /**
    The listed codes the answer does not mention can be joined: `', '.join`
    raises on the first one that is not a string.
   */
  predicate MissingJoinable(answer: string, ex: Expectations) {
    Strings(CodesMissing(ex.shouldInclude, IcaoCodes(answer))).Some?
  }

  /** The mentions score of a string answer. */
  function AnswerScore(answer: string, ex: Expectations): real {
    var codes := IcaoCodes(answer);
    MentionsScore(
      |Mentioned(ex.shouldMention, Lower(answer))| + |CodesFound(ex.shouldInclude, codes)|,
      |ex.shouldMention| + |ex.shouldInclude|,
      |CodesFound(ex.shouldNotInclude, codes)|)
  }

  /**
    The scored part of `evaluate_answer_mentions`, for a string answer whose
    missing codes are strings (the found and unwanted ones always are).
   */
  function ScoreMentions(answer: string, ex: Expectations): Evaluation {
    var answerLower := Lower(answer);
    var mentioned := Mentioned(ex.shouldMention, answerLower);
    var missing := Unmentioned(ex.shouldMention, answerLower);
    var codes := IcaoCodes(answer);
    var found := CodesFound(ex.shouldInclude, codes);
    var notFound := CodesMissing(ex.shouldInclude, codes);
    var unwanted := CodesFound(ex.shouldNotInclude, codes);
    var comments :=
      JoinedIf("Keywords: ", mentioned) + JoinedIf("Missing: ", missing) +
      JoinedIf("ICAOs: ", Strs(found)) + JoinedIf("Missing ICAOs: ", Strs(notFound)) +
      JoinedIf("\U{274C} Unwanted: ", Strs(unwanted));
    Evaluation("answer_mentions", Some(AnswerScore(answer, ex)),
      if comments == [] then "All mentions correct \U{2713}" else Join(comments, " | "))
  }

  /** `evaluate_answer_mentions(run, example)`; `errorText` is the text of an exception. */
  function AnswerMentions(run: Run, example: Dict, errorText: string): Evaluation {
    var answer := Get(run.outputs, "final_answer", VStr(""));
    if !Truthy(answer) then Evaluation("answer_mentions", Some(0.0), "No final answer generated")
    else
      match ExpectedOf(example)
      case Raises => Evaluation("answer_mentions", Some(0.0), "Error: " + errorText)
      case Found(expected) =>
        var sm := Get(expected, "should_mention", VList([]));
        var si := Get(expected, "should_include_icaos", VList([]));
        var sn := Get(expected, "should_not_include", VList([]));
        if !Truthy(sm) && !Truthy(si) && !Truthy(sn) then
          Evaluation("answer_mentions", None, "No mention expectations defined")
        else
          match ExpectationsOf(sm, si, sn)
          case Raises => Evaluation("answer_mentions", Some(0.0), "Error: " + errorText)
          case Found(ex) =>
            if !answer.VStr? || !MissingJoinable(answer.s, ex) then
              Evaluation("answer_mentions", Some(0.0), "Error: " + errorText)
            else ScoreMentions(answer.s, ex)
  }

  /** `evaluate_answer_mentions` gets as far as scoring a string answer against `ex`. */
  predicate ReachesScoring(run: Run, example: Dict, answer: string, ex: Expectations) {
    && Get(run.outputs, "final_answer", VStr("")) == VStr(answer)
    && answer != ""
    && ExpectedOf(example).Found?
    && var expected := ExpectedOf(example).value;
       var sm := Get(expected, "should_mention", VList([]));
       var si := Get(expected, "should_include_icaos", VList([]));
       var sn := Get(expected, "should_not_include", VList([]));
       && (Truthy(sm) || Truthy(si) || Truthy(sn))
       && ExpectationsOf(sm, si, sn) == Found(ex)
  }

  /**
    No answer scores 0 and a case without expectations scores None; any
    other score lies in [0, 1], and it is 1 exactly when every expected
    keyword and code is mentioned and no unwanted code is.
   */
  lemma AnswerMentionsMeaning(run: Run, example: Dict, errorText: string)
    ensures var r := AnswerMentions(run, example, errorText);
      && r.key == "answer_mentions"
      && (!Truthy(Get(run.outputs, "final_answer", VStr(""))) ==> r.score == Some(0.0))
      && (r.score.Some? ==> 0.0 <= r.score.value <= 1.0)
  {
    AnswerMentionsScored(run, example, errorText);
    var answer := Get(run.outputs, "final_answer", VStr(""));
    if Truthy(answer) && ExpectedOf(example).Found? {
      var expected := ExpectedOf(example).value;
      var sm := Get(expected, "should_mention", VList([]));
      var si := Get(expected, "should_include_icaos", VList([]));
      var sn := Get(expected, "should_not_include", VList([]));
      var q := ExpectationsOf(sm, si, sn);
      if q.Found? && answer.VStr? {
        AnswerScoreRange(answer.s, q.value);
      }
    }
  }

  /**
    Once scoring is reached, a listed code that is missing and not a string
    makes the comment's `', '.join` raise, so the result is the 0.0 error
    evaluation; otherwise it is the score of the answer.
   */
  lemma AnswerMentionsScored(run: Run, example: Dict, errorText: string)
    ensures forall answer: string, ex: Expectations {:trigger ReachesScoring(run, example, answer, ex)} ::
      ReachesScoring(run, example, answer, ex) ==>
      var r := AnswerMentions(run, example, errorText);
      && ((exists v :: v in CodesMissing(ex.shouldInclude, IcaoCodes(answer)) && !v.VStr?) ==>
            r == Evaluation("answer_mentions", Some(0.0), "Error: " + errorText))
      && ((forall v :: v in CodesMissing(ex.shouldInclude, IcaoCodes(answer)) ==> v.VStr?) ==>
            r.score == Some(AnswerScore(answer, ex)))
  {
  }

  /**
    The score of a string answer lies in [0, 1], and it is 1 exactly when
    every expected keyword and code is mentioned and no unwanted code is.
   */
  lemma AnswerScoreRange(answer: string, ex: Expectations)
    ensures 0.0 <= AnswerScore(answer, ex) <= 1.0
    ensures AnswerScore(answer, ex) == 1.0 <==>
      && (forall k :: k in ex.shouldMention ==> Contains(Lower(answer), Lower(k)))
      && (forall v :: v in ex.shouldInclude ==> AmongCodes(v, IcaoCodes(answer)))
      && (forall v :: v in ex.shouldNotInclude ==> !AmongCodes(v, IcaoCodes(answer)))
  {
    var codes := IcaoCodes(answer);
    MentionedAll(ex.shouldMention, Lower(answer));
    CodesFoundAll(ex.shouldInclude, codes);
    CodesFoundNone(ex.shouldNotInclude, codes);
    MentionsScoreRange(
      |Mentioned(ex.shouldMention, Lower(answer))| + |CodesFound(ex.shouldInclude, codes)|,
      |ex.shouldMention| + |ex.shouldInclude|,
      |CodesFound(ex.shouldNotInclude, codes)|);
  }

  /** All keywords are mentioned exactly when the mentioned ones are as many as the expected. */
  lemma MentionedAll(keywords: seq<string>, answerLower: string)
    ensures |Mentioned(keywords, answerLower)| <= |keywords|
    ensures |Mentioned(keywords, answerLower)| == |keywords| <==>
      forall k :: k in keywords ==> Contains(answerLower, Lower(k))
  {
    KeywordsPartition(keywords, answerLower);
    var missing := Unmentioned(keywords, answerLower);
    if missing != [] {
      assert missing[0] in missing;
    }
  }

  lemma CodesFoundAll(icaos: seq<Value>, codes: set<string>)
    ensures |CodesFound(icaos, codes)| == |icaos| <==> forall v :: v in icaos ==> AmongCodes(v, codes)
  {
    CodesPartition(icaos, codes);
    var missing := CodesMissing(icaos, codes);
    if missing != [] {
      assert missing[0] in missing;
    }
  }

  lemma CodesFoundNone(icaos: seq<Value>, codes: set<string>)
    ensures |CodesFound(icaos, codes)| == 0 <==> forall v :: v in icaos ==> !AmongCodes(v, codes)
  {
    var found := CodesFound(icaos, codes);
    if found != [] {
      assert found[0] in found;
    }
  }

  lemma {:induction false} CodesPartition(icaos: seq<Value>, codes: set<string>)
    ensures |CodesFound(icaos, codes)| + |CodesMissing(icaos, codes)| == |icaos|
  {
    if icaos != [] {
      CodesPartition(icaos[..|icaos| - 1], codes);
    }
  }

  // ---------------------------------------------------------------- length

  /** A word of `split()` starts at `i`: a non-space character after a space or at the start. */
  predicate WordStart(s: string, i: int)
    requires 0 <= i < |s|
  {
    !IsSpace(s[i]) && (i == 0 || IsSpace(s[i - 1]))
  }

  /** `len(s.split())`: the number of maximal runs of non-space characters. */
  function WordCount(s: string): (n: nat)
    ensures n <= |s|
  {
    if s == [] then 0
    else WordCount(s[..|s| - 1]) + (if WordStart(s, |s| - 1) then 1 else 0)
  }

  /** A text of spaces has no words; spaces between words separate them. */
  lemma {:induction false} WordCountAllSpace(s: string)
    requires AllSpace(s)
    ensures WordCount(s) == 0
  {
    if s != [] {
      assert AllSpace(s[..|s| - 1]);
      WordCountAllSpace(s[..|s| - 1]);
    }
  }

  /** The length score of a word count. */
  function LengthScore(words: nat): real {
    if words < 10 then 0.3
    else if words > 500 then 0.7
    else if words < 30 then 0.7
    else 1.0
  }

  /** The length bands: 0.3 below 10 words, 1.0 from 30 to 500, 0.7 in between and above. */
  lemma LengthScoreBands(words: nat)
    ensures LengthScore(words) == 0.3 <==> words < 10
    ensures LengthScore(words) == 0.7 <==> 10 <= words < 30 || words > 500
    ensures LengthScore(words) == 1.0 <==> 30 <= words <= 500
  {
  }

  function LengthComment(words: nat): string {
    var n := NatToString(words);
    if words < 10 then "Too short (" + n + " words)"
    else if words > 500 then "Too verbose (" + n + " words)"
    else if words < 30 then "Brief (" + n + " words)"
    else "Good length (" + n + " words)"
  }

  /** `evaluate_answer_length(run, example)` */
  function AnswerLength(run: Run, errorText: string): (r: Evaluation) {
    var answer := Get(run.outputs, "final_answer", VStr(""));
    if !Truthy(answer) then Evaluation("answer_length", Some(0.0), "No answer")
    else if !answer.VStr? then Evaluation("answer_length", Some(0.0), "Error: " + errorText)
    else
      var words := WordCount(answer.s);
      Evaluation("answer_length", Some(LengthScore(words)), LengthComment(words))
  }

  /** A string answer is scored by its word count alone; an answer of spaces counts as too short. */
  lemma AnswerLengthMeaning(run: Run, errorText: string)
    ensures var answer := Get(run.outputs, "final_answer", VStr(""));
      var r := AnswerLength(run, errorText);
      && (!Truthy(answer) ==> r.score == Some(0.0))
      && (answer.VStr? && answer.s != "" ==> r.score == Some(LengthScore(WordCount(answer.s))))
      && (answer.VStr? && answer.s != "" && AllSpace(answer.s) ==> r.score == Some(0.3))
  {
    var answer := Get(run.outputs, "final_answer", VStr(""));
    if answer.VStr? && AllSpace(answer.s) {
      WordCountAllSpace(answer.s);
    }
  }

  // ---------------------------------------------------------------- format

  /** The three markdown searches on the answer: a header line, a list line, a bold word. */
  datatype Markdown = Markdown(headers: bool, lists: bool, bold: bool)

  function FormatScore(m: Markdown): real {
    ((if m.headers then 1 else 0) + (if m.lists then 1 else 0) + (if m.bold then 1 else 0)) as real / 3.0
  }

  /** The format score is a third per feature present: 0, 1/3, 2/3 or 1, and 1 exactly with all three. */
  lemma FormatScoreValues(m: Markdown)
    ensures FormatScore(m) in {0.0, 1.0 / 3.0, 2.0 / 3.0, 1.0}
    ensures FormatScore(m) == 1.0 <==> m.headers && m.lists && m.bold
    ensures FormatScore(m) == 0.0 <==> !m.headers && !m.lists && !m.bold
  {
  }

  function FormatComment(m: Markdown): string {
    var parts := (if m.headers then ["Headers \U{2713}"] else []) + (if m.lists then ["Lists \U{2713}"] else [])
      + (if m.bold then ["Bold \U{2713}"] else []);
    if parts == [] then "No markdown formatting" else Join(parts, ", ")
  }

  /**
    `evaluate_answer_format(run, example)`; `search` gives the outcome of
    the three regular-expression searches on a text.
   */
  function AnswerFormat(run: Run, search: string -> Markdown, errorText: string): Evaluation {
    var answer := Get(run.outputs, "final_answer", VStr(""));
    if !Truthy(answer) then Evaluation("answer_format", Some(0.0), "No answer")
    else if !answer.VStr? then Evaluation("answer_format", Some(0.0), "Error: " + errorText)
    else Evaluation("answer_format", Some(FormatScore(search(answer.s))), FormatComment(search(answer.s)))
  }
}
