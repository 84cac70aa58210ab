/**
  What the review sources share: the `RawReview` record they produce, the
  pilot-report ("pirep") records of the airfield.directory formats, the choice
  of review text among a pirep's languages, the per-ICAO dict the loaders fill
  next to their review list, and the loading loop itself, which skips an
  entry, keeps a review or raises part-way through.
 */
module ReviewModel {
  import opened Wrappers
  import opened Seqs
  import opened PyStr
  import opened PyValue
  import opened Buckets

  /**
    A `RawReview`. The JSON-valued attributes keep the value the loader read
    (VNone for an absent key).
   */
  datatype RawReview = RawReview(
    icao: string,
    reviewText: string,
    reviewId: Value,
    rating: Value,
    timestamp: Value,
    language: Value,
    aiGenerated: Value,
    source: string)

  function IcaoOf(r: RawReview): string {
    r.icao
  }

  /** `_reviews_by_icao` as the loaders fill it, one `setdefault(...).append` per kept review. */
  function ReviewIndex(reviews: seq<RawReview>): map<string, seq<RawReview>> {
    GroupBy(reviews, IcaoOf)
  }

  /** Keeping one more review appends it to its airport's list. */
  lemma ReviewIndexAppend(reviews: seq<RawReview>, r: RawReview)
    ensures ReviewIndex(reviews + [r]) == AddTo(ReviewIndex(reviews), r.icao, r)
  {
    GroupByAppend(reviews, IcaoOf, r);
  }

  /** Each airport's list is exactly the reviews with that ICAO, in the order of the review list. */
  lemma ReviewIndexMeaning(reviews: seq<RawReview>)
    ensures forall k :: BucketOf(ReviewIndex(reviews), k) == Bucket(reviews, IcaoOf, k)
    ensures forall k :: IsSubsequence(BucketOf(ReviewIndex(reviews), k), reviews)
    ensures forall k, r :: r in reviews ==> (r in BucketOf(ReviewIndex(reviews), k) <==> r.icao == k)
  {
    GroupByBuckets(reviews, IcaoOf);
    forall k ensures IsSubsequence(BucketOf(ReviewIndex(reviews), k), reviews) {
      GroupBySubsequence(reviews, IcaoOf, k);
    }
    forall k, r | r in reviews ensures r in BucketOf(ReviewIndex(reviews), k) <==> r.icao == k {
      GroupByPlacement(reviews, IcaoOf, r, k);
    }
  }

  /** An ICAO is a key of the dict iff some review has it. */
  lemma ReviewIndexKeys(reviews: seq<RawReview>, k: string)
    ensures k in ReviewIndex(reviews) <==> exists i :: 0 <= i < |reviews| && reviews[i].icao == k
  {
    KeyOrderKeys(reviews, IcaoOf);
    KeyOrderCovers(reviews, IcaoOf);
    if exists i :: 0 <= i < |reviews| && reviews[i].icao == k {
      var i :| 0 <= i < |reviews| && reviews[i].icao == k;
      assert IcaoOf(reviews[i]) in KeyOrder(reviews, IcaoOf);
    }
  }

  /** The `content` of a pirep: a plain string, or a dict from language code to text. */
  datatype Content =
    | TextContent(text: string)
    | ByLanguage(entries: seq<(string, string)>)

  /**
    One pilot report as the JSON holds it. `id` and `language` are None when the
    key is absent; `aiGenerated` is VBool(false), the other values VNone, when
    absent; an absent `content` is the empty dict.
   */
  datatype Pirep = Pirep(
    id: Option<Value>,
    aiGenerated: Value,
    content: Content,
    rating: Value,
    createdAt: Value,
    updatedAt: Value,
    language: Option<Value>)

  /** `content.get(lang)` read as a text: an absent key reads as "", which is just as falsy. */
  function LanguageText(content: seq<(string, string)>, lang: string): (t: string)
    ensures t != "" ==> exists i :: 0 <= i < |content| && content[i] == (lang, t)
    ensures (exists i :: 0 <= i < |content| && content[i].0 == lang && content[i].1 != "" &&
              forall j :: 0 <= j < i ==> content[j].0 != lang) ==> t != ""
  {
    if content == [] then ""
    else if content[0].0 == lang then content[0].1
    else
      var t := LanguageText(content[1..], lang);
      assert forall i :: 1 <= i < |content| ==> content[i] == content[1..][i - 1];
      t
  }

  /**
    `content.get(preferred) or content.get("EN") or ""`, then the first value of
    the dict when that is empty and the dict is not.
   */
  function PickText(content: seq<(string, string)>, preferred: string): (t: string)
    ensures LanguageText(content, preferred) != "" ==> t == LanguageText(content, preferred)
    ensures LanguageText(content, preferred) == "" && LanguageText(content, "EN") != "" ==> t == LanguageText(content, "EN")
    ensures LanguageText(content, preferred) == "" && LanguageText(content, "EN") == "" ==>
      t == (if content == [] then "" else content[0].1)
  {
    var preferredText := LanguageText(content, preferred);
    var englishText := LanguageText(content, "EN");
    var text := if preferredText != "" then preferredText else if englishText != "" then englishText else "";
    if text == "" && content != [] then content[0].1 else text
  }

  /** The chosen text is always one of the dict's values, or "" for an empty dict. */
  lemma PickTextIsAValue(content: seq<(string, string)>, preferred: string)
    ensures var t := PickText(content, preferred);
      (content == [] ==> t == "") && (content != [] ==> exists i :: 0 <= i < |content| && content[i].1 == t)
  {
    var t := PickText(content, preferred);
    if content != [] && t != "" && t != content[0].1 {
      if LanguageText(content, preferred) != "" {
        var i :| 0 <= i < |content| && content[i] == (preferred, t);
      } else {
        var i :| 0 <= i < |content| && content[i] == ("EN", LanguageText(content, "EN"));
        assert content[i].1 == t;
      }
    }
  }

  /**
    The fallback is the FIRST value only: with no preferred or English text and
    an empty first value, a later non-empty text in another language is not used.
   */
  lemma PickTextFirstValueOnly()
    ensures PickText([("DE", ""), ("FR", "Piste courte")], "EN") == ""
  {
    assert LanguageText([("DE", ""), ("FR", "Piste courte")], "EN") == "";
  }

  /** The review text a pirep gives once stripped; a plain-string content is used as it is. */
  function PirepText(content: Content, preferred: string): (t: string)
    ensures t == "" || (!IsSpace(t[0]) && !IsSpace(t[|t| - 1]))
  {
    match content
    case TextContent(s) => Strip(s)
    case ByLanguage(entries) => Strip(PickText(entries, preferred))
  }

  /** `filter_ai_generated and pirep.get("ai_generated", False)` */
  predicate DroppedAsAi(filterAiGenerated: bool, p: Pirep) {
    filterAiGenerated && Truthy(p.aiGenerated)
  }

  /** What one turn of a loading loop does with its entry. */
  datatype Outcome<T> = Skip | Keep(value: T) | Raise

  /** The list built so far, and whether an exception ended the loop. */
  datatype Loaded<T> = Loaded(items: seq<T>, raised: bool)

  /** One more turn: nothing happens once the loop has raised. */
  function Advance<T>(l: Loaded<T>, o: Outcome<T>): Loaded<T> {
    if l.raised then l
    else
      match o
      case Skip => l
      case Keep(x) => Loaded(l.items + [x], false)
      case Raise => Loaded(l.items, true)
  }

  /** The loop over `s`: the reviews appended before the first exception, if any. */
  function Run<S, T>(s: seq<S>, f: S -> Outcome<T>): Loaded<T> {
    if s == [] then Loaded([], false)
    else Advance(Run(s[..|s| - 1], f), f(s[|s| - 1]))
  }

  lemma RunAppend<S, T>(s: seq<S>, x: S, f: S -> Outcome<T>)
    ensures Run(s + [x], f) == Advance(Run(s, f), f(x))
  {
    assert (s + [x])[..|s|] == s;
  }

  /**
    The loop raises iff some entry raises; every item it built is kept by some
    entry, and without an exception every kept entry's item is there.
   */
  lemma {:induction false} RunMeaning<S, T>(s: seq<S>, f: S -> Outcome<T>)
    ensures Run(s, f).raised <==> exists i :: 0 <= i < |s| && f(s[i]).Raise?
    ensures forall y :: y in Run(s, f).items ==> exists i :: 0 <= i < |s| && f(s[i]) == Keep(y)
    ensures !Run(s, f).raised ==> forall i :: 0 <= i < |s| && f(s[i]).Keep? ==> f(s[i]).value in Run(s, f).items
  {
    if s != [] {
      var s' := s[..|s| - 1];
      RunMeaning(s', f);
      assert forall i :: 0 <= i < |s'| ==> s'[i] == s[i];
    }
  }

  /** Once an entry has raised, the rest of the loop never runs. */
  lemma {:induction false} RunAfterRaise<S, T>(s: seq<S>, f: S -> Outcome<T>, i: nat)
    requires i <= |s|
    requires Run(s[..i], f).raised
    ensures Run(s, f) == Run(s[..i], f)
  {
    if i < |s| {
      var s' := s[..|s| - 1];
      assert s'[..i] == s[..i];
      RunAfterRaise(s', f, i);
    } else {
      assert s[..i] == s;
    }
  }

  /** An exception in `p` ends the loop: whatever follows is never looked at. */
  lemma RunRaisedConcat<S, T>(p: seq<S>, q: seq<S>, f: S -> Outcome<T>)
    requires Run(p, f).raised
    ensures Run(p + q, f) == Run(p, f)
  {
    assert (p + q)[..|p|] == p;
    RunAfterRaise(p + q, f, |p|);
  }
}
