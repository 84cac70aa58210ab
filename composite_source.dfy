/**
  `CompositeReviewSource`: the reviews of several sources in one list, in
  source order, optionally dropping every review whose truthy `review_id` was
  already seen. The combined list and its per-ICAO dict are built once, on the
  first query.
 */
module CompositeSource {
  import opened Wrappers
  import opened Seqs
  import opened PyStr
  import opened PyValue
  import opened Buckets
  import opened ReviewModel

  /** The inner loop's state: the reviews kept so far and `seen_ids`. */
  datatype Dedup = Dedup(kept: seq<RawReview>, seen: set<Value>)

  /**
    One review: when deduplicating, a truthy id already seen drops it and a new
    one is recorded; any other review is kept.
   */
  function DedupStep(enabled: bool, d: Dedup, r: RawReview): Dedup {
    if enabled && Truthy(r.reviewId) then
      if r.reviewId in d.seen then d else Dedup(d.kept + [r], d.seen + {r.reviewId})
    else Dedup(d.kept + [r], d.seen)
  }

  /** The loop over the combined list, from an empty list and an empty `seen_ids`. */
  function Dedupe(enabled: bool, rs: seq<RawReview>): Dedup {
    if rs == [] then Dedup([], {})
    else DedupStep(enabled, Dedupe(enabled, rs[..|rs| - 1]), rs[|rs| - 1])
  }

  lemma DedupeAppend(enabled: bool, rs: seq<RawReview>, r: RawReview)
    ensures Dedupe(enabled, rs + [r]) == DedupStep(enabled, Dedupe(enabled, rs), r)
  {
    assert (rs + [r])[..|rs|] == rs;
  }

  /** No earlier review has the same id. */
  predicate FirstWithId(rs: seq<RawReview>, i: int)
    requires 0 <= i < |rs|
  {
    forall j :: 0 <= j < i ==> rs[j].reviewId != rs[i].reviewId
  }

  /** The reference rule: a review survives unless deduplicating and an earlier review has its truthy id. */
  predicate KeptAt(enabled: bool, rs: seq<RawReview>, i: int)
    requires 0 <= i < |rs|
  {
    !enabled || !Truthy(rs[i].reviewId) || FirstWithId(rs, i)
  }

  /** The reviews the reference rule keeps, in order. */
  function Keepers(enabled: bool, rs: seq<RawReview>): seq<RawReview> {
    if rs == [] then []
    else Keepers(enabled, rs[..|rs| - 1]) + (if KeptAt(enabled, rs, |rs| - 1) then [rs[|rs| - 1]] else [])
  }

  /** The truthy ids of a list. */
  function TruthyIds(rs: seq<RawReview>): set<Value> {
    set i | 0 <= i < |rs| && Truthy(rs[i].reviewId) :: rs[i].reviewId
  }

  lemma TruthyIdsAppend(rs: seq<RawReview>, r: RawReview)
    ensures TruthyIds(rs + [r]) == TruthyIds(rs) + (if Truthy(r.reviewId) then {r.reviewId} else {})
  {
    var s := rs + [r];
    assert forall i :: 0 <= i < |rs| ==> s[i] == rs[i];
    assert s[|rs|] == r;
  }

  /**
    The loop keeps exactly what the reference rule keeps, and when
    deduplicating `seen_ids` ends as the set of truthy ids of the whole list.
   */
  lemma {:induction false} DedupeMeaning(enabled: bool, rs: seq<RawReview>)
    ensures Dedupe(enabled, rs).kept == Keepers(enabled, rs)
    ensures enabled ==> Dedupe(enabled, rs).seen == TruthyIds(rs)
  {
    if rs != [] {
      var n := |rs| - 1;
      var p := rs[..n];
      var x := rs[n];
      DedupeMeaning(enabled, p);
      assert rs == p + [x];
      TruthyIdsAppend(p, x);
      if enabled && Truthy(x.reviewId) {
        if x.reviewId in TruthyIds(p) {
          var j :| 0 <= j < |p| && Truthy(p[j].reviewId) && p[j].reviewId == x.reviewId;
          assert rs[j].reviewId == rs[n].reviewId;
          assert !KeptAt(enabled, rs, n);
        } else {
          forall j | 0 <= j < n ensures rs[j].reviewId != rs[n].reviewId {
            assert p[j] == rs[j];
          }
          assert KeptAt(enabled, rs, n);
        }
      }
    }
  }

  /** What the reference rule keeps is a subsequence of the list. */
  lemma {:induction false} KeepersSubsequence(enabled: bool, rs: seq<RawReview>)
    ensures IsSubsequence(Keepers(enabled, rs), rs)
  {
    if rs != [] {
      var p := rs[..|rs| - 1];
      var x := rs[|rs| - 1];
      KeepersSubsequence(enabled, p);
      assert rs == p + [x];
      if KeptAt(enabled, rs, |rs| - 1) {
        assert Keepers(enabled, rs) == Keepers(enabled, p) + [x];
        SubsequenceAppendBoth(Keepers(enabled, p), p, x);
      } else {
        assert Keepers(enabled, rs) == Keepers(enabled, p) + [] == Keepers(enabled, p);
        SubsequenceExtend(Keepers(enabled, p), p, x);
      }
    }
  }

  /** Without deduplication everything is kept. */
  lemma {:induction false} KeepersDisabled(rs: seq<RawReview>)
    ensures Keepers(false, rs) == rs
  {
    if rs != [] {
      KeepersDisabled(rs[..|rs| - 1]);
      assert rs == rs[..|rs| - 1] + [rs[|rs| - 1]];
    }
  }

  /** Every review the rule admits is kept, whatever comes after it. */
  lemma {:induction false} KeepersKeep(enabled: bool, rs: seq<RawReview>, i: int)
    requires 0 <= i < |rs| && KeptAt(enabled, rs, i)
    ensures rs[i] in Keepers(enabled, rs)
  {
    var n := |rs| - 1;
    var p := rs[..n];
    if i < n {
      assert p[i] == rs[i];
      assert KeptAt(enabled, p, i);
      KeepersKeep(enabled, p, i);
    }
  }

  /** No two reviews of the list share a truthy id. */
  predicate DistinctTruthyIds(rs: seq<RawReview>) {
    forall i, j :: 0 <= i < j < |rs| && Truthy(rs[j].reviewId) ==> rs[i].reviewId != rs[j].reviewId
  }

  /** When deduplicating, no two kept reviews share a truthy id. */
  lemma {:induction false} KeepersDistinctIds(rs: seq<RawReview>)
    ensures DistinctTruthyIds(Keepers(true, rs))
  {
    if rs != [] {
      var n := |rs| - 1;
      var p := rs[..n];
      var x := rs[n];
      KeepersDistinctIds(p);
      var kp := Keepers(true, p);
      var k := Keepers(true, rs);
      if !KeptAt(true, rs, n) {
        assert k == kp + [] == kp;
      } else {
        assert k == kp + [x];
        KeepersSubsequence(true, p);
        SubsequenceElements(kp, p);
        forall i, j | 0 <= i < j < |k| && Truthy(k[j].reviewId) ensures k[i].reviewId != k[j].reviewId {
          if j == |kp| {
            assert k[j] == x && FirstWithId(rs, n);
            assert k[i] == kp[i] && kp[i] in p;
            var m :| 0 <= m < |p| && p[m] == kp[i];
            assert rs[m] == p[m] && m < n;
            assert rs[m].reviewId != rs[n].reviewId;
          } else {
            assert k[i] == kp[i] && k[j] == kp[j];
          }
        }
      }
    }
  }

  /** Deduplication loses no id: every id of the list is the id of some kept review. */
  lemma {:induction false} KeepersKeepEveryId(enabled: bool, rs: seq<RawReview>, i: int)
    requires 0 <= i < |rs|
    ensures exists r :: r in Keepers(enabled, rs) && r.reviewId == rs[i].reviewId
    decreases i
  {
    if KeptAt(enabled, rs, i) {
      KeepersKeep(enabled, rs, i);
    } else {
      var j :| 0 <= j < i && rs[j].reviewId == rs[i].reviewId;
      KeepersKeepEveryId(enabled, rs, j);
    }
  }

  /** What the outer loop does with one source: `get_reviews()` either returns its list or raises. */
  function SourceOutcome(result: Option<seq<RawReview>>): Outcome<seq<RawReview>> {
    if result.None? then Raise else Keep(result.value)
  }

  /** The lists the outer loop reads, up to the first source that raises. */
  function Fetched(results: seq<Option<seq<RawReview>>>): Loaded<seq<RawReview>> {
    Run(results, SourceOutcome)
  }

  /** The lists one after the other. */
  function Concat(batches: seq<seq<RawReview>>): seq<RawReview> {
    if batches == [] then []
    else Concat(batches[..|batches| - 1]) + batches[|batches| - 1]
  }

  lemma ConcatAppend(batches: seq<seq<RawReview>>, b: seq<RawReview>)
    ensures Concat(batches + [b]) == Concat(batches) + b
  {
    assert (batches + [b])[..|batches|] == batches;
  }

  /** `_load_reviews`' two loops: the combined, deduplicated list, and whether a source raised. */
  function CompositeLoad(enabled: bool, results: seq<Option<seq<RawReview>>>): Loaded<RawReview> {
    var fetched := Fetched(results);
    Loaded(Dedupe(enabled, Concat(fetched.items)).kept, fetched.raised)
  }

  /**
    The load raises iff some source raises; what it keeps is what the reference
    rule keeps of the reviews read before that, a subsequence of them in which,
    when deduplicating, no truthy id repeats.
   */
  lemma CompositeLoadMeaning(enabled: bool, results: seq<Option<seq<RawReview>>>)
    ensures var l := CompositeLoad(enabled, results); var all := Concat(Fetched(results).items);
      && (l.raised <==> exists i :: 0 <= i < |results| && results[i].None?)
      && l.items == Keepers(enabled, all)
      && IsSubsequence(l.items, all)
      && (!enabled ==> l.items == all)
      && (enabled ==> DistinctTruthyIds(l.items))
  {
    var all := Concat(Fetched(results).items);
    RunMeaning(results, SourceOutcome);
    DedupeMeaning(enabled, all);
    KeepersSubsequence(enabled, all);
    if enabled {
      KeepersDistinctIds(all);
    } else {
      KeepersDisabled(all);
    }
  }

  /** The inner loop over one source's reviews, continuing the state built so far. */
  method DedupeBatch(enabled: bool, ghost done: seq<RawReview>, batch: seq<RawReview>,
                     kept0: seq<RawReview>, seen0: set<Value>, byIcao0: map<string, seq<RawReview>>)
    returns (kept: seq<RawReview>, seen: set<Value>, byIcao: map<string, seq<RawReview>>)
    requires Dedupe(enabled, done) == Dedup(kept0, seen0)
    requires byIcao0 == ReviewIndex(kept0)
    ensures Dedupe(enabled, done + batch) == Dedup(kept, seen)
    ensures byIcao == ReviewIndex(kept)
  {
    kept, seen, byIcao := kept0, seen0, byIcao0;
    assert done + batch[..0] == done;
    for j := 0 to |batch|
      invariant Dedupe(enabled, done + batch[..j]) == Dedup(kept, seen)
      invariant byIcao == ReviewIndex(kept)
    {
      var review := batch[j];
      assert done + batch[..j + 1] == (done + batch[..j]) + [review];
      DedupeAppend(enabled, done + batch[..j], review);
      if enabled && Truthy(review.reviewId) {
        if review.reviewId in seen {
          continue;
        }
        seen := seen + {review.reviewId};
      }
      ReviewIndexAppend(kept, review);
      kept := kept + [review];
      byIcao := AppendTo(byIcao, review.icao, review);
    }
    assert batch[..|batch|] == batch;
  }

  /** One more source: one that raises ends the load; otherwise its list is appended. */
  lemma SourceStep(enabled: bool, results: seq<Option<seq<RawReview>>>, i: nat)
    requires i < |results| && !Fetched(results[..i]).raised
    ensures results[i].None? ==>
      CompositeLoad(enabled, results) == Loaded(Dedupe(enabled, Concat(Fetched(results[..i]).items)).kept, true)
    ensures results[i].Some? ==>
      && !Fetched(results[..i + 1]).raised
      && Concat(Fetched(results[..i + 1]).items) == Concat(Fetched(results[..i]).items) + results[i].value
  {
    assert results[..i + 1] == results[..i] + [results[i]];
    RunAppend(results[..i], results[i], SourceOutcome);
    if results[i].None? {
      RunAfterRaise(results, SourceOutcome, i + 1);
    } else {
      ConcatAppend(Fetched(results[..i]).items, results[i].value);
    }
  }

  /** The outer loop over the sources, stopping where a source's `get_reviews()` raises. */
  method LoadSources(enabled: bool, results: seq<Option<seq<RawReview>>>)
    returns (loaded: Loaded<RawReview>, byIcao: map<string, seq<RawReview>>)
    ensures loaded == CompositeLoad(enabled, results)
    ensures byIcao == ReviewIndex(loaded.items)
  {
    var kept: seq<RawReview> := [];
    var seen: set<Value> := {};
    byIcao := map[];
    for i := 0 to |results|
      invariant !Fetched(results[..i]).raised
      invariant Dedupe(enabled, Concat(Fetched(results[..i]).items)) == Dedup(kept, seen)
      invariant byIcao == ReviewIndex(kept)
    {
      SourceStep(enabled, results, i);
      match results[i]
      case None =>
        return Loaded(kept, true), byIcao;
      case Some(batch) =>
        kept, seen, byIcao := DedupeBatch(enabled, Concat(Fetched(results[..i]).items), batch, kept, seen, byIcao);
    }
    assert results[..|results|] == results;
    loaded := Loaded(kept, false);
  }

  /** The fields: the combined reviews and the per-ICAO dict. */
  datatype CompositeState = CompositeState(reviews: Option<seq<RawReview>>, reviewsByIcao: Option<map<string, seq<RawReview>>>)

  datatype CompositeResult = CompositeResult(state: CompositeState, raised: bool)

  /**
    `_load_reviews`: nothing to do once loaded; the fields are set before the
    sources are read, so a source that raises leaves the reviews combined
    before it, and those stay.
   */
  function AfterLoad(st: CompositeState, enabled: bool, results: seq<Option<seq<RawReview>>>): (r: CompositeResult)
    ensures st.reviews.Some? ==> r == CompositeResult(st, false)
    ensures st.reviews.None? ==>
      (&& r.state.reviews == Some(CompositeLoad(enabled, results).items)
       && r.state.reviewsByIcao == Some(ReviewIndex(r.state.reviews.value))
       && r.raised == CompositeLoad(enabled, results).raised)
  {
    if st.reviews.Some? then CompositeResult(st, false)
    else
      var loaded := CompositeLoad(enabled, results);
      CompositeResult(CompositeState(Some(loaded.items), Some(ReviewIndex(loaded.items))), loaded.raised)
  }

  /** `get_source_name`: "composite(" and the sources' names joined by ", ", then ")". */
  function CompositeName(names: seq<string>): (n: string)
    ensures |n| >= 11 && n[..10] == "composite(" && n[|n| - 1] == ')'
    ensures names == [] ==> n == "composite()"
    ensures |names| == 1 ==> n == "composite(" + names[0] + ")"
  {
    "composite(" + Join(names, ", ") + ")"
  }

  class Composite {
    /** The `get_source_name()` of each source, in order. */
    const sourceNames: seq<string>
    const deduplicateById: bool
    var reviews: Option<seq<RawReview>>
    var reviewsByIcao: Option<map<string, seq<RawReview>>>

    function State(): CompositeState
      reads this
    {
      CompositeState(reviews, reviewsByIcao)
    }

    /** The per-ICAO dict is set with the review list and always agrees with it. */
    ghost predicate Valid()
      reads this
    {
      && (reviews.None? <==> reviewsByIcao.None?)
      && (reviews.Some? ==> reviewsByIcao.value == ReviewIndex(reviews.value))
    }

    constructor (sourceNames: seq<string>, deduplicateById: bool)
      ensures Valid()
      ensures this.sourceNames == sourceNames && this.deduplicateById == deduplicateById
      ensures State() == CompositeState(None, None)
    {
      this.sourceNames := sourceNames;
      this.deduplicateById := deduplicateById;
      reviews := None;
      reviewsByIcao := None;
    }

    /**
      `_load_reviews`, given what each source's `get_reviews()` returns (None
      where it raises); `raised` where the load raises.
     */
    method LoadReviews(results: seq<Option<seq<RawReview>>>) returns (raised: bool)
      requires Valid()
      modifies this
      ensures Valid()
      ensures CompositeResult(State(), raised) == AfterLoad(old(State()), deduplicateById, results)
    {
      if reviews.Some? {
        return false;
      }
      var loaded, byIcao := LoadSources(deduplicateById, results);
      reviews := Some(loaded.items);
      reviewsByIcao := Some(byIcao);
      raised := loaded.raised;
    }

    /** `get_reviews`: None where the load raises. */
    method GetReviews(results: seq<Option<seq<RawReview>>>) returns (result: Option<seq<RawReview>>)
      requires Valid()
      modifies this
      ensures Valid()
      ensures State() == AfterLoad(old(State()), deduplicateById, results).state
      ensures result.None? <==> AfterLoad(old(State()), deduplicateById, results).raised
      ensures result.Some? ==> result.value == reviews.value
    {
      var raised := LoadReviews(results);
      if raised {
        return None;
      }
      result := Some(reviews.value);
    }

    /** `get_reviews_for_icao`: the query is upper-cased before the lookup; an unknown ICAO gives []. */
    method GetReviewsForIcao(results: seq<Option<seq<RawReview>>>, icao: string) returns (result: Option<seq<RawReview>>)
      requires Valid()
      modifies this
      ensures Valid()
      ensures State() == AfterLoad(old(State()), deduplicateById, results).state
      ensures result.None? <==> AfterLoad(old(State()), deduplicateById, results).raised
      ensures result.Some? ==> result.value == Bucket(reviews.value, IcaoOf, Upper(icao))
    {
      var raised := LoadReviews(results);
      if raised {
        return None;
      }
      ReviewIndexMeaning(reviews.value);
      result := Some(BucketOf(reviewsByIcao.value, Upper(icao)));
    }

    /** `get_icaos`: the ICAO codes that have a review. */
    method GetIcaos(results: seq<Option<seq<RawReview>>>) returns (result: Option<set<string>>)
      requires Valid()
      modifies this
      ensures Valid()
      ensures State() == AfterLoad(old(State()), deduplicateById, results).state
      ensures result.None? <==> AfterLoad(old(State()), deduplicateById, results).raised
      ensures result.Some? ==> forall k :: k in result.value <==> exists i :: 0 <= i < |reviews.value| && reviews.value[i].icao == k
    {
      var raised := LoadReviews(results);
      if raised {
        return None;
      }
      forall k {
        ReviewIndexKeys(reviews.value, k);
      }
      result := Some(reviewsByIcao.value.Keys);
    }

    /** `get_source_name` */
    function SourceName(): (name: string)
      reads this
      ensures name == CompositeName(sourceNames)
    {
      CompositeName(sourceNames)
    }
  }
}
