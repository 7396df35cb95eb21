/** The batch part of `recommend_jobs`: score every catalog job, keep
    those whose unrounded total is positive, stable-sort them by rounded
    score, highest first, and cut the list at `limit`. */
module Ranking {
  import opened Wrappers
  import opened PyValue
  import opened Scoring

  /** One entry of the result list (the `job_details` copy is not kept). */
  datatype Recommendation = Recommendation(
    jobId: Value,
    jobTitle: Value,
    company: Value,
    location: Value,
    salaryRange: Value,
    employmentType: Value,
    matchScore: int,
    breakdown: Criteria<int>)

  /** The entry a job contributes, or `None` when scoring it raises or
      its unrounded total is not positive. */
  function Admit(w: Weights, prefs: Preferences, job: Record): (r: Option<Recommendation>)
    requires HasAllWeights(w)
    ensures r.Some? <==> ScoreJob(w, prefs, job).Some? && ScoreJob(w, prefs, job).value.0 > 0.0
    ensures r.Some? ==>
      r.value.matchScore == RoundHalfEven(ScoreJob(w, prefs, job).value.0) &&
      r.value.breakdown == ScoreJob(w, prefs, job).value.1 &&
      r.value.jobId == Get(job, "job_id", PyNone) &&
      r.value.jobTitle == Get(job, "title", PyNone) &&
      r.value.company == Get(job, "company", PyNone) &&
      r.value.location == Get(job, "location", PyNone) &&
      r.value.salaryRange == Get(job, "salary_range", PyNone) &&
      r.value.employmentType == Get(job, "employment_type", PyNone)
  {
    match ScoreJob(w, prefs, job)
    case None => None
    case Some((total, breakdown)) =>
      if total > 0.0 then
        Some(Recommendation(
          Get(job, "job_id", PyNone), Get(job, "title", PyNone), Get(job, "company", PyNone),
          Get(job, "location", PyNone), Get(job, "salary_range", PyNone),
          Get(job, "employment_type", PyNone), RoundHalfEven(total), breakdown))
      else None
  }

  /** The verdict of every catalog job, in catalog order. */
  function Admissions(w: Weights, prefs: Preferences, jobs: seq<Record>): (r: seq<Option<Recommendation>>)
    requires HasAllWeights(w)
    ensures |r| == |jobs|
  {
    seq(|jobs|, i requires 0 <= i < |jobs| => Admit(w, prefs, jobs[i]))
  }

  /** Extending the verdicts by one extends what is kept by that
      verdict's entry, if it has one. */
  lemma KeptStep(xs: seq<Option<Recommendation>>, i: nat)
    requires i < |xs|
    ensures Kept(xs[..i + 1]) == Kept(xs[..i]) + if xs[i].Some? then [xs[i].value] else []
  {
    assert xs[..i + 1][..i] == xs[..i];
  }

  /** The entries present among some verdicts, in their order. */
  function Kept(xs: seq<Option<Recommendation>>): (r: seq<Recommendation>)
    ensures |r| <= |xs|
    decreases |xs|
  {
    if |xs| == 0 then []
    else Kept(xs[..|xs| - 1]) + if xs[|xs| - 1].Some? then [xs[|xs| - 1].value] else []
  }

  /** Every kept entry is one of the verdicts. */
  lemma {:induction false} KeptFrom(xs: seq<Option<Recommendation>>)
    ensures forall e :: e in Kept(xs) ==> exists j :: 0 <= j < |xs| && xs[j] == Some(e)
    decreases |xs|
  {
    if |xs| > 0 {
      var init := xs[..|xs| - 1];
      KeptFrom(init);
      forall e | e in Kept(xs)
        ensures exists j :: 0 <= j < |xs| && xs[j] == Some(e)
      {
        if e in Kept(init) {
          var j :| 0 <= j < |init| && init[j] == Some(e);
          assert xs[j] == init[j];
        } else {
          assert xs[|xs| - 1] == Some(e);
        }
      }
    }
  }

  /** Every present verdict is kept. */
  lemma {:induction false} KeptAll(xs: seq<Option<Recommendation>>)
    ensures forall j :: 0 <= j < |xs| && xs[j].Some? ==> xs[j].value in Kept(xs)
    decreases |xs|
  {
    if |xs| > 0 {
      var init := xs[..|xs| - 1];
      KeptAll(init);
      forall j | 0 <= j < |xs| && xs[j].Some?
        ensures xs[j].value in Kept(xs)
      {
        if j < |init| {
          assert xs[j] == init[j];
        }
      }
    }
  }

  /** `scored_jobs` after the loop over `jobs`: the admitted entries, in
      catalog order. */
  function ScoredJobs(w: Weights, prefs: Preferences, jobs: seq<Record>): (r: seq<Recommendation>)
    requires HasAllWeights(w)
    ensures |r| <= |jobs|
  {
    Kept(Admissions(w, prefs, jobs))
  }

  /** Every scored entry comes from a catalog job with a positive total. */
  lemma ScoredFromCatalog(w: Weights, prefs: Preferences, jobs: seq<Record>)
    requires HasAllWeights(w)
    ensures forall e :: e in ScoredJobs(w, prefs, jobs) ==>
      exists j :: 0 <= j < |jobs| && Admit(w, prefs, jobs[j]) == Some(e)
  {
    var verdicts := Admissions(w, prefs, jobs);
    KeptFrom(verdicts);
    forall e | e in ScoredJobs(w, prefs, jobs)
      ensures exists j :: 0 <= j < |jobs| && Admit(w, prefs, jobs[j]) == Some(e)
    {
      var j :| 0 <= j < |verdicts| && verdicts[j] == Some(e);
      assert Admit(w, prefs, jobs[j]) == verdicts[j];
    }
  }

  /** Every catalog job with a positive total has its entry scored. */
  lemma CatalogScored(w: Weights, prefs: Preferences, jobs: seq<Record>)
    requires HasAllWeights(w)
    ensures forall j :: 0 <= j < |jobs| && Admit(w, prefs, jobs[j]).Some? ==>
      Admit(w, prefs, jobs[j]).value in ScoredJobs(w, prefs, jobs)
  {
    var verdicts := Admissions(w, prefs, jobs);
    KeptAll(verdicts);
    forall j | 0 <= j < |jobs| && Admit(w, prefs, jobs[j]).Some?
      ensures Admit(w, prefs, jobs[j]).value in ScoredJobs(w, prefs, jobs)
    {
      assert Admit(w, prefs, jobs[j]) == verdicts[j];
    }
  }

  // ---------------------------------------------------------------- sorting

  /** Place `x` in front of the first entry whose score does not exceed
      its own: the step of a stable sort by descending score. */
  function InsertByScore(x: Recommendation, s: seq<Recommendation>): (r: seq<Recommendation>)
    ensures |r| == |s| + 1
  {
    if |s| == 0 then [x]
    else if s[0].matchScore <= x.matchScore then [x] + s
    else [s[0]] + InsertByScore(x, s[1..])
  }

  /** `scored_jobs.sort(key=match_score, reverse=True)`: Python's sort is
      stable, also in reverse, so entries with equal scores keep the order
      they had. */
  function SortByScore(s: seq<Recommendation>): (r: seq<Recommendation>)
    ensures |r| == |s|
  {
    if |s| == 0 then [] else InsertByScore(s[0], SortByScore(s[1..]))
  }

  lemma {:induction false} InsertPermutes(x: Recommendation, s: seq<Recommendation>)
    ensures multiset(InsertByScore(x, s)) == multiset(s) + multiset{x}
    decreases |s|
  {
    if |s| > 0 {
      assert s == [s[0]] + s[1..];
      if s[0].matchScore > x.matchScore {
        InsertPermutes(x, s[1..]);
      }
    }
  }

  /** The sort is a permutation. */
  lemma {:induction false} SortPermutes(s: seq<Recommendation>)
    ensures multiset(SortByScore(s)) == multiset(s)
    decreases |s|
  {
    if |s| > 0 {
      assert s == [s[0]] + s[1..];
      SortPermutes(s[1..]);
      InsertPermutes(s[0], SortByScore(s[1..]));
    }
  }

  predicate NonIncreasing(s: seq<Recommendation>) {
    forall i, j :: 0 <= i < j < |s| ==> s[i].matchScore >= s[j].matchScore
  }

  /** Inserting under a bound that `x` and every entry respect gives a
      list that respects it too. */
  lemma {:induction false} InsertBelow(x: Recommendation, s: seq<Recommendation>, bound: int)
    requires x.matchScore <= bound
    requires forall i :: 0 <= i < |s| ==> s[i].matchScore <= bound
    ensures forall i :: 0 <= i < |s| + 1 ==> InsertByScore(x, s)[i].matchScore <= bound
    decreases |s|
  {
    if |s| > 0 && s[0].matchScore > x.matchScore {
      assert forall i :: 0 <= i < |s| - 1 ==> s[1..][i] == s[i + 1];
      InsertBelow(x, s[1..], bound);
      assert InsertByScore(x, s) == [s[0]] + InsertByScore(x, s[1..]);
    }
  }

  lemma {:induction false} InsertKeepsOrder(x: Recommendation, s: seq<Recommendation>)
    requires NonIncreasing(s)
    ensures NonIncreasing(InsertByScore(x, s))
    decreases |s|
  {
    if |s| > 0 && s[0].matchScore > x.matchScore {
      InsertKeepsOrder(x, s[1..]);
      var r := InsertByScore(x, s[1..]);
      assert forall i :: 0 <= i < |s| - 1 ==> s[1..][i] == s[i + 1];
      InsertBelow(x, s[1..], s[0].matchScore);
      assert InsertByScore(x, s) == [s[0]] + r;
    }
  }

  /** The sorted list is ordered by non-increasing score. */
  lemma {:induction false} SortedNonIncreasing(s: seq<Recommendation>)
    ensures NonIncreasing(SortByScore(s))
    decreases |s|
  {
    if |s| > 0 {
      SortedNonIncreasing(s[1..]);
      InsertKeepsOrder(s[0], SortByScore(s[1..]));
    }
  }

  /** The entries with score `k`, in order. */
  function WithScore(s: seq<Recommendation>, k: int): (r: seq<Recommendation>)
    ensures |r| <= |s|
  {
    if |s| == 0 then []
    else (if s[0].matchScore == k then [s[0]] else []) + WithScore(s[1..], k)
  }

  lemma {:induction false} WithScoreInsert(x: Recommendation, s: seq<Recommendation>, k: int)
    ensures WithScore(InsertByScore(x, s), k) ==
      (if x.matchScore == k then [x] else []) + WithScore(s, k)
    decreases |s|
  {
    var own := if x.matchScore == k then [x] else [];
    if |s| == 0 {
      assert InsertByScore(x, s) == [x];
      assert [x][1..] == [];
    } else if s[0].matchScore <= x.matchScore {
      assert InsertByScore(x, s) == [x] + s;
      assert ([x] + s)[1..] == s;
    } else {
      var tail := InsertByScore(x, s[1..]);
      assert InsertByScore(x, s) == [s[0]] + tail;
      assert ([s[0]] + tail)[1..] == tail;
      WithScoreInsert(x, s[1..], k);
      var head := if s[0].matchScore == k then [s[0]] else [];
      assert WithScore(s, k) == head + WithScore(s[1..], k);
      assert WithScore(InsertByScore(x, s), k) == head + (own + WithScore(s[1..], k));
      assert head == [] || own == [];
    }
  }

  /** Stability: for every score, the entries with that score appear in
      the sorted list exactly in the order they had before. */
  lemma {:induction false} SortStable(s: seq<Recommendation>, k: int)
    ensures WithScore(SortByScore(s), k) == WithScore(s, k)
    decreases |s|
  {
    if |s| > 0 {
      SortStable(s[1..], k);
      WithScoreInsert(s[0], SortByScore(s[1..]), k);
    }
  }

  lemma {:induction false} WithScorePrefix(s: seq<Recommendation>, n: nat, k: int)
    requires n <= |s|
    ensures WithScore(s[..n], k) <= WithScore(s, k)
    decreases n
  {
    if n > 0 {
      assert s[..n][1..] == s[1..][..n - 1];
      WithScorePrefix(s[1..], n - 1, k);
    }
  }

  // ---------------------------------------------------------------- limit

  /** `s[:limit]`: a negative limit drops that many entries from the end. */
  function Take(s: seq<Recommendation>, limit: int): (r: seq<Recommendation>)
    ensures |r| <= |s| && r == s[..|r|]
    ensures limit >= 0 ==> |r| == if limit <= |s| then limit else |s|
    ensures limit < 0 ==> |r| == if |s| + limit >= 0 then |s| + limit else 0
  {
    if limit >= 0 then s[..if limit <= |s| then limit else |s|]
    else s[..if |s| + limit >= 0 then |s| + limit else 0]
  }

  /** The `limit` `recommend_jobs` uses when its caller gives none. */
  const DEFAULT_LIMIT: int := 20

  /** Under the default limit the result holds the twenty best admitted
      entries, or all of them when fewer are admitted. */
  lemma DefaultLimitLength(w: Weights, prefs: Preferences, jobs: seq<Record>)
    requires HasAllWeights(w)
    ensures var n := |ScoredJobs(w, prefs, jobs)|;
      |Recommend(w, prefs, jobs, DEFAULT_LIMIT)| == if n <= DEFAULT_LIMIT then n else DEFAULT_LIMIT
  {
  }

  /** `recommend_jobs` on a given catalog and weights: empty for an empty
      catalog, at most `limit` entries for a non-negative limit, never more
      entries than jobs, and a prefix of the full sorted list of admitted
      entries. */
  function Recommend(w: Weights, prefs: Preferences, jobs: seq<Record>, limit: int): (r: seq<Recommendation>)
    requires HasAllWeights(w)
    ensures |jobs| == 0 ==> r == []
    ensures limit >= 0 ==> |r| <= limit
    ensures |r| <= |jobs|
    ensures r <= SortByScore(ScoredJobs(w, prefs, jobs))
  {
    if |jobs| == 0 then [] else Take(SortByScore(ScoredJobs(w, prefs, jobs)), limit)
  }

  /** The result is ordered by non-increasing match score. */
  lemma RecommendOrdered(w: Weights, prefs: Preferences, jobs: seq<Record>, limit: int)
    requires HasAllWeights(w)
    ensures NonIncreasing(Recommend(w, prefs, jobs, limit))
  {
    if |jobs| > 0 {
      var sorted := SortByScore(ScoredJobs(w, prefs, jobs));
      SortedNonIncreasing(ScoredJobs(w, prefs, jobs));
      var r := Take(sorted, limit);
      assert forall i :: 0 <= i < |r| ==> r[i] == sorted[i];
    }
  }

  /** Every entry comes from a catalog job whose unrounded total is
      positive, and carries that job's rounded total and id. */
  lemma RecommendFromCatalog(w: Weights, prefs: Preferences, jobs: seq<Record>, limit: int)
    requires HasAllWeights(w)
    ensures forall e :: e in Recommend(w, prefs, jobs, limit) ==>
      exists j :: 0 <= j < |jobs| && Admit(w, prefs, jobs[j]) == Some(e) &&
        ScoreJob(w, prefs, jobs[j]).Some? && ScoreJob(w, prefs, jobs[j]).value.0 > 0.0 &&
        e.matchScore == RoundHalfEven(ScoreJob(w, prefs, jobs[j]).value.0)
  {
    if |jobs| > 0 {
      var scored := ScoredJobs(w, prefs, jobs);
      var sorted := SortByScore(scored);
      ScoredFromCatalog(w, prefs, jobs);
      SortPermutes(scored);
      forall e | e in Recommend(w, prefs, jobs, limit) ensures e in scored {
        assert e in multiset(sorted);
      }
    }
  }

  /** Ties keep catalog order: for every score, the entries with that
      score form a prefix of the admitted entries with that score, in
      catalog order. */
  lemma RecommendStable(w: Weights, prefs: Preferences, jobs: seq<Record>, limit: int, k: int)
    requires HasAllWeights(w)
    ensures WithScore(Recommend(w, prefs, jobs, limit), k) <= WithScore(ScoredJobs(w, prefs, jobs), k)
  {
    if |jobs| > 0 {
      var sorted := SortByScore(ScoredJobs(w, prefs, jobs));
      var r := Take(sorted, limit);
      WithScorePrefix(sorted, |r|, k);
      SortStable(ScoredJobs(w, prefs, jobs), k);
    }
  }

  /** A limit that truncates nothing returns every admitted entry: the
      same multiset, and every catalog job with a positive total. */
  lemma RecommendComplete(w: Weights, prefs: Preferences, jobs: seq<Record>, limit: int)
    requires HasAllWeights(w) && limit >= |jobs|
    ensures multiset(Recommend(w, prefs, jobs, limit)) == multiset(ScoredJobs(w, prefs, jobs))
    ensures forall j :: 0 <= j < |jobs| && Admit(w, prefs, jobs[j]).Some? ==>
      Admit(w, prefs, jobs[j]).value in Recommend(w, prefs, jobs, limit)
  {
    if |jobs| > 0 {
      var scored := ScoredJobs(w, prefs, jobs);
      var sorted := SortByScore(scored);
      assert Take(sorted, limit) == sorted;
      SortPermutes(scored);
      CatalogScored(w, prefs, jobs);
      forall j | 0 <= j < |jobs| && Admit(w, prefs, jobs[j]).Some?
        ensures Admit(w, prefs, jobs[j]).value in sorted
      {
        assert Admit(w, prefs, jobs[j]).value in multiset(scored);
      }
    }
  }
}
