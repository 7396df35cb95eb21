/** `JobRecommendationEngine`: the weights it holds, their validated
    update, and the loops that score one job and a whole catalog. */
module RecommendationEngine {
  import opened Wrappers
  import opened PyText
  import opened PyValue
  import opened JobData
  import opened MatchRules
  import opened Scoring
  import opened Ranking

  // ---------------------------------------------------------------- weights

  /** The tolerance `set_weights` allows around a total of 1.0. */
  const TOLERANCE: real := 0.01

  /** A Python dict given as its items, in insertion order. */
  predicate DistinctKeys(items: seq<(string, real)>) {
    forall i, j :: 0 <= i < j < |items| ==> items[i].0 != items[j].0
  }

  /** `sum(weights.values())`. */
  function SumWeights(items: seq<(string, real)>): real
    decreases |items|
  {
    if |items| == 0 then 0.0 else SumWeights(items[..|items| - 1]) + items[|items| - 1].1
  }

  /** The check of `set_weights`: it raises exactly when the supplied
      weights sum to more than TOLERANCE away from 1.0. */
  predicate Accepted(items: seq<(string, real)>) {
    -TOLERANCE <= SumWeights(items) - 1.0 <= TOLERANCE
  }

  /** `self.weights.update(weights)`. */
  function Merge(w: Weights, items: seq<(string, real)>): (r: Weights)
    ensures w.Keys <= r.Keys
    decreases |items|
  {
    if |items| == 0 then w
    else Merge(w, items[..|items| - 1])[items[|items| - 1].0 := items[|items| - 1].1]
  }

  /** The update adds exactly the supplied keys. */
  lemma {:induction false} MergeKeys(w: Weights, items: seq<(string, real)>)
    ensures forall k :: k in Merge(w, items) <==> k in w || exists i :: 0 <= i < |items| && items[i].0 == k
    decreases |items|
  {
    if |items| > 0 {
      var init := items[..|items| - 1];
      MergeKeys(w, init);
      assert forall i :: 0 <= i < |init| ==> init[i] == items[i];
    }
  }

  /** After the update every supplied key holds its supplied weight and
      every other key keeps the weight it had. */
  lemma {:induction false} MergeValues(w: Weights, items: seq<(string, real)>)
    requires DistinctKeys(items)
    ensures forall i :: 0 <= i < |items| ==>
      items[i].0 in Merge(w, items) && Merge(w, items)[items[i].0] == items[i].1
    ensures forall k :: k in w && (forall i :: 0 <= i < |items| ==> items[i].0 != k) ==>
      Merge(w, items)[k] == w[k]
    decreases |items|
  {
    if |items| > 0 {
      var init := items[..|items| - 1];
      assert forall i :: 0 <= i < |init| ==> init[i] == items[i];
      MergeValues(w, init);
    }
  }

  /** The check looks only at the supplied keys: from the defaults,
      `{'skills': 1.0}` passes, and the seven weights then sum to 1.7;
      `{'bonus': 1.0}` passes too and leaves the seven weights as they
      were. */
  lemma PartialUpdate()
    ensures Accepted([("skills", 1.0)])
    ensures HasAllWeights(Merge(DEFAULT_WEIGHTS, [("skills", 1.0)]))
    ensures CriteriaWeightSum(Merge(DEFAULT_WEIGHTS, [("skills", 1.0)])) == 1.7
    ensures Accepted([("bonus", 1.0)])
    ensures HasAllWeights(Merge(DEFAULT_WEIGHTS, [("bonus", 1.0)]))
    ensures CriteriaWeightSum(Merge(DEFAULT_WEIGHTS, [("bonus", 1.0)])) == 1.0
  {
    assert [("skills", 1.0)][..0] == [];
    assert [("bonus", 1.0)][..0] == [];
  }

  /** The tolerance is inclusive at both ends. */
  lemma ToleranceBounds()
    ensures Accepted([("skills", 0.5), ("title", 0.49)])
    ensures Accepted([("skills", 0.5), ("title", 0.51)])
    ensures !Accepted([("skills", 0.5), ("title", 0.3)])
    ensures !Accepted([("skills", 1.2)])
  {
    assert [("skills", 0.5), ("title", 0.49)][..1] == [("skills", 0.5)];
    assert [("skills", 0.5), ("title", 0.51)][..1] == [("skills", 0.5)];
    assert [("skills", 0.5), ("title", 0.3)][..1] == [("skills", 0.5)];
    assert [("skills", 0.5)][..0] == [];
    assert [("skills", 1.2)][..0] == [];
  }

  // ---------------------------------------------------------------- engine

  class JobRecommendationEngine {
    const jobDb: JobDatabase
    var weights: Weights

    ghost predicate Valid()
      reads this
    {
      HasAllWeights(weights)
    }

    constructor(db: JobDatabase)
      ensures jobDb == db && weights == DEFAULT_WEIGHTS && Valid()
    {
      jobDb := db;
      weights := DEFAULT_WEIGHTS;
    }

    /** `set_weights`: `false` stands for the `ValueError`, in which case
        nothing changes; otherwise the supplied weights are merged in. */
    method SetWeights(supplied: seq<(string, real)>) returns (ok: bool)
      requires Valid() && DistinctKeys(supplied)
      modifies this
      ensures Valid()
      ensures ok <==> Accepted(supplied)
      ensures weights == if ok then Merge(old(weights), supplied) else old(weights)
    {
      var total := SumWeights(supplied);
      if total - 1.0 > TOLERANCE || 1.0 - total > TOLERANCE {
        return false;
      }
      weights := Merge(weights, supplied);
      ok := true;
    }

    /** `recommend_jobs`, with the same default `limit`. */
    method RecommendJobs(prefs: Preferences, limit: int := DEFAULT_LIMIT) returns (r: seq<Recommendation>)
      requires Valid()
      ensures r == Recommend(weights, prefs, jobDb.jobs, limit)
    {
      var jobs := jobDb.GetAllJobs();
      if |jobs| == 0 {
        return [];
      }
      var scored := ScoreCatalog(prefs, jobs);
      var sorted := SortRecommendations(scored);
      r := Take(sorted, limit);
    }

    /** The loop of `recommend_jobs` that builds `scored_jobs`: a job whose
        scoring raises is skipped, and so is one whose unrounded total is
        not positive. */
    method ScoreCatalog(prefs: Preferences, jobs: seq<Record>) returns (scored: seq<Recommendation>)
      requires Valid()
      ensures scored == ScoredJobs(weights, prefs, jobs)
    {
      scored := [];
      ghost var verdicts := Admissions(weights, prefs, jobs);
      for i := 0 to |jobs|
        invariant scored == Kept(verdicts[..i])
      {
        KeptStep(verdicts, i);
        var entry := ScoreEntry(prefs, jobs[i]);
        if entry.Some? {
          scored := scored + [entry.value];
        }
      }
      assert verdicts[..|jobs|] == verdicts;
    }

    /** The body of that loop for one job: the entry it appends, `None`
        when it appends nothing. */
    method ScoreEntry(prefs: Preferences, job: Record) returns (entry: Option<Recommendation>)
      requires Valid()
      ensures entry == Admit(weights, prefs, job)
    {
      var result := CalculateMatchScore(prefs, job);
      if result.None? {
        return None;
      }
      var (matchScore, breakdown) := result.value;
      if matchScore > 0.0 {
        entry := Some(Recommendation(
          Get(job, "job_id", PyNone), Get(job, "title", PyNone), Get(job, "company", PyNone),
          Get(job, "location", PyNone), Get(job, "salary_range", PyNone),
          Get(job, "employment_type", PyNone), RoundHalfEven(matchScore), breakdown));
      } else {
        entry := None;
      }
    }

    /** `scored_jobs.sort(...)`, as a loop that inserts each entry, from
        the last to the first, into the sorted tail. */
    static method SortRecommendations(s: seq<Recommendation>) returns (r: seq<Recommendation>)
      ensures r == SortByScore(s)
    {
      r := [];
      var i := |s|;
      while i > 0
        invariant 0 <= i <= |s|
        invariant r == SortByScore(s[i..])
      {
        i := i - 1;
        assert s[i..][1..] == s[i + 1..];
        r := InsertByScore(s[i], r);
      }
    }

    /** `_calculate_match_score`: `None` stands for a rule that raises. */
    method CalculateMatchScore(prefs: Preferences, job: Record) returns (r: Option<(real, Criteria<int>)>)
      requires Valid()
      ensures r == ScoreJob(weights, prefs, job)
    {
      var scores := SubScoresOf(prefs, job);
      if scores.None? {
        return None;
      }
      var s := scores.value;
      var score := TotalScore(s);
      r := Some((score, Breakdown(s)));
    }

    /** The `total_score += score * weight` steps of `_calculate_match_score`,
        in its order, and the final scaling to 0-100. */
    method TotalScore(s: Criteria<real>) returns (score: real)
      requires Valid()
      ensures score == WeightedTotal(weights, s)
    {
      var total := 0.0;
      total := total + Weighted(s.skills, weights["skills"]);
      total := total + Weighted(s.title, weights["title"]);
      total := total + Weighted(s.location, weights["location"]);
      total := total + Weighted(s.industry, weights["industry"]);
      total := total + Weighted(s.companySize, weights["company_size"]);
      total := total + Weighted(s.values, weights["values"]);
      total := total + Weighted(s.salary, weights["salary"]);
      score := total * 100.0;
    }

    /** The seven rule calls of `_calculate_match_score`, in its order;
        the first rule that raises ends the scoring. */
    static method SubScoresOf(prefs: Preferences, job: Record) returns (r: Option<Criteria<real>>)
      ensures r == SubScores(prefs, job)
    {
      var skills := MatchSkills(prefs.skills, Get(job, "required_skills", PyList([])));
      if skills.None? { return None; }
      var title := MatchTitles(prefs.titles, Get(job, "title", PyStr("")));
      if title.None? { return None; }
      var location := MatchLocations(prefs.locations, Get(job, "location", PyStr("")));
      if location.None? { return None; }
      var industry := MatchIndustries(prefs.industries, Get(job, "industry", PyStr("")));
      if industry.None? { return None; }
      var size := MatchCompanySize(prefs.companySize, Get(job, "company_size", PyStr("")));
      if size.None? { return None; }
      var values := MatchValues(prefs.values, Get(job, "values_promoted", PyList([])));
      if values.None? { return None; }
      var salary := SalaryScore(prefs.minSalary, Get(job, "salary_range", PyList([])));
      if salary.None? { return None; }
      r := Some(Criteria(skills.value, title.value, location.value, industry.value,
                         size.value, values.value, salary.value));
    }

    /** `_match_skills`. */
    static method MatchSkills(prefs: seq<string>, jobSkills: Value) returns (r: Option<real>)
      ensures r == SkillsScore(prefs, jobSkills)
    {
      if |prefs| == 0 { return Some(NEUTRAL); }
      if !Truthy(jobSkills) { return Some(0.0); }
      var items := ItemsField(jobSkills);
      if items.None? { return None; }
      var preferred := NormalizeAll(prefs);
      var job := NormalizeAll(items.value);
      var matches := 0.0;
      for i := 0 to |preferred|
        invariant matches == SkillsSum(preferred[..i], job)
      {
        assert preferred[..i + 1][..i] == preferred[..i];
        var credit := SkillCreditOf(preferred[i], job);
        matches := matches + credit;
      }
      assert preferred[..|preferred|] == preferred;
      FractionBounds(matches, |prefs| as real);
      r := Some(Min(matches / |prefs| as real, 1.0));
    }

    /** One turn of `_match_skills`' outer loop: 1 for an exact match,
        else 0.7 for the first job skill that contains the preference or
        is contained in it, else nothing. */
    static method SkillCreditOf(p: string, job: seq<string>) returns (c: real)
      ensures c == SkillCredit(p, job)
    {
      if p in job {
        return 1.0;
      }
      for k := 0 to |job|
        invariant forall m :: 0 <= m < k ==> !ContainsEither(p, job[m])
      {
        if Contains(p, job[k]) || Contains(job[k], p) {
          return 0.7;
        }
      }
      c := 0.0;
    }

    /** `_match_titles`. */
    static method MatchTitles(prefs: seq<string>, jobTitle: Value) returns (r: Option<real>)
      ensures r == TitleScore(prefs, jobTitle)
    {
      if |prefs| == 0 { return Some(NEUTRAL); }
      if !Truthy(jobTitle) { return Some(0.0); }
      if !jobTitle.PyStr? { return None; }
      var job := Normalize(jobTitle.s);
      ghost var ps := NormalizeAll(prefs);
      var best := 0.0;
      for i := 0 to |prefs|
        invariant best == BestTitle(ps[..i], job)
        invariant job !in ps[..i]
      {
        var p := Normalize(prefs[i]);
        assert p == ps[i];
        if p == job {
          return Some(1.0);
        }
        var credit := TitleCreditOf(p, job);
        best := Max(best, credit);
        assert ps[..i + 1][..i] == ps[..i] && ps[..i + 1] == ps[..i] + [p];
      }
      assert ps[..|prefs|] == ps;
      r := Some(best);
    }

    /** The credit one non-exact preference earns in `_match_titles`:
        the semantic score, raised to 0.8 by a substring match. */
    static method TitleCreditOf(p: string, job: string) returns (c: real)
      ensures c == TitleCredit(p, job)
    {
      c := SemanticTitleMatch(p, job);
      if Contains(p, job) || Contains(job, p) {
        c := Max(c, 0.8);
      }
    }

    /** `_match_locations`. */
    static method MatchLocations(prefs: seq<string>, jobLocation: Value) returns (r: Option<real>)
      ensures r == LocationScore(prefs, jobLocation)
    {
      if |prefs| == 0 { return Some(NEUTRAL); }
      if !Truthy(jobLocation) { return Some(0.0); }
      if !jobLocation.PyStr? { return None; }
      var job := Normalize(jobLocation.s);
      ghost var ps := NormalizeAll(prefs);
      for i := 0 to |prefs|
        invariant forall k :: 0 <= k < i ==> Verdict(LocationRule, ps[k], job).None?
      {
        var p := Normalize(prefs[i]);
        assert p == ps[i];
        if p == job || (Contains(p, "remote") && Contains(job, "remote")) {
          FirstHitStops(LocationRule, ps, job, i);
          return Some(1.0);
        }
        if Contains(p, job) || Contains(job, p) {
          FirstHitStops(LocationRule, ps, job, i);
          return Some(0.8);
        }
      }
      FirstHitNone(LocationRule, ps, job);
      r := Some(0.0);
    }

    /** `_match_industries`. */
    static method MatchIndustries(prefs: seq<string>, jobIndustry: Value) returns (r: Option<real>)
      ensures r == IndustryScore(prefs, jobIndustry)
    {
      if |prefs| == 0 { return Some(NEUTRAL); }
      if !Truthy(jobIndustry) { return Some(0.0); }
      if !jobIndustry.PyStr? { return None; }
      var job := Normalize(jobIndustry.s);
      ghost var ps := NormalizeAll(prefs);
      for i := 0 to |prefs|
        invariant forall k :: 0 <= k < i ==> Verdict(IndustryRule, ps[k], job).None?
      {
        var p := Normalize(prefs[i]);
        assert p == ps[i];
        if p == job {
          FirstHitStops(IndustryRule, ps, job, i);
          return Some(1.0);
        }
        if Contains(p, job) || Contains(job, p) {
          FirstHitStops(IndustryRule, ps, job, i);
          return Some(0.7);
        }
      }
      FirstHitNone(IndustryRule, ps, job);
      r := Some(0.0);
    }

    /** `_match_company_size`. */
    static method MatchCompanySize(prefs: seq<string>, jobSize: Value) returns (r: Option<real>)
      ensures r == SizeScore(prefs, jobSize)
    {
      if |prefs| == 0 { return Some(NEUTRAL); }
      if !Truthy(jobSize) { return Some(0.0); }
      if !jobSize.PyStr? { return None; }
      var job := Normalize(jobSize.s);
      ghost var ps := NormalizeAll(prefs);
      for i := 0 to |prefs|
        invariant forall k :: 0 <= k < i ==> Verdict(SizeRule, ps[k], job).None?
      {
        var p := Normalize(prefs[i]);
        assert p == ps[i];
        if p == job {
          FirstHitStops(SizeRule, ps, job, i);
          return Some(1.0);
        }
      }
      FirstHitNone(SizeRule, ps, job);
      r := Some(0.0);
    }

    /** `_match_values`. */
    static method MatchValues(prefs: seq<string>, jobValues: Value) returns (r: Option<real>)
      ensures r == ValuesScore(prefs, jobValues)
    {
      if |prefs| == 0 { return Some(NEUTRAL); }
      if !Truthy(jobValues) { return Some(0.0); }
      var items := ItemsField(jobValues);
      if items.None? { return None; }
      var preferred := NormalizeAll(prefs);
      var job := NormalizeAll(items.value);
      var matches := 0;
      for i := 0 to |preferred|
        invariant matches == ValuesFound(preferred[..i], job)
      {
        assert preferred[..i + 1][..i] == preferred[..i];
        if preferred[i] in job {
          matches := matches + 1;
        }
      }
      assert preferred[..|preferred|] == preferred;
      r := Some(matches as real / |prefs| as real);
    }
  }
}
