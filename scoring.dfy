/** How the engine combines the seven sub-scores of one job
    (`_calculate_match_score`): a weighted sum scaled to 0-100, and a
    breakdown of each sub-score as a rounded percentage. */
module Scoring {
  import opened Wrappers
  import opened PyText
  import opened PyValue
  import opened MatchRules

  /** The preference keys the engine reads; an absent key is an empty
      list, or 0 for the minimum salary. */
  datatype Preferences = Preferences(
    skills: seq<string>,
    titles: seq<string>,
    locations: seq<string>,
    industries: seq<string>,
    companySize: seq<string>,
    values: seq<string>,
    minSalary: int)

  /** Preferences that express nothing. */
  const NO_PREFERENCES: Preferences := Preferences([], [], [], [], [], [], 0)

  /** One value per criterion. */
  datatype Criteria<T> = Criteria(
    skills: T, title: T, location: T, industry: T, companySize: T, values: T, salary: T)

  type Weights = map<string, real>

  const DEFAULT_WEIGHTS: Weights := map[
    "skills" := 0.30,
    "title" := 0.20,
    "location" := 0.15,
    "industry" := 0.10,
    "company_size" := 0.10,
    "values" := 0.10,
    "salary" := 0.05
  ]

  /** The weights the scoring reads are all present. */
  predicate HasAllWeights(w: Weights) {
    "skills" in w && "title" in w && "location" in w && "industry" in w &&
    "company_size" in w && "values" in w && "salary" in w
  }

  predicate NonNegativeWeights(w: Weights)
    requires HasAllWeights(w)
  {
    w["skills"] >= 0.0 && w["title"] >= 0.0 && w["location"] >= 0.0 && w["industry"] >= 0.0 &&
    w["company_size"] >= 0.0 && w["values"] >= 0.0 && w["salary"] >= 0.0
  }

  /** The total weight of the seven criteria. */
  function CriteriaWeightSum(w: Weights): real
    requires HasAllWeights(w)
  {
    w["skills"] + w["title"] + w["location"] + w["industry"] +
    w["company_size"] + w["values"] + w["salary"]
  }

  lemma DefaultWeights()
    ensures HasAllWeights(DEFAULT_WEIGHTS) && NonNegativeWeights(DEFAULT_WEIGHTS)
    ensures CriteriaWeightSum(DEFAULT_WEIGHTS) == 1.0
  {
  }

  predicate InUnitRange(s: Criteria<real>) {
    0.0 <= s.skills <= 1.0 && 0.0 <= s.title <= 1.0 && 0.0 <= s.location <= 1.0 &&
    0.0 <= s.industry <= 1.0 && 0.0 <= s.companySize <= 1.0 && 0.0 <= s.values <= 1.0 &&
    0.0 <= s.salary <= 1.0
  }

  /** The seven sub-scores of a job, reading each field with the default
      the source gives `job.get`; `None` when any rule raises, which makes
      the batch skip the job. */
  function SubScores(prefs: Preferences, job: Record): (r: Option<Criteria<real>>)
    ensures r.Some? ==> InUnitRange(r.value)
  {
    var skills :- SkillsScore(prefs.skills, Get(job, "required_skills", PyList([])));
    var title :- TitleScore(prefs.titles, Get(job, "title", PyStr("")));
    var location :- LocationScore(prefs.locations, Get(job, "location", PyStr("")));
    var industry :- IndustryScore(prefs.industries, Get(job, "industry", PyStr("")));
    var size :- SizeScore(prefs.companySize, Get(job, "company_size", PyStr("")));
    var values :- ValuesScore(prefs.values, Get(job, "values_promoted", PyList([])));
    var salary :- SalaryScore(prefs.minSalary, Get(job, "salary_range", PyList([])));
    Some(Criteria(skills, title, location, industry, size, values, salary))
  }

  /** The unrounded total: 100 times the weighted sum of the sub-scores. */
  function WeightedTotal(w: Weights, s: Criteria<real>): real
    requires HasAllWeights(w)
  {
    100.0 * (Weighted(s.skills, w["skills"]) + Weighted(s.title, w["title"]) +
             Weighted(s.location, w["location"]) + Weighted(s.industry, w["industry"]) +
             Weighted(s.companySize, w["company_size"]) + Weighted(s.values, w["values"]) +
             Weighted(s.salary, w["salary"]))
  }

  /** One criterion's share of the total. */
  function Weighted(score: real, weight: real): real {
    score * weight
  }

  /** Python's `round` on an exact real: the nearest integer, ties to the
      even one. */
  function RoundHalfEven(x: real): (n: int)
    ensures x - 0.5 <= n as real <= x + 0.5
    ensures (n as real - x == 0.5 || x - n as real == 0.5) ==> n % 2 == 0
  {
    var f := x.Floor;
    var frac := x - f as real;
    if frac < 0.5 then f
    else if frac > 0.5 then f + 1
    else if f % 2 == 0 then f
    else f + 1
  }

  /** Rounding keeps a value of [0, 100] inside [0, 100]. */
  lemma RoundWithinPercent(x: real)
    requires 0.0 <= x <= 100.0
    ensures 0 <= RoundHalfEven(x) <= 100
  {
  }

  /** One breakdown entry: `round(v * 100)`. */
  function Percent(v: real): (n: int)
    requires 0.0 <= v <= 1.0
    ensures 0 <= n <= 100
  {
    RoundWithinPercent(v * 100.0);
    RoundHalfEven(v * 100.0)
  }

  function Breakdown(s: Criteria<real>): (b: Criteria<int>)
    requires InUnitRange(s)
  {
    Criteria(Percent(s.skills), Percent(s.title), Percent(s.location), Percent(s.industry),
             Percent(s.companySize), Percent(s.values), Percent(s.salary))
  }

  predicate PercentEntries(b: Criteria<int>) {
    0 <= b.skills <= 100 && 0 <= b.title <= 100 && 0 <= b.location <= 100 &&
    0 <= b.industry <= 100 && 0 <= b.companySize <= 100 && 0 <= b.values <= 100 &&
    0 <= b.salary <= 100
  }

  /** `_calculate_match_score`: the unrounded total and the breakdown, or
      `None` when scoring the job raises. */
  function ScoreJob(w: Weights, prefs: Preferences, job: Record): (r: Option<(real, Criteria<int>)>)
    requires HasAllWeights(w)
    ensures r.None? <==> SubScores(prefs, job).None?
    ensures r.Some? ==> PercentEntries(r.value.1)
  {
    match SubScores(prefs, job)
    case None => None
    case Some(s) => Some((WeightedTotal(w, s), Breakdown(s)))
  }

  /** With non-negative weights a scored job's total lies between 0 and
      100 times the weights' sum. */
  lemma ScoreJobBounds(w: Weights, prefs: Preferences, job: Record)
    requires HasAllWeights(w) && NonNegativeWeights(w)
    ensures ScoreJob(w, prefs, job).Some? ==>
      0.0 <= ScoreJob(w, prefs, job).value.0 <= 100.0 * CriteriaWeightSum(w)
  {
    var s := SubScores(prefs, job);
    if s.Some? {
      TotalBounds(w, s.value);
    }
  }

  /** A sub-score times a non-negative weight lies between 0 and the weight. */
  function WeightedPart(score: real, weight: real): (p: real)
    requires 0.0 <= score <= 1.0 && 0.0 <= weight
    ensures 0.0 <= p <= weight
  {
    ProductBounds(score, weight);
    score * weight
  }

  lemma ProductBounds(a: real, x: real)
    requires 0.0 <= a <= 1.0 && 0.0 <= x
    ensures 0.0 <= a * x <= x
  {
  }

  lemma SumBounds(p1: real, p2: real, p3: real, p4: real, p5: real, p6: real, p7: real,
                  b1: real, b2: real, b3: real, b4: real, b5: real, b6: real, b7: real)
    requires 0.0 <= p1 <= b1 && 0.0 <= p2 <= b2 && 0.0 <= p3 <= b3 && 0.0 <= p4 <= b4
    requires 0.0 <= p5 <= b5 && 0.0 <= p6 <= b6 && 0.0 <= p7 <= b7
    ensures 0.0 <= p1 + p2 + p3 + p4 + p5 + p6 + p7 <= b1 + b2 + b3 + b4 + b5 + b6 + b7
  {
  }

  /** With non-negative weights the total lies between 0 and 100 times
      the weights' sum. */
  lemma TotalBounds(w: Weights, s: Criteria<real>)
    requires HasAllWeights(w) && InUnitRange(s)
    ensures NonNegativeWeights(w) ==> 0.0 <= WeightedTotal(w, s) <= 100.0 * CriteriaWeightSum(w)
  {
    if NonNegativeWeights(w) {
      var p1, p2 := WeightedPart(s.skills, w["skills"]), WeightedPart(s.title, w["title"]);
      var p3, p4 := WeightedPart(s.location, w["location"]), WeightedPart(s.industry, w["industry"]);
      var p5, p6 := WeightedPart(s.companySize, w["company_size"]), WeightedPart(s.values, w["values"]);
      var p7 := WeightedPart(s.salary, w["salary"]);
      assert WeightedTotal(w, s) == 100.0 * (p1 + p2 + p3 + p4 + p5 + p6 + p7);
      SumBounds(p1, p2, p3, p4, p5, p6, p7, w["skills"], w["title"], w["location"], w["industry"],
                w["company_size"], w["values"], w["salary"]);
    }
  }

  /** A job that scores the same `v` on every criterion totals `100 * v`
      times the weights' sum: the total is linear in the sub-scores. */
  lemma WeightedTotalUniform(w: Weights, v: real)
    requires HasAllWeights(w)
    ensures WeightedTotal(w, Criteria(v, v, v, v, v, v, v)) == 100.0 * v * CriteriaWeightSum(w)
  {
  }

  /** Under the default weights a job's total lies in [0, 100], and so
      does its rounded match score. */
  lemma DefaultScoreBounds(prefs: Preferences, job: Record)
    ensures HasAllWeights(DEFAULT_WEIGHTS)
    ensures ScoreJob(DEFAULT_WEIGHTS, prefs, job).Some? ==>
      var total := ScoreJob(DEFAULT_WEIGHTS, prefs, job).value.0;
      0.0 <= total <= 100.0 && 0 <= RoundHalfEven(total) <= 100
  {
    DefaultWeights();
    ScoreJobBounds(DEFAULT_WEIGHTS, prefs, job);
    var r := ScoreJob(DEFAULT_WEIGHTS, prefs, job);
    if r.Some? {
      RoundWithinPercent(r.value.0);
    }
  }

  /** With no preference at all, no job field is read: every job, however
      malformed, gets the neutral 0.5 on six criteria and 1.0 on salary, so
      every job gets the same total. */
  lemma NeutralPreferences(w: Weights, job: Record)
    requires HasAllWeights(w)
    ensures ScoreJob(w, NO_PREFERENCES, job) == Some((
      100.0 * (0.5 * (w["skills"] + w["title"] + w["location"] + w["industry"] +
                      w["company_size"] + w["values"]) + w["salary"]),
      Criteria(50, 50, 50, 50, 50, 50, 100)))
  {
    assert SubScores(NO_PREFERENCES, job) == Some(Criteria(0.5, 0.5, 0.5, 0.5, 0.5, 0.5, 1.0));
  }

  /** Under the default weights the neutral total is 52.5, which rounds
      to the even neighbour 52. */
  lemma NeutralDefault(job: Record)
    ensures HasAllWeights(DEFAULT_WEIGHTS)
    ensures ScoreJob(DEFAULT_WEIGHTS, NO_PREFERENCES, job).Some?
    ensures ScoreJob(DEFAULT_WEIGHTS, NO_PREFERENCES, job).value.0 == 52.5
    ensures RoundHalfEven(52.5) == 52
  {
    NeutralPreferences(DEFAULT_WEIGHTS, job);
  }

  /** Preferences copied from a job's own fields give that job full marks
      on every criterion: its title, location, industry and company size
      as one-element lists, its skill and value lists as they are, and a
      minimum salary inside its range. */
  lemma ExactPreferences(prefs: Preferences, job: Record, low: int, high: int)
    requires "title" in job && job["title"].PyStr? && Truthy(job["title"]) && prefs.titles == [job["title"].s]
    requires "location" in job && job["location"].PyStr? && Truthy(job["location"]) &&
             prefs.locations == [job["location"].s]
    requires "industry" in job && job["industry"].PyStr? && Truthy(job["industry"]) &&
             prefs.industries == [job["industry"].s]
    requires "company_size" in job && job["company_size"].PyStr? && Truthy(job["company_size"]) &&
             prefs.companySize == [job["company_size"].s]
    requires "required_skills" in job && Truthy(job["required_skills"]) &&
             ItemsField(job["required_skills"]) == Some(prefs.skills)
    requires "values_promoted" in job && Truthy(job["values_promoted"]) &&
             ItemsField(job["values_promoted"]) == Some(prefs.values)
    requires "salary_range" in job && job["salary_range"] == PyList([PyInt(low), PyInt(high)])
    requires low <= prefs.minSalary <= high && prefs.minSalary != 0
    ensures SubScores(prefs, job) == Some(Criteria(1.0, 1.0, 1.0, 1.0, 1.0, 1.0, 1.0))
  {
    OwnSkills(prefs.skills, job["required_skills"]);
    OwnTitle(job["title"].s);
    OwnLocation(job["location"].s);
    OwnIndustry(job["industry"].s);
    OwnSize(job["company_size"].s);
    OwnValues(prefs.values, job["values_promoted"]);
    SalaryTable(prefs.minSalary, low, high);
  }
}
