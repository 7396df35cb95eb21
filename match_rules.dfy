/** The seven per-criterion rules of the recommendation engine, as
    functions of the preference list and the raw job field. A rule yields
    `None` exactly where the source raises while reading a malformed job
    field; every other result is a sub-score in [0, 1]. */
module MatchRules {
  import opened Wrappers
  import opened PyText
  import opened PyValue

  /** The score of a criterion the candidate expressed no preference for. */
  const NEUTRAL: real := 0.5

  /** How far, in salary units, a range may miss the candidate's minimum
      and still earn partial credit (inclusive). */
  const SALARY_GAP: int := 20000

  function Min(a: real, b: real): real {
    if a <= b then a else b
  }

  function Max(a: real, b: real): real {
    if a >= b then a else b
  }

  /** A scalar job field about to be lowered and stripped: only a `str`
      has those methods. */
  function TextField(v: Value): Option<string> {
    if v.PyStr? then Some(v.s) else None
  }

  /** A list job field about to be lowered and stripped item by item:
      iterating a `str` yields its one-character strings, iterating a
      `list` its items, each of which must be a `str`. */
  function ItemsField(v: Value): (r: Option<seq<string>>)
    ensures r.Some? && v.PyStr? ==> |r.value| == |v.s|
    ensures r.Some? && v.PyList? ==> |r.value| == |v.items|
    ensures r.Some? <==> v.PyStr? || (v.PyList? && forall i :: 0 <= i < |v.items| ==> v.items[i].PyStr?)
    ensures r.Some? && v.PyStr? ==> forall i :: 0 <= i < |v.s| ==> r.value[i] == [v.s[i]]
    ensures r.Some? && v.PyList? ==> forall i :: 0 <= i < |v.items| ==> r.value[i] == v.items[i].s
  {
    match v
    case PyStr(s) => Some(seq(|s|, i requires 0 <= i < |s| => [s[i]]))
    case PyList(xs) =>
      if forall i :: 0 <= i < |xs| ==> xs[i].PyStr? then
        Some(seq(|xs|, i requires 0 <= i < |xs| && xs[i].PyStr? => xs[i].s))
      else None
    case _ => None
  }

  /** A part of a positive whole, as a fraction, lies in [0, 1]. */
  lemma FractionBounds(part: real, whole: real)
    requires 0.0 <= part <= whole && whole > 0.0
    ensures 0.0 <= part / whole <= 1.0
    ensures part / whole == 1.0 <==> part == whole
    ensures part / whole == 0.0 <==> part == 0.0
  {
  }

  // ---------------------------------------------------------------- skills

  /** The credit one normalised preferred skill earns: 1 when a job skill
      equals it, else 0.7 when some job skill contains it or is contained
      in it, else 0. */
  function SkillCredit(p: string, jobSkills: seq<string>): (c: real)
    ensures c == 0.0 || c == 0.7 || c == 1.0
  {
    if p in jobSkills then 1.0
    else if exists k :: 0 <= k < |jobSkills| && ContainsEither(p, jobSkills[k]) then 0.7
    else 0.0
  }

  /** The accumulated `matches` of `_match_skills`. */
  function SkillsSum(prefs: seq<string>, jobSkills: seq<string>): (total: real)
    ensures 0.0 <= total <= |prefs| as real
    decreases |prefs|
  {
    if |prefs| == 0 then 0.0
    else SkillsSum(prefs[..|prefs| - 1], jobSkills) + SkillCredit(prefs[|prefs| - 1], jobSkills)
  }

  /** `_match_skills`. */
  function SkillsScore(prefs: seq<string>, jobSkills: Value): (r: Option<real>)
    ensures r.Some? ==> 0.0 <= r.value <= 1.0
    ensures r.None? <==> |prefs| > 0 && Truthy(jobSkills) && ItemsField(jobSkills).None?
    ensures |prefs| == 0 ==> r == Some(NEUTRAL)
    ensures |prefs| > 0 && !Truthy(jobSkills) ==> r == Some(0.0)
  {
    if |prefs| == 0 then Some(NEUTRAL)
    else if !Truthy(jobSkills) then Some(0.0)
    else match ItemsField(jobSkills)
      case None => None
      case Some(js) =>
        var matches := SkillsSum(NormalizeAll(prefs), NormalizeAll(js));
        FractionBounds(matches, |prefs| as real);
        Some(Min(matches / |prefs| as real, 1.0))
  }

  lemma {:induction false} SkillsSumAllExact(prefs: seq<string>, jobSkills: seq<string>)
    requires forall i :: 0 <= i < |prefs| ==> prefs[i] in jobSkills
    ensures SkillsSum(prefs, jobSkills) == |prefs| as real
    decreases |prefs|
  {
    if |prefs| > 0 {
      SkillsSumAllExact(prefs[..|prefs| - 1], jobSkills);
    }
  }

  lemma {:induction false} SkillsSumNoOverlap(prefs: seq<string>, jobSkills: seq<string>)
    requires forall i, k :: 0 <= i < |prefs| && 0 <= k < |jobSkills| ==> !ContainsEither(prefs[i], jobSkills[k])
    ensures SkillsSum(prefs, jobSkills) == 0.0
    decreases |prefs|
  {
    if |prefs| > 0 {
      SkillsSumNoOverlap(prefs[..|prefs| - 1], jobSkills);
      ContainsSelf(prefs[|prefs| - 1]);
    }
  }

  /** Every preferred skill present, after normalisation, among the job's
      skills gives the full score. */
  lemma SkillsAllExact(prefs: seq<string>, jobSkills: Value)
    requires |prefs| > 0 && Truthy(jobSkills) && ItemsField(jobSkills).Some?
    requires forall i :: 0 <= i < |prefs| ==> Normalize(prefs[i]) in NormalizeAll(ItemsField(jobSkills).value)
    ensures SkillsScore(prefs, jobSkills) == Some(1.0)
  {
    var ps, js := NormalizeAll(prefs), NormalizeAll(ItemsField(jobSkills).value);
    SkillsSumAllExact(ps, js);
    FractionBounds(SkillsSum(ps, js), |prefs| as real);
  }

  /** No preferred skill equal to, containing or contained in any job
      skill gives 0. */
  lemma SkillsNoOverlap(prefs: seq<string>, jobSkills: Value)
    requires |prefs| > 0 && Truthy(jobSkills) && ItemsField(jobSkills).Some?
    requires forall i, k :: 0 <= i < |prefs| && 0 <= k < |ItemsField(jobSkills).value| ==>
      !ContainsEither(Normalize(prefs[i]), Normalize(ItemsField(jobSkills).value[k]))
    ensures SkillsScore(prefs, jobSkills) == Some(0.0)
  {
    var ps, js := NormalizeAll(prefs), NormalizeAll(ItemsField(jobSkills).value);
    SkillsSumNoOverlap(ps, js);
    FractionBounds(SkillsSum(ps, js), |prefs| as real);
  }

  // ---------------------------------------------------------------- values

  /** How many preferred values, counted with multiplicity, occur among
      the job's values. */
  function ValuesFound(prefs: seq<string>, jobValues: seq<string>): (n: nat)
    ensures n <= |prefs|
    decreases |prefs|
  {
    if |prefs| == 0 then 0
    else ValuesFound(prefs[..|prefs| - 1], jobValues) + if prefs[|prefs| - 1] in jobValues then 1 else 0
  }

  /** All preferred values are found exactly when the count is full, and
      none is found exactly when it is zero. */
  lemma {:induction false} ValuesFoundExtremes(prefs: seq<string>, jobValues: seq<string>)
    ensures ValuesFound(prefs, jobValues) == |prefs| <==> forall i :: 0 <= i < |prefs| ==> prefs[i] in jobValues
    ensures ValuesFound(prefs, jobValues) == 0 <==> forall i :: 0 <= i < |prefs| ==> prefs[i] !in jobValues
    decreases |prefs|
  {
    if |prefs| > 0 {
      var init := prefs[..|prefs| - 1];
      assert forall i :: 0 <= i < |init| ==> init[i] == prefs[i];
      ValuesFoundExtremes(init, jobValues);
    }
  }

  /** `_match_values`: the fraction of preferred values the job promotes. */
  function ValuesScore(prefs: seq<string>, jobValues: Value): (r: Option<real>)
    ensures r.Some? ==> 0.0 <= r.value <= 1.0
    ensures r.None? <==> |prefs| > 0 && Truthy(jobValues) && ItemsField(jobValues).None?
    ensures |prefs| == 0 ==> r == Some(NEUTRAL)
    ensures |prefs| > 0 && !Truthy(jobValues) ==> r == Some(0.0)
  {
    if |prefs| == 0 then Some(NEUTRAL)
    else if !Truthy(jobValues) then Some(0.0)
    else match ItemsField(jobValues)
      case None => None
      case Some(vs) =>
        var matches := ValuesFound(NormalizeAll(prefs), NormalizeAll(vs));
        FractionBounds(matches as real, |prefs| as real);
        Some(matches as real / |prefs| as real)
  }

  /** Once the job has a value list and there are preferences, the score
      is 1 exactly when every preferred value is promoted and 0 exactly
      when none is. */
  lemma ValuesScoreExtremes(prefs: seq<string>, jobValues: Value)
    requires |prefs| > 0 && Truthy(jobValues) && ItemsField(jobValues).Some?
    ensures var r := ValuesScore(prefs, jobValues).value;
      var vs := NormalizeAll(ItemsField(jobValues).value);
      (r == 1.0 <==> forall i :: 0 <= i < |prefs| ==> Normalize(prefs[i]) in vs) &&
      (r == 0.0 <==> forall i :: 0 <= i < |prefs| ==> Normalize(prefs[i]) !in vs)
  {
    var ps, vs := NormalizeAll(prefs), NormalizeAll(ItemsField(jobValues).value);
    NormalizeAllElements(prefs);
    ValuesFoundExtremes(ps, vs);
    FractionBounds(ValuesFound(ps, vs) as real, |prefs| as real);
  }

  /** Every preferred value promoted by the job gives the full score. */
  lemma ValuesAllFound(prefs: seq<string>, jobValues: Value)
    requires |prefs| > 0 && Truthy(jobValues) && ItemsField(jobValues).Some?
    requires forall i :: 0 <= i < |prefs| ==> Normalize(prefs[i]) in NormalizeAll(ItemsField(jobValues).value)
    ensures ValuesScore(prefs, jobValues) == Some(1.0)
  {
    ValuesScoreExtremes(prefs, jobValues);
  }

  // ---------------------------------------------------------------- titles

  /** The fixed synonym table, keyed by a lower-case canonical title. */
  const TITLE_SYNONYMS: map<string, seq<string>> := map[
    "ux designer" := ["user experience designer", "product designer", "interaction designer"],
    "ui designer" := ["user interface designer", "visual designer", "product designer"],
    "product designer" := ["ux designer", "ui designer", "user experience designer"],
    "senior ux designer" := ["senior product designer", "lead ux designer"],
    "frontend developer" := ["front-end developer", "ui developer", "web developer"],
    "backend developer" := ["back-end developer", "server-side developer"],
    "full stack developer" := ["fullstack developer", "full-stack developer"],
    "data scientist" := ["machine learning engineer", "data analyst"],
    "software engineer" := ["software developer", "programmer"],
    "design manager" := ["design lead", "head of design"],
    "engineering manager" := ["engineering lead", "tech lead"]
  ]

  /** `TITLE_SYNONYMS.get(title, [])`. */
  function Synonyms(title: string): seq<string> {
    if title in TITLE_SYNONYMS then TITLE_SYNONYMS[title] else []
  }

  predicate ShareSynonym(a: string, b: string) {
    exists k :: 0 <= k < |Synonyms(a)| && Synonyms(a)[k] in Synonyms(b)
  }

  /** `_semantic_title_match`: 0.9 when either title is listed among the
      other's synonyms, 0.8 when their synonym lists overlap, else 0. */
  function SemanticTitleMatch(pref: string, job: string): (r: real)
    ensures r == 0.0 || r == 0.8 || r == 0.9
  {
    if job in Synonyms(pref) then 0.9
    else if pref in Synonyms(job) then 0.9
    else if ShareSynonym(pref, job) then 0.8
    else 0.0
  }

  /** 0.9 exactly when either title is listed among the other's
      synonyms; 0.8 exactly when neither is but their lists overlap. */
  lemma SemanticTitleMatchCases(pref: string, job: string)
    ensures SemanticTitleMatch(pref, job) == 0.9 <==> job in Synonyms(pref) || pref in Synonyms(job)
    ensures SemanticTitleMatch(pref, job) == 0.8 <==>
      !(job in Synonyms(pref) || pref in Synonyms(job)) && ShareSynonym(pref, job)
  {
  }

  lemma ShareSynonymSymmetric(a: string, b: string)
    ensures ShareSynonym(a, b) == ShareSynonym(b, a)
  {
    if ShareSynonym(a, b) {
      var k :| 0 <= k < |Synonyms(a)| && Synonyms(a)[k] in Synonyms(b);
      var m :| 0 <= m < |Synonyms(b)| && Synonyms(b)[m] == Synonyms(a)[k];
      assert Synonyms(b)[m] in Synonyms(a);
    }
    if ShareSynonym(b, a) {
      var k :| 0 <= k < |Synonyms(b)| && Synonyms(b)[k] in Synonyms(a);
      var m :| 0 <= m < |Synonyms(a)| && Synonyms(a)[m] == Synonyms(b)[k];
      assert Synonyms(a)[m] in Synonyms(b);
    }
  }

  /** The semantic match does not depend on which title is the preference. */
  lemma SemanticTitleMatchSymmetric(a: string, b: string)
    ensures SemanticTitleMatch(a, b) == SemanticTitleMatch(b, a)
  {
    ShareSynonymSymmetric(a, b);
  }

  /** Two entries of the table: a listed synonym scores 0.9, two titles
      whose lists share "product designer" score 0.8, an unlisted title 0. */
  lemma SemanticTitleExamples()
    ensures SemanticTitleMatch("ux designer", "product designer") == 0.9
    ensures SemanticTitleMatch("ux designer", "ui designer") == 0.8
    ensures SemanticTitleMatch("ux designer", "senior ux researcher") == 0.0
  {
    assert Synonyms("ux designer")[1] in Synonyms("ui designer");
    assert "ux designer" !in Synonyms("ui designer");
  }

  /** What one preferred title that is not an exact match earns: the
      better of its semantic score and 0.8 for containment either way. */
  function TitleCredit(pref: string, job: string): (c: real)
    ensures c == 0.0 || c == 0.8 || c == 0.9
  {
    var semantic := SemanticTitleMatch(pref, job);
    if ContainsEither(pref, job) then Max(semantic, 0.8) else semantic
  }

  /** The `best_match` of `_match_titles`: the maximum credit over the
      preferences, 0 when there is none. */
  function BestTitle(prefs: seq<string>, job: string): (best: real)
    ensures best == 0.0 || best == 0.8 || best == 0.9
    decreases |prefs|
  {
    if |prefs| == 0 then 0.0
    else Max(BestTitle(prefs[..|prefs| - 1], job), TitleCredit(prefs[|prefs| - 1], job))
  }

  /** The best credit bounds every preference's credit and is attained
      by one of them unless it is 0. */
  lemma {:induction false} BestTitleIsMax(prefs: seq<string>, job: string)
    ensures forall k :: 0 <= k < |prefs| ==> TitleCredit(prefs[k], job) <= BestTitle(prefs, job)
    ensures BestTitle(prefs, job) == 0.0 ||
            exists k :: 0 <= k < |prefs| && BestTitle(prefs, job) == TitleCredit(prefs[k], job)
    decreases |prefs|
  {
    if |prefs| > 0 {
      var init := prefs[..|prefs| - 1];
      BestTitleIsMax(init, job);
      assert forall k :: 0 <= k < |init| ==> init[k] == prefs[k];
    }
  }

  /** `_match_titles`: 1.0 as soon as a preference equals the job title
      after normalisation, otherwise the best credit of the preferences. */
  function TitleScore(prefs: seq<string>, jobTitle: Value): (r: Option<real>)
    ensures r.Some? ==> r.value == 0.0 || r.value == NEUTRAL || r.value == 0.8 || r.value == 0.9 || r.value == 1.0
    ensures r.None? <==> |prefs| > 0 && Truthy(jobTitle) && !jobTitle.PyStr?
    ensures |prefs| == 0 ==> r == Some(NEUTRAL)
    ensures |prefs| > 0 && !Truthy(jobTitle) ==> r == Some(0.0)
  {
    if |prefs| == 0 then Some(NEUTRAL)
    else if !Truthy(jobTitle) then Some(0.0)
    else match TextField(jobTitle)
      case None => None
      case Some(t) =>
        var job := Normalize(t);
        var ps := NormalizeAll(prefs);
        if job in ps then Some(1.0) else Some(BestTitle(ps, job))
  }

  /** On a non-empty title: 1.0 exactly when some preference equals it
      after normalisation; otherwise the largest credit any preference
      earns, 0 when none earns any. */
  lemma TitleScoreCases(prefs: seq<string>, title: string)
    requires |prefs| > 0 && title != ""
    ensures var r := TitleScore(prefs, PyStr(title)).value;
      var job := Normalize(title);
      (r == 1.0 <==> exists i :: 0 <= i < |prefs| && Normalize(prefs[i]) == job) &&
      ((forall i :: 0 <= i < |prefs| ==> Normalize(prefs[i]) != job) ==>
        (forall k :: 0 <= k < |prefs| ==> TitleCredit(Normalize(prefs[k]), job) <= r) &&
        (r == 0.0 || exists k :: 0 <= k < |prefs| && r == TitleCredit(Normalize(prefs[k]), job)))
  {
    var job, ps := Normalize(title), NormalizeAll(prefs);
    NormalizeAllElements(prefs);
    BestTitleIsMax(ps, job);
    if job in ps {
      var i :| 0 <= i < |ps| && ps[i] == job;
      assert Normalize(prefs[i]) == job;
    }
  }

  // ------------------------------------------- location, industry, size

  /** The three criteria whose loop returns the verdict of the first
      preference that matches at any level. */
  datatype FirstHitRule = LocationRule | IndustryRule | SizeRule

  /** The verdict of one normalised preference on the normalised job
      field, or `None` when the loop moves on to the next preference. */
  function Verdict(rule: FirstHitRule, pref: string, job: string): (r: Option<real>)
    ensures r.Some? ==> Credit(rule, r.value)
  {
    match rule
    case LocationRule =>
      if pref == job then Some(1.0)
      else if Contains(pref, "remote") && Contains(job, "remote") then Some(1.0)
      else if ContainsEither(pref, job) then Some(0.8)
      else None
    case IndustryRule =>
      if pref == job then Some(1.0)
      else if ContainsEither(pref, job) then Some(0.7)
      else None
    case SizeRule =>
      if pref == job then Some(1.0) else None
  }

  /** The scores a rule's verdict can take. */
  predicate Credit(rule: FirstHitRule, v: real) {
    match rule
    case LocationRule => v == 1.0 || v == 0.8
    case IndustryRule => v == 1.0 || v == 0.7
    case SizeRule => v == 1.0
  }

  /** The verdict of the first preference that has one, 0 if none has. */
  function FirstHit(rule: FirstHitRule, prefs: seq<string>, job: string): (r: real)
    ensures r == 0.0 || Credit(rule, r)
    decreases |prefs|
  {
    if |prefs| == 0 then 0.0
    else match Verdict(rule, prefs[0], job)
      case Some(v) => v
      case None => FirstHit(rule, prefs[1..], job)
  }

  /** First hit, not best of: the preference at `i` decides the result
      when it has a verdict and no earlier preference has one, whatever
      later preferences would say. */
  lemma {:induction false} FirstHitStops(rule: FirstHitRule, prefs: seq<string>, job: string, i: nat)
    requires i < |prefs| && Verdict(rule, prefs[i], job).Some?
    requires forall k :: 0 <= k < i ==> Verdict(rule, prefs[k], job).None?
    ensures FirstHit(rule, prefs, job) == Verdict(rule, prefs[i], job).value
    decreases i
  {
    if i > 0 {
      assert Verdict(rule, prefs[0], job).None?;
      assert forall k :: 0 <= k < i - 1 ==> prefs[1..][k] == prefs[k + 1];
      FirstHitStops(rule, prefs[1..], job, i - 1);
    }
  }

  /** No preference with a verdict gives 0. */
  lemma {:induction false} FirstHitNone(rule: FirstHitRule, prefs: seq<string>, job: string)
    requires forall k :: 0 <= k < |prefs| ==> Verdict(rule, prefs[k], job).None?
    ensures FirstHit(rule, prefs, job) == 0.0
    decreases |prefs|
  {
    if |prefs| > 0 {
      assert forall k :: 0 <= k < |prefs| - 1 ==> prefs[1..][k] == prefs[k + 1];
      FirstHitNone(rule, prefs[1..], job);
    }
  }

  function FirstHitScore(rule: FirstHitRule, prefs: seq<string>, field: Value): (r: Option<real>)
    ensures r.None? <==> |prefs| > 0 && Truthy(field) && !field.PyStr?
    ensures r.Some? ==> r.value == NEUTRAL || r.value == 0.0 || Credit(rule, r.value)
    ensures |prefs| == 0 ==> r == Some(NEUTRAL)
    ensures |prefs| > 0 && !Truthy(field) ==> r == Some(0.0)
  {
    if |prefs| == 0 then Some(NEUTRAL)
    else if !Truthy(field) then Some(0.0)
    else match TextField(field)
      case None => None
      case Some(t) => Some(FirstHit(rule, NormalizeAll(prefs), Normalize(t)))
  }

  /** `_match_locations`. */
  function LocationScore(prefs: seq<string>, jobLocation: Value): (r: Option<real>)
    ensures r.Some? ==> r.value == 0.0 || r.value == NEUTRAL || r.value == 0.8 || r.value == 1.0
    ensures r.None? <==> |prefs| > 0 && Truthy(jobLocation) && !jobLocation.PyStr?
    ensures |prefs| == 0 ==> r == Some(NEUTRAL)
    ensures |prefs| > 0 && !Truthy(jobLocation) ==> r == Some(0.0)
  {
    FirstHitScore(LocationRule, prefs, jobLocation)
  }

  /** `_match_industries`. */
  function IndustryScore(prefs: seq<string>, jobIndustry: Value): (r: Option<real>)
    ensures r.Some? ==> r.value == 0.0 || r.value == NEUTRAL || r.value == 0.7 || r.value == 1.0
    ensures r.None? <==> |prefs| > 0 && Truthy(jobIndustry) && !jobIndustry.PyStr?
    ensures |prefs| == 0 ==> r == Some(NEUTRAL)
    ensures |prefs| > 0 && !Truthy(jobIndustry) ==> r == Some(0.0)
  {
    FirstHitScore(IndustryRule, prefs, jobIndustry)
  }

  /** `_match_company_size`: strict equality only, no partial credit. */
  function SizeScore(prefs: seq<string>, jobSize: Value): (r: Option<real>)
    ensures r.Some? ==> r.value == 0.0 || r.value == NEUTRAL || r.value == 1.0
    ensures r.None? <==> |prefs| > 0 && Truthy(jobSize) && !jobSize.PyStr?
    ensures |prefs| == 0 ==> r == Some(NEUTRAL)
    ensures |prefs| > 0 && !Truthy(jobSize) ==> r == Some(0.0)
  {
    FirstHitScore(SizeRule, prefs, jobSize)
  }

  /** On a non-empty size: 1.0 exactly when some preference equals it
      after normalisation, 0.0 otherwise. */
  lemma SizeScoreCases(prefs: seq<string>, size: string)
    requires |prefs| > 0 && size != ""
    ensures var r := SizeScore(prefs, PyStr(size)).value;
      (r == 1.0 <==> exists i :: 0 <= i < |prefs| && Normalize(prefs[i]) == Normalize(size)) &&
      (r == 0.0 <==> forall i :: 0 <= i < |prefs| ==> Normalize(prefs[i]) != Normalize(size))
  {
    var ps, job := NormalizeAll(prefs), Normalize(size);
    if exists i :: 0 <= i < |prefs| && Normalize(prefs[i]) == job {
      var i :| 0 <= i < |prefs| && Normalize(prefs[i]) == job;
      var first :| 0 <= first <= i && ps[first] == job && forall k :: 0 <= k < first ==> ps[k] != job by {
        FirstMatch(ps, job, i);
      }
      FirstHitStops(SizeRule, ps, job, first);
    } else {
      FirstHitNone(SizeRule, ps, job);
    }
  }

  /** A sequence that holds `x` at `i` holds it first at some index up to `i`. */
  lemma {:induction false} FirstMatch(s: seq<string>, x: string, i: nat)
    requires i < |s| && s[i] == x
    ensures exists first :: 0 <= first <= i && s[first] == x && forall k :: 0 <= k < first ==> s[k] != x
    decreases i
  {
    if exists k :: 0 <= k < i && s[k] == x {
      var k :| 0 <= k < i && s[k] == x;
      FirstMatch(s, x, k);
    }
  }

  // ---------------------------------------------------------------- salary

  /** The comparisons of `_match_salary` on a two-element range, in the
      source's order: both ends must be `int`s, except that the upper end
      is never read when the minimum lies at most SALARY_GAP below the
      lower end. */
  function SalaryAgainst(s: int, low: Value, high: Value): (r: Option<real>)
    ensures r.Some? ==> r.value == 0.0 || r.value == 0.6 || r.value == 0.8 || r.value == 1.0
    ensures low.PyInt? && high.PyInt? ==> r.Some?
    ensures low.PyInt? && s < low.n && low.n - s <= SALARY_GAP ==> r == Some(0.8)
    ensures r.None? <==> !low.PyInt? || (!high.PyInt? && !(s < low.n && low.n - s <= SALARY_GAP))
  {
    if !low.PyInt? then None
    else if low.n <= s then
      if !high.PyInt? then None
      else if s <= high.n then Some(1.0)
      else if s - high.n <= SALARY_GAP then Some(0.6)
      else Some(0.0)
    else if low.n - s <= SALARY_GAP then Some(0.8)
    else if !high.PyInt? then None
    else if s > high.n && s - high.n <= SALARY_GAP then Some(0.6)
    else Some(0.0)
  }

  /** `_match_salary`. */
  function SalaryScore(minSalary: int, range: Value): (r: Option<real>)
    ensures r.Some? ==> r.value == 0.0 || r.value == 0.6 || r.value == 0.8 || r.value == 1.0
    ensures minSalary == 0 ==> r == Some(1.0)
    ensures minSalary != 0 && (range.PyList? || range.PyStr? || range.PyNone?) &&
            (if range.PyList? then |range.items| else if range.PyStr? then |range.s| else 0) != 2 ==>
            r == Some(0.0)
  {
    if minSalary == 0 then Some(1.0)
    else if !Truthy(range) then Some(0.0)
    else match range
      case PyInt(_) => None
      case PyStr(s) => if |s| != 2 then Some(0.0) else None
      case PyList(xs) => if |xs| != 2 then Some(0.0) else SalaryAgainst(minSalary, xs[0], xs[1])
      case PyNone => Some(0.0)
  }

  /** On a well-typed range the salary rule is the table: full credit
      inside [low, high], 0.8 at most SALARY_GAP below it, 0.6 at most
      SALARY_GAP above it, 0 otherwise. */
  lemma SalaryTable(s: int, low: int, high: int)
    requires s != 0
    ensures SalaryScore(s, PyList([PyInt(low), PyInt(high)])) == Some(
      if low <= s <= high then 1.0
      else if s < low && low - s <= SALARY_GAP then 0.8
      else if s > high && s - high <= SALARY_GAP then 0.6
      else 0.0)
  {
  }

  /** A minimum of 150000 against a range of [155000, 240000] falls 5000
      short of it, within the gap: 0.8, not full credit. */
  lemma SalaryShortOfRange()
    ensures SalaryScore(150000, PyList([PyInt(155000), PyInt(240000)])) == Some(0.8)
  {
    SalaryTable(150000, 155000, 240000);
  }

  // ------------------------------------------------ a job against itself

  /** A job's own skill list, taken as the preferred skills, scores 1.0. */
  lemma OwnSkills(prefs: seq<string>, jobSkills: Value)
    requires Truthy(jobSkills) && ItemsField(jobSkills) == Some(prefs)
    ensures SkillsScore(prefs, jobSkills) == Some(1.0)
  {
    var ps := NormalizeAll(prefs);
    forall i | 0 <= i < |prefs| ensures Normalize(prefs[i]) in ps {
      assert ps[i] == Normalize(prefs[i]);
    }
    SkillsAllExact(prefs, jobSkills);
  }

  /** A job's own value list, taken as the preferred values, scores 1.0. */
  lemma OwnValues(prefs: seq<string>, jobValues: Value)
    requires Truthy(jobValues) && ItemsField(jobValues) == Some(prefs)
    ensures ValuesScore(prefs, jobValues) == Some(1.0)
  {
    var vs := NormalizeAll(prefs);
    forall i | 0 <= i < |prefs| ensures Normalize(prefs[i]) in vs {
      assert vs[i] == Normalize(prefs[i]);
    }
    ValuesAllFound(prefs, jobValues);
  }

  lemma OwnTitle(t: string)
    requires t != ""
    ensures TitleScore([t], PyStr(t)) == Some(1.0)
  {
    assert Normalize([t][0]) == Normalize(t);
  }

  lemma OwnLocation(t: string)
    requires t != ""
    ensures LocationScore([t], PyStr(t)) == Some(1.0)
  {
  }

  lemma OwnIndustry(t: string)
    requires t != ""
    ensures IndustryScore([t], PyStr(t)) == Some(1.0)
  {
  }

  lemma OwnSize(t: string)
    requires t != ""
    ensures SizeScore([t], PyStr(t)) == Some(1.0)
  {
    assert Normalize([t][0]) == Normalize(t);
  }
}
