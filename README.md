# Job recommendation engine — a Dafny model

This project models the matching core of a small job-recommendation
service. A candidate sends preferences: skills, titles, locations,
industries, company sizes, values and a minimum salary. The engine scores
every job in an in-memory catalog against them and returns the best
matches, highest score first.

Two Python classes make up the core:

- `JobDatabase` (`job_data.py`) holds the catalog. It starts with twelve
  seed postings. It can list all jobs, look one up by `job_id`, add a job
  after checking the required keys and that the id is new, and collect the
  sorted distinct values of one field.
- `JobRecommendationEngine` (`recommendation_engine.py`) holds seven
  criterion weights.
  - `set_weights` updates them if the supplied weights sum to 1 within 0.01.
  - Seven rules give each job a sub-score in [0, 1]: skills, title (helped
    by a synonym table), location, industry, company size, values and
    salary.
  - `_calculate_match_score` combines the sub-scores into a weighted
    0–100 total plus a rounded per-criterion breakdown.
  - `recommend_jobs` drops jobs whose total is not positive and jobs whose
    scoring raises. It stable-sorts the rest by rounded score, highest
    first, and cuts the list at `limit`.

Files:

- `wrappers.dfy` — `Option`, used where the Python code would raise.
- `pytext.dfy` — ASCII `lower()`, `strip()` and the substring test `in`.
- `pyvalue.dfy` — dictionary values (`None`, `int`, `str`, `list`), Python
  truthiness, `dict.get`, Python's ordering of `int`s and of `str`s, and a
  sort of a set of values.
- `job_data.dfy` — the seed catalog and the class `JobDatabase`.
- `match_rules.dfy` — the synonym table and the seven rules, as functions
  with their properties.
- `scoring.dfy` — the weights, the weighted total, `round` (ties to even)
  and the breakdown.
- `ranking.dfy` — scoring the catalog, filtering, the stable sort by score
  and the `limit` slice, as functions with their properties.
- `engine.dfy` — `set_weights` and the class `JobRecommendationEngine`.
  Each of its methods is proved equal to the specification function of the
  same step. Loops stay loops and the early `return`s of the source are
  kept.

How Python values are modelled:

- A job is a `map<string, Value>`. This keeps the parts of the source
  that depend on dynamic typing. A job field may be missing, of the wrong
  type, an empty string or a list.
- A rule returns `None` exactly where the source would raise on such a
  field. Examples: a truthy title that is not a string, or a skills list
  holding a non-string. A falsy field of any type scores 0 instead
  (recommendation_engine.py:177-178), and a skills or values field that
  is a string is iterated character by character without raising.
  `recommend_jobs` catches the error and skips the job, and the model
  does the same.
- Numbers are exact reals, and `round` is Python's ties-to-even rounding.

Consequences of the code worth knowing:

- **Salary just below a range.** A minimum of 150000 against the range
  [155000, 240000] scores 0.8, not 1: it is not inside the range
  (recommendation_engine.py:312) and lies 5000 below it (:316-319).
  Lemma `MatchRules.SalaryShortOfRange` proves this.
- **Neutral preferences.** Preferences that express nothing score 52.5,
  which rounds to 52, not 50: six criteria score the neutral 0.5 and the
  salary criterion scores 1.0 (:304-305). Lemma `Scoring.NeutralDefault`
  proves this for the default weights.
- **Partial weight updates.** `set_weights` sums only the weights it is
  given. A partial update that sums to 1 is accepted and merged into the
  existing weights, so all seven weights can then sum to 1.7. Unknown keys
  are accepted too. Lemma `RecommendationEngine.PartialUpdate` covers both
  cases.
- **Rounded-away scores.** The filter tests the unrounded total (`> 0`).
  A job with a small positive total can therefore appear with a rounded
  `match_score` of 0.

## Model

| member | source | states |
|---|---|---|
| PyText.LowerChars | recommendation_engine.py:156-157 | `lower()` keeps the length and lowers each character independently; only 'A'..'Z' change |
| PyText.StripLeftSuffix | recommendation_engine.py:156-157 | the left half of `strip()` removes exactly the longest all-white-space prefix |
| PyText.StripRightPrefix | recommendation_engine.py:156-157 | the right half of `strip()` removes exactly the longest all-white-space suffix |
| PyText.NormalizeAll | recommendation_engine.py:156-157 | the list comprehension `[x.lower().strip() for x in xs]` has one entry per input |
| PyValue.StrLessIrreflexive | job_data.py:231 | no string sorts before itself |
| PyValue.StrLessTransitive | job_data.py:231 | Python's string order is transitive |
| PyValue.StrLessTotal | job_data.py:231 | any two different strings are ordered one way or the other |
| PyValue.ValueLessIrreflexive | job_data.py:231 | no value sorts before itself |
| PyValue.ValueLessTransitive | job_data.py:231 | the value order is transitive |
| PyValue.ValueLessTotal | job_data.py:231 | two different `int`s, or two different `str`s, are comparable |
| PyValue.AscendingIsStrictlyIncreasing | job_data.py:231 | a list ordered pair by pair is strictly ordered overall |
| PyValue.InsertSorted | job_data.py:231 | inserting a new value into a sorted list keeps it sorted, adds exactly that value, and grows it by one |
| PyValue.SortSet | job_data.py:231 | `sorted(list(values))` of a set is strictly increasing and holds exactly the set's members |
| JobData.FindById | job_data.py:195-200 | `None` iff no record has the id; otherwise the first record with that id |
| JobData.FindAppended | job_data.py:202-215 | appending a job whose id is unused makes a lookup of that id find it |
| JobData.Collected | job_data.py:224-230 | every record's contribution (a list field's items, or a truthy scalar field) is among the collected values |
| JobData.AppendKeepsWellFormed | job_data.py:202-215 | appending a job with the required keys and an unused id keeps the catalog well formed |
| JobData.CollectedMembers | job_data.py:222-230 | a value is collected iff some record's field is a list holding it, or is that value and is truthy |
| JobData.Posting | job_data.py:17-186 | each seed dictionary has the required keys, its own id, and its salary range as a two-integer list |
| JobData.SeedIdsListed | job_data.py:17-186 | the seed ids are RED-456, GGL-320, …, ZOOM-222, in source order |
| JobData.SeedIdsDistinct | job_data.py:17-186 | no two of the twelve seed records share an id |
| JobData.SampleJobsWellFormed | job_data.py:15-189 | the seed catalog has twelve jobs, each with the required keys, and no two share an id |
| JobData.SampleSalaryRangesOrdered | job_data.py:17-186 | every seed salary range is two integers, minimum first |
| JobData.JobDatabase.constructor | job_data.py:11-13 | a new database holds exactly the seed catalog, which is well formed |
| JobData.JobDatabase.GetAllJobs | job_data.py:191-193 | returns the catalog's records in order |
| JobData.JobDatabase.GetJobById | job_data.py:195-200 | returns the first record with the id, or `None` |
| JobData.JobDatabase.AddJob | job_data.py:202-220 | succeeds iff the job has the four required keys and its id is unused; on success the catalog grows by exactly that job, which a lookup then finds; on failure nothing changes; the catalog stays well formed |
| JobData.JobDatabase.GetUniqueValues | job_data.py:222-231 | raises (`None`) iff a list field holds an unhashable item or the collected values cannot be compared; otherwise returns a strictly increasing list whose members are exactly the collected values |
| MatchRules.ItemsField | recommendation_engine.py:156-157 | iterating a job field for normalising succeeds iff it is a `str` or a `list` whose items are all strings; a `str` gives its one-character strings in order, a `list` its items in order |
| MatchRules.SkillCredit | recommendation_engine.py:160-170 | one preferred skill earns 1 (exact), 0.7 (substring either way) or 0 |
| MatchRules.SkillsSum | recommendation_engine.py:159-170 | the summed credit is between 0 and the number of preferred skills |
| MatchRules.SkillsScore | recommendation_engine.py:149-171 | the skills score is in [0, 1]; it is 0.5 without preferences and 0 for a falsy job field; it raises iff there are preferences and a truthy job field that is neither a string nor a list of strings |
| MatchRules.SkillsSumAllExact | recommendation_engine.py:160-163 | if every preferred skill is listed exactly, the credit sums to the number of preferences |
| MatchRules.SkillsSumNoOverlap | recommendation_engine.py:164-170 | if no preference and job skill are substrings of one another, the credit sums to 0 |
| MatchRules.SkillsAllExact | recommendation_engine.py:149-171 | a job listing every preferred skill, after normalising, scores 1 |
| MatchRules.SkillsNoOverlap | recommendation_engine.py:149-171 | a job sharing no substring relation with any preferred skill scores 0 |
| MatchRules.OwnSkills | recommendation_engine.py:149-171 | a job's own skill list, given as the preferences, scores 1 |
| MatchRules.ValuesFound | recommendation_engine.py:295-298 | the number of preferred values found is at most the number of preferences |
| MatchRules.ValuesFoundExtremes | recommendation_engine.py:295-298 | all preferences are found iff each is listed, and none is found iff none is listed |
| MatchRules.ValuesScore | recommendation_engine.py:285-300 | the values score is in [0, 1]; it is 0.5 without preferences and 0 for a falsy job field; it raises iff there are preferences and a truthy job field that is neither a string nor a list of strings |
| MatchRules.ValuesScoreExtremes | recommendation_engine.py:285-300 | the score is 1 iff every normalised preference is among the job's normalised values, and 0 iff none is |
| MatchRules.ValuesAllFound | recommendation_engine.py:285-300 | a job listing every preferred value scores 1 |
| MatchRules.OwnValues | recommendation_engine.py:285-300 | a job's own values list, given as the preferences, scores 1 |
| MatchRules.SemanticTitleMatch | recommendation_engine.py:200-219 | the synonym score is 0, 0.8 or 0.9 |
| MatchRules.SemanticTitleMatchCases | recommendation_engine.py:200-219 | the score is 0.9 iff either title is among the other's synonyms; it is 0.8 iff not, but their synonym lists share an entry |
| MatchRules.ShareSynonymSymmetric | recommendation_engine.py:214-217 | two synonym lists overlap in either order of the titles |
| MatchRules.SemanticTitleMatchSymmetric | recommendation_engine.py:200-219 | swapping the two titles does not change the synonym score |
| MatchRules.SemanticTitleExamples | recommendation_engine.py:24-36 | with the synonym table, "ux designer" scores 0.9 against "product designer", 0.8 against "ui designer" and 0 against "senior ux researcher" |
| MatchRules.TitleCredit | recommendation_engine.py:190-196 | one non-exact preferred title earns 0, 0.8 or 0.9 |
| MatchRules.BestTitle | recommendation_engine.py:181-198 | the running best non-exact credit is 0, 0.8 or 0.9 |
| MatchRules.BestTitleIsMax | recommendation_engine.py:181-198 | the running best is at least every preference's credit, and is 0 or one preference's credit, so it is the maximum |
| MatchRules.TitleScore | recommendation_engine.py:173-198 | the title score is 0, 0.5, 0.8, 0.9 or 1; it is 0.5 without preferences and 0 for a falsy title; it raises iff there are preferences and a truthy title that is not a string |
| MatchRules.TitleScoreCases | recommendation_engine.py:173-198 | for a non-empty title: the score is 1 iff some normalised preference equals the normalised title; otherwise it is the maximum credit over the preferences |
| MatchRules.OwnTitle | recommendation_engine.py:173-198 | a job's own title, given as the only preference, scores 1 |
| MatchRules.Verdict | recommendation_engine.py:230-243 | a preference that decides the location, industry or size rule gives that rule's credit (1 or 0.8; 1 or 0.7; 1) |
| MatchRules.FirstHit | recommendation_engine.py:230-245 | the first-decisive-preference loop yields 0 or one of the rule's credits |
| MatchRules.FirstHitStops | recommendation_engine.py:230-245 | if preference i is the first decisive one, the loop's result is its verdict |
| MatchRules.FirstHitNone | recommendation_engine.py:245 | if no preference is decisive, the loop's result is 0 |
| MatchRules.FirstHitScore | recommendation_engine.py:221-283 | a first-hit rule gives 0.5, 0 or a credit of the rule; 0.5 without preferences and 0 for a falsy field; it raises iff there are preferences and a truthy field that is not a string |
| MatchRules.LocationScore | recommendation_engine.py:221-245 | the location score is 0, 0.5, 0.8 or 1; it is 0.5 without preferences and 0 for a falsy location; it raises iff there are preferences and a truthy location that is not a string |
| MatchRules.OwnLocation | recommendation_engine.py:221-245 | a job's own location, given as the only preference, scores 1 |
| MatchRules.IndustryScore | recommendation_engine.py:247-266 | the industry score is 0, 0.5, 0.7 or 1; it is 0.5 without preferences and 0 for a falsy industry; it raises iff there are preferences and a truthy industry that is not a string |
| MatchRules.OwnIndustry | recommendation_engine.py:247-266 | a job's own industry, given as the only preference, scores 1 |
| MatchRules.SizeScore | recommendation_engine.py:268-283 | the company-size score is 0, 0.5 or 1; it is 0.5 without preferences and 0 for a falsy size; it raises iff there are preferences and a truthy size that is not a string |
| MatchRules.SizeScoreCases | recommendation_engine.py:268-283 | for a non-empty size: the score is 1 iff some normalised preference equals it, and 0 iff none does |
| MatchRules.OwnSize | recommendation_engine.py:268-283 | a job's own company size, given as the only preference, scores 1 |
| MatchRules.SalaryScore | recommendation_engine.py:302-326 | the salary score is 0, 0.6, 0.8 or 1; no minimum scores 1; a range that is not of length 2 scores 0 |
| MatchRules.SalaryAgainst | recommendation_engine.py:309-326 | against a two-element range the score is 0, 0.6, 0.8 or 1; two integer ends never raise; a minimum at most 20000 below an integer lower end scores 0.8 whatever the upper end; it raises iff the lower end is not an integer, or the upper end is not and is compared |
| MatchRules.SalaryTable | recommendation_engine.py:309-326 | against an integer range: 1 inside it, 0.8 at most 20000 below it, 0.6 at most 20000 above it, else 0 |
| MatchRules.SalaryShortOfRange | recommendation_engine.py:316-319 | 150000 against [155000, 240000] scores 0.8 |
| Scoring.DefaultWeights | recommendation_engine.py:13-21 | the default weights name all seven criteria, are non-negative and sum to 1 |
| Scoring.SubScores | recommendation_engine.py:101-144 | when no rule raises, every sub-score is in [0, 1] |
| Scoring.RoundHalfEven | recommendation_engine.py:83 | `round` gives an integer within 0.5 of its argument, and the even one on a tie |
| Scoring.RoundWithinPercent | recommendation_engine.py:147 | rounding a value of [0, 100] stays in [0, 100] |
| Scoring.Percent | recommendation_engine.py:147 | each breakdown entry `round(v * 100)` of a sub-score is in [0, 100] |
| Scoring.ScoreJob | recommendation_engine.py:101-147 | scoring raises iff a rule raises; every breakdown entry is a percentage |
| Scoring.ScoreJobBounds | recommendation_engine.py:101-147 | with non-negative weights the total is between 0 and 100 times the sum of the seven weights |
| Scoring.TotalBounds | recommendation_engine.py:110-147 | with non-negative weights the weighted total is between 0 and 100 times the weight sum |
| Scoring.WeightedTotalUniform | recommendation_engine.py:108-147 | a job scoring the same `v` on every criterion totals 100·v times the weight sum (so 100·v under the default weights) |
| Scoring.DefaultScoreBounds | recommendation_engine.py:13-21 | with the default weights every total is in [0, 100] |
| Scoring.NeutralPreferences | recommendation_engine.py:101-147 | with no preferences every job gets six sub-scores of 0.5 and a salary score of 1, whatever its fields |
| Scoring.NeutralDefault | recommendation_engine.py:101-147 | with no preferences and the default weights every job totals 52.5 and rounds to 52 |
| Scoring.ExactPreferences | recommendation_engine.py:101-144 | preferences copied from a job's own fields, with the minimum salary inside its range, give all seven sub-scores 1 |
| Ranking.Admit | recommendation_engine.py:71-89 | a job yields an entry iff scoring does not raise and its unrounded total is positive; the entry carries the rounded total, the breakdown, and the job's id, title, company, location, salary range and employment type (`None` where absent) |
| Ranking.Admissions | recommendation_engine.py:71-89 | one verdict per catalog job |
| Ranking.Kept | recommendation_engine.py:75-86 | keeping the admitted entries never lengthens the list |
| Ranking.KeptStep | recommendation_engine.py:75-86 | one more job adds its entry at the end when admitted, and nothing otherwise |
| Ranking.KeptFrom | recommendation_engine.py:75-86 | every kept entry is some job's verdict |
| Ranking.KeptAll | recommendation_engine.py:75-86 | every admitted verdict is kept |
| Ranking.ScoredJobs | recommendation_engine.py:69-89 | there are at most as many scored entries as jobs |
| Ranking.ScoredFromCatalog | recommendation_engine.py:69-89 | every scored entry is the entry of some catalog job |
| Ranking.CatalogScored | recommendation_engine.py:69-89 | every admitted catalog job's entry is among the scored entries |
| Ranking.InsertByScore | recommendation_engine.py:92 | one insertion step of the sort grows the list by one |
| Ranking.SortByScore | recommendation_engine.py:92 | the sort keeps the length |
| Ranking.InsertPermutes | recommendation_engine.py:92 | an insertion step adds exactly the inserted entry |
| Ranking.SortPermutes | recommendation_engine.py:92 | the sort is a permutation of its input |
| Ranking.InsertBelow | recommendation_engine.py:92 | inserting keeps every score below a common bound |
| Ranking.InsertKeepsOrder | recommendation_engine.py:92 | inserting into a list in descending score order keeps it in that order |
| Ranking.SortedNonIncreasing | recommendation_engine.py:92 | the sorted list is in descending score order |
| Ranking.WithScore | recommendation_engine.py:92 | picking out the entries of one score never lengthens the list |
| Ranking.WithScoreInsert | recommendation_engine.py:92 | inserting an entry puts it before the existing entries of equal score |
| Ranking.SortStable | recommendation_engine.py:92 | the sort is stable: entries of equal score keep their catalog order |
| Ranking.WithScorePrefix | recommendation_engine.py:95 | a prefix holds a prefix of each equal-score group |
| Ranking.Take | recommendation_engine.py:95 | `s[:limit]` is a prefix of length `min(limit, len)`, or with a negative limit `len + limit` clamped at 0 |
| Ranking.Recommend | recommendation_engine.py:62-95 | an empty catalog gives `[]`; the result has at most `limit` entries for a non-negative limit and at most one per job, and is a prefix of the sorted scored list |
| Ranking.DefaultLimitLength | recommendation_engine.py:50-95 | under the default limit of 20 the result holds min(20, admitted) entries |
| Ranking.RecommendOrdered | recommendation_engine.py:92-95 | recommendations come in descending score order |
| Ranking.RecommendFromCatalog | recommendation_engine.py:69-95 | each recommendation is the entry of a catalog job that scored without raising, with a positive total, whose rounding is its score |
| Ranking.RecommendStable | recommendation_engine.py:92-95 | among equal scores, recommendations keep catalog order |
| Ranking.RecommendComplete | recommendation_engine.py:69-95 | when `limit` is at least the catalog size, the result is a permutation of all scored entries, so every admitted job appears |
| RecommendationEngine.Merge | recommendation_engine.py:45-48 | `dict.update` keeps every old key |
| RecommendationEngine.MergeKeys | recommendation_engine.py:48 | after the update the keys are exactly the old keys plus the supplied keys |
| RecommendationEngine.MergeValues | recommendation_engine.py:48 | after the update each supplied key holds its supplied weight and every other key its old weight |
| RecommendationEngine.PartialUpdate | recommendation_engine.py:43-48 | a lone weight of 1 is accepted: for "skills" the seven weights then sum to 1.7; for an unknown key they still sum to 1 |
| RecommendationEngine.ToleranceBounds | recommendation_engine.py:45-47 | in exact reals, supplied sums of 0.99 and 1.01 are accepted and 0.8 and 1.2 refused (see "## Left out" for binary floating point) |
| RecommendationEngine.JobRecommendationEngine.constructor | recommendation_engine.py:38-41 | a new engine uses the given database and the default weights |
| RecommendationEngine.JobRecommendationEngine.SetWeights | recommendation_engine.py:43-48 | accepted iff the supplied weights sum to 1 within 0.01; on acceptance they are merged in, otherwise nothing changes; all seven weights stay present |
| RecommendationEngine.JobRecommendationEngine.RecommendJobs | recommendation_engine.py:50-99 | returns exactly the specified recommendation list for the current weights and catalog; `limit` defaults to 20 |
| RecommendationEngine.JobRecommendationEngine.ScoreCatalog | recommendation_engine.py:69-89 | the scoring loop builds exactly the admitted entries, in catalog order |
| RecommendationEngine.JobRecommendationEngine.ScoreEntry | recommendation_engine.py:72-89 | one loop iteration yields exactly that job's verdict |
| RecommendationEngine.JobRecommendationEngine.SortRecommendations | recommendation_engine.py:92 | the sort loop computes the stable descending sort |
| RecommendationEngine.JobRecommendationEngine.CalculateMatchScore | recommendation_engine.py:101-147 | returns the specified total and breakdown, or raises exactly when a rule does |
| RecommendationEngine.JobRecommendationEngine.TotalScore | recommendation_engine.py:108-147 | the running weighted sum times 100 is the weighted total |
| RecommendationEngine.JobRecommendationEngine.SubScoresOf | recommendation_engine.py:110-144 | the seven rule calls give exactly the specified sub-scores |
| RecommendationEngine.JobRecommendationEngine.MatchSkills | recommendation_engine.py:149-171 | computes the skills score |
| RecommendationEngine.JobRecommendationEngine.SkillCreditOf | recommendation_engine.py:162-170 | the exact test and the inner substring loop give one preference's credit |
| RecommendationEngine.JobRecommendationEngine.MatchTitles | recommendation_engine.py:173-198 | computes the title score, including the early return on an exact match |
| RecommendationEngine.JobRecommendationEngine.TitleCreditOf | recommendation_engine.py:190-196 | the synonym score raised to 0.8 on a substring match is one preference's credit |
| RecommendationEngine.JobRecommendationEngine.MatchLocations | recommendation_engine.py:221-245 | computes the location score, returning at the first decisive preference |
| RecommendationEngine.JobRecommendationEngine.MatchIndustries | recommendation_engine.py:247-266 | computes the industry score, returning at the first decisive preference |
| RecommendationEngine.JobRecommendationEngine.MatchCompanySize | recommendation_engine.py:268-283 | computes the company-size score, returning at the first equal preference |
| RecommendationEngine.JobRecommendationEngine.MatchValues | recommendation_engine.py:285-300 | computes the values score |

## Left out

- Logging: every `logger` call is dropped, because it has no effect on results.
- The Flask application (`app.py`) and the browser code (`main.js`) are not part of this model.
- Floating point: scores and weights are exact reals, not IEEE-754 doubles. A total that lands on a `.5` tie in exact reals may round the other way in doubles.
- RecommendationEngine.ToleranceBounds: holds for exact reals only. In doubles, `0.5 + 0.49` and `0.5 + 0.51` differ from 1.0 by 0.010000000000000009, which exceeds 0.01, so the Python code refuses both of these weight sets although the model accepts them.
- Text: `lower()` and `strip()` are modelled for ASCII only. There is no Unicode case mapping or Unicode white space.
- Values: a job field is `None`, an `int`, a `str` or a `list`. A `bool`, `float` or nested `dict` field is not modelled.
- Preferences: a typed record with one list of strings per criterion and an integer minimum salary, absent keys taken as empty or 0. A preference payload of the wrong type (a string where a list is expected, a float salary) and the keys the engine does not read are not modelled.
- The `job_details` copy of the whole job in each entry is not kept; every other entry field is.
- Copies: `get_all_jobs` and `get_job_by_id` return shallow copies; the model returns values, so aliasing between a returned dictionary and the catalog is not captured.
- `list.sort` in place: modelled as a stable insertion sort on a sequence, because only the stable descending order by score matters to callers.
- RecommendationEngine.JobRecommendationEngine.SetWeights: the supplied dictionary is a sequence of key–weight pairs with distinct keys (the `DistinctKeys` requirement), which is what a Python dictionary is. An argument that is not a dictionary of numbers is not modelled.
- The re-raise at recommendation_engine.py:97-99: nothing in the modelled code raises outside the per-job handler, so the outer handler is not modelled.
- JobData.JobDatabase.AddJob: the `ValueError` raised and caught inside `add_job` appears only as the `false` result. `add_job` also does not check the values of the required keys, and neither does the model.
- JobData.JobDatabase.GetUniqueValues: a `TypeError` from hashing or comparing values appears as `None`. The set's iteration order, which `sorted` hides, is not modelled.
