/** The catalog of job postings (job_data.py): an ordered list of job
    records with read access, lookup by id, a validated append and the
    distinct values of one field. */
module JobData {
  import opened Wrappers
  import opened PyValue

  /** The keys `add_job` insists on. */
  const REQUIRED_FIELDS: seq<string> := ["job_id", "title", "company", "location"]

  /** `job.get('job_id')`. */
  function JobId(job: Record): Value {
    Get(job, "job_id", PyNone)
  }

  /** Presence of every required key; their values are not inspected. */
  predicate HasRequiredFields(job: Record) {
    "job_id" in job && "title" in job && "company" in job && "location" in job
  }

  predicate UniqueIds(jobs: seq<Record>) {
    forall i, j :: 0 <= i < j < |jobs| ==> JobId(jobs[i]) != JobId(jobs[j])
  }

  /** The catalog invariant: every record has the required keys and no two
      records share a `job_id`. */
  predicate WellFormed(jobs: seq<Record>) {
    (forall i :: 0 <= i < |jobs| ==> HasRequiredFields(jobs[i])) && UniqueIds(jobs)
  }

  /** The first record whose `job_id` equals `id`, if there is one. */
  function FindById(jobs: seq<Record>, id: Value): (r: Option<Record>)
    ensures r.None? <==> forall i :: 0 <= i < |jobs| ==> JobId(jobs[i]) != id
    ensures r.Some? ==> exists i :: 0 <= i < |jobs| && jobs[i] == r.value && JobId(jobs[i]) == id &&
                                   forall k :: 0 <= k < i ==> JobId(jobs[k]) != id
  {
    if |jobs| == 0 then None
    else if JobId(jobs[0]) == id then Some(jobs[0])
    else
      var r := FindById(jobs[1..], id);
      assert forall i :: 1 <= i < |jobs| ==> jobs[i] == jobs[1..][i - 1];
      if r.Some? then
        var i :| 0 <= i < |jobs| - 1 && jobs[1..][i] == r.value && JobId(jobs[1..][i]) == id &&
                 forall k :: 0 <= k < i ==> JobId(jobs[1..][k]) != id;
        assert forall k :: 0 <= k < i + 1 ==> JobId(jobs[k]) != id by {
          forall k | 0 < k < i + 1 ensures JobId(jobs[k]) != id {
            assert jobs[k] == jobs[1..][k - 1];
          }
        }
        r
      else
        r
  }

  /** After appending a record whose id was not taken, looking that id up
      finds the new record. */
  lemma {:induction false} FindAppended(jobs: seq<Record>, job: Record)
    requires FindById(jobs, JobId(job)).None?
    ensures FindById(jobs + [job], JobId(job)) == Some(job)
  {
    var all := jobs + [job];
    assert all[|jobs|] == job;
    var r := FindById(all, JobId(job));
    var i :| 0 <= i < |all| && all[i] == r.value && JobId(all[i]) == JobId(job) &&
             forall k :: 0 <= k < i ==> JobId(all[k]) != JobId(job);
  }

  /** Appending a record with the required keys and an unused id keeps the
      catalog well formed. */
  lemma AppendKeepsWellFormed(jobs: seq<Record>, job: Record)
    requires WellFormed(jobs)
    requires HasRequiredFields(job) && FindById(jobs, JobId(job)).None?
    ensures WellFormed(jobs + [job])
  {
    var all := jobs + [job];
    forall i, j | 0 <= i < j < |all|
      ensures JobId(all[i]) != JobId(all[j])
    {
      if j == |jobs| {
        assert JobId(jobs[i]) != JobId(job);
      } else {
        assert all[i] == jobs[i] && all[j] == jobs[j];
      }
    }
  }

  /** What one record adds to `get_unique_values`: every element of a list
      value (falsy ones too), or the value itself when it is a truthy
      scalar; `None`, `0` and `''` add nothing. */
  function Contribution(v: Value): set<Value> {
    if v.PyList? then set x | x in v.items else if Truthy(v) then {v} else {}
  }

  /** The set `get_unique_values` accumulates over the records: it holds
      every record's contribution (and, by CollectedMembers, nothing
      else). */
  function Collected(jobs: seq<Record>, field: string): (r: set<Value>)
    ensures forall i :: 0 <= i < |jobs| ==> Contribution(Get(jobs[i], field, PyNone)) <= r
  {
    if |jobs| == 0 then {}
    else
      var init := jobs[..|jobs| - 1];
      assert forall i :: 0 <= i < |init| ==> init[i] == jobs[i];
      Collected(init, field) + Contribution(Get(jobs[|jobs| - 1], field, PyNone))
  }

  /** A value is collected exactly when some record's field is a list
      holding it, or is that value itself and truthy. */
  lemma {:induction false} CollectedMembers(jobs: seq<Record>, field: string)
    ensures forall v :: v in Collected(jobs, field) <==>
      exists i :: 0 <= i < |jobs| &&
        var x := Get(jobs[i], field, PyNone);
        (x.PyList? && v in x.items) || (!x.PyList? && Truthy(x) && v == x)
  {
    if |jobs| > 0 {
      var prefix := jobs[..|jobs| - 1];
      CollectedMembers(prefix, field);
      assert forall i :: 0 <= i < |prefix| ==> prefix[i] == jobs[i];
    }
  }

  /** `set.update` raises on a list element: lists are unhashable. */
  predicate HoldsUnhashable(v: Value) {
    v.PyList? && exists x :: x in v.items && !Hashable(x)
  }

  predicate RaisesUnhashable(jobs: seq<Record>, field: string) {
    exists i :: 0 <= i < |jobs| && HoldsUnhashable(Get(jobs[i], field, PyNone))
  }

  /** Whether Python can sort the collected values: a set of two or more
      values must be all `int`s or all `str`s, otherwise a comparison
      raises. */
  predicate Sortable(s: set<Value>) {
    |s| <= 1 || (forall v :: v in s ==> v.PyInt?) || (forall v :: v in s ==> v.PyStr?)
  }

  /** The fields of one seed record. */
  datatype Seed = Seed(id: string, title: string, company: string, location: string,
                       salaryMin: int, salaryMax: int, employment: string, size: string,
                       industry: string, skills: seq<string>, values: seq<string>,
                       experience: string, level: string)

  /** One seed record as the flat dictionary the source writes. */
  function Posting(seed: Seed): (job: Record)
    ensures HasRequiredFields(job) && JobId(job) == PyStr(seed.id)
    ensures "salary_range" in job
    ensures job["salary_range"] == PyList([PyInt(seed.salaryMin), PyInt(seed.salaryMax)])
  {
    map[
      "job_id" := PyStr(seed.id),
      "title" := PyStr(seed.title),
      "company" := PyStr(seed.company),
      "location" := PyStr(seed.location),
      "salary_range" := PyList([PyInt(seed.salaryMin), PyInt(seed.salaryMax)]),
      "employment_type" := PyStr(seed.employment),
      "company_size" := PyStr(seed.size),
      "industry" := PyStr(seed.industry),
      "required_skills" := PyList(seq(|seed.skills|, i requires 0 <= i < |seed.skills| => PyStr(seed.skills[i]))),
      "values_promoted" := PyList(seq(|seed.values|, i requires 0 <= i < |seed.values| => PyStr(seed.values[i]))),
      "experience_required" := PyStr(seed.experience),
      "role_level" := PyStr(seed.level)
    ]
  }

  const SEEDS: seq<Seed> := [
    Seed("RED-456", "Senior UX Designer", "Reddit", "Remote in USA", 146000, 232000,
         "Full-Time", "51-200 Employees", "AI & Machine Learning",
         ["Figma", "Prototyping", "UX Research"],
         ["Impactful Work", "Transparency & Communication"], "5-8 years", "Senior"),
    Seed("GGL-320", "Design Manager", "Google", "Mountain View, CA", 180000, 280000,
         "Full-Time", "10000+ Employees", "Technology",
         ["Design Leadership", "Figma", "User Research"],
         ["Innovation", "Mentorship & Career Development"], "7-10 years", "Manager"),
    Seed("AIRBNB-123", "Product Designer", "Airbnb", "San Francisco, CA", 160000, 220000,
         "Full-Time", "1000-5000 Employees", "Travel & Hospitality",
         ["Figma", "UI/UX Design", "Prototyping"],
         ["Work-Life Balance", "Impactful Work"], "4-6 years", "Senior"),
    Seed("UBER-789", "Senior Product Designer", "Uber", "Remote in USA", 155000, 240000,
         "Full-Time", "5000-10000 Employees", "Transportation",
         ["Sketch", "Figma", "User Research", "Wireframing"],
         ["Innovation", "Work-Life Balance"], "5-8 years", "Senior"),
    Seed("SLACK-555", "UI/UX Designer", "Slack", "New York City", 130000, 190000,
         "Full-Time", "501-1000 Employees", "Software",
         ["Figma", "UI/UX Design", "Prototyping"],
         ["Transparency & Communication", "Mentorship & Career Development"], "3-5 years", "Mid-level"),
    Seed("NETFLIX-444", "Senior UX Researcher", "Netflix", "Los Angeles, CA", 170000, 250000,
         "Full-Time", "1000-5000 Employees", "Entertainment",
         ["User Research", "Data Analysis", "Prototyping"],
         ["Innovation", "Impactful Work"], "6-9 years", "Senior"),
    Seed("SPOTIFY-333", "Product Designer", "Spotify", "Remote in USA", 145000, 200000,
         "Full-Time", "1000-5000 Employees", "Music & Audio",
         ["Figma", "UI/UX Design", "User Research"],
         ["Work-Life Balance", "Innovation"], "4-7 years", "Senior"),
    Seed("TESLA-777", "UX Designer", "Tesla", "Austin, TX", 120000, 180000,
         "Full-Time", "5000-10000 Employees", "Automotive",
         ["Sketch", "Figma", "Wireframing"],
         ["Innovation", "Impactful Work"], "2-5 years", "Mid-level"),
    Seed("MICROSOFT-888", "Senior Design Lead", "Microsoft", "Seattle, WA", 190000, 290000,
         "Full-Time", "10000+ Employees", "Technology",
         ["Design Leadership", "Figma", "Strategic Design"],
         ["Mentorship & Career Development", "Innovation"], "8-12 years", "Lead"),
    Seed("ADOBE-999", "UI Designer", "Adobe", "San Jose, CA", 125000, 175000,
         "Full-Time", "5000-10000 Employees", "Software",
         ["Adobe Creative Suite", "Figma", "UI/UX Design"],
         ["Creativity", "Work-Life Balance"], "3-6 years", "Mid-level"),
    Seed("STRIPE-111", "Product Designer", "Stripe", "Remote in USA", 165000, 230000,
         "Contract", "1000-5000 Employees", "Fintech",
         ["Figma", "Prototyping", "User Research"],
         ["Innovation", "Transparency & Communication"], "5-8 years", "Senior"),
    Seed("ZOOM-222", "Senior Visual Designer", "Zoom", "San Jose, CA", 140000, 200000,
         "Full-Time", "1000-5000 Employees", "Communication",
         ["Adobe Creative Suite", "Branding", "UI/UX Design"],
         ["Work-Life Balance", "Global Impact"], "6-9 years", "Senior")
  ]

  /** The twelve records the catalog starts with. */
  function SampleJobs(): seq<Record> {
    seq(|SEEDS|, i requires 0 <= i < |SEEDS| => Posting(SEEDS[i]))
  }

  /** A two-element `salary_range` of integers with min <= max. */
  predicate OrderedRange(v: Value) {
    v.PyList? && |v.items| == 2 && v.items[0].PyInt? && v.items[1].PyInt? &&
    v.items[0].n <= v.items[1].n
  }

  /** The seed catalog is well formed: required keys present and the
      twelve ids pairwise distinct. */
  lemma SampleJobsWellFormed()
    ensures |SampleJobs()| == 12
    ensures WellFormed(SampleJobs())
  {
    var jobs := SampleJobs();
    SeedIdsDistinct();
    forall i, j | 0 <= i < j < |jobs|
      ensures JobId(jobs[i]) != JobId(jobs[j])
    {
      assert SEEDS[i].id != SEEDS[j].id;
    }
  }

  /** The ids of the seeds, in order. */
  function SeedIds(seeds: seq<Seed>): seq<string> {
    seq(|seeds|, i requires 0 <= i < |seeds| => seeds[i].id)
  }

  /** A proof device, not a second catalog: the seed ids again as bare
      literals, checked against SEEDS by SeedIdsListed, so that their
      distinctness is decided on twelve strings instead of twelve
      records. */
  const SEED_IDS: seq<string> := ["RED-456", "GGL-320", "AIRBNB-123", "UBER-789", "SLACK-555",
    "NETFLIX-444", "SPOTIFY-333", "TESLA-777", "MICROSOFT-888", "ADOBE-999", "STRIPE-111", "ZOOM-222"]

  lemma SeedIdsListed()
    ensures SeedIds(SEEDS) == SEED_IDS
  {
  }

  lemma SeedIdLiteralsDistinct()
    ensures forall i, j :: 0 <= i < j < |SEED_IDS| ==> SEED_IDS[i] != SEED_IDS[j]
  {
  }

  /** No two seeds share an id. */
  lemma SeedIdsDistinct()
    ensures forall i, j :: 0 <= i < j < |SEEDS| ==> SEEDS[i].id != SEEDS[j].id
  {
    SeedIdsListed();
    SeedIdLiteralsDistinct();
    forall i, j | 0 <= i < j < |SEEDS|
      ensures SEEDS[i].id != SEEDS[j].id
    {
      assert SEEDS[i].id == SEED_IDS[i] && SEEDS[j].id == SEED_IDS[j];
    }
  }

  /** Every seed `salary_range` is an ordered pair of integers. */
  lemma SampleSalaryRangesOrdered()
    ensures forall i :: 0 <= i < |SampleJobs()| ==>
      OrderedRange(Get(SampleJobs()[i], "salary_range", PyNone))
  {
    forall i | 0 <= i < |SEEDS|
      ensures SEEDS[i].salaryMin <= SEEDS[i].salaryMax
    {
    }
  }

  /** The catalog object: `_jobs` is the only state. */
  class JobDatabase {
    var jobs: seq<Record>

    ghost predicate Valid()
      reads this
    {
      WellFormed(jobs)
    }

    /** The catalog starts with the seed records. */
    constructor ()
      ensures Valid() && jobs == SampleJobs()
    {
      jobs := SampleJobs();
      SampleJobsWellFormed();
    }

    /** `get_all_jobs`: the records, as a value; the catalog is unchanged. */
    method GetAllJobs() returns (r: seq<Record>)
      ensures r == jobs
    {
      r := jobs;
    }

    /** `get_job_by_id`: a linear scan for the first record with that id. */
    method GetJobById(id: Value) returns (r: Option<Record>)
      ensures r == FindById(jobs, id)
    {
      var i := 0;
      while i < |jobs|
        invariant 0 <= i <= |jobs|
        invariant forall k :: 0 <= k < i ==> JobId(jobs[k]) != id
      {
        if JobId(jobs[i]) == id {
          return Some(jobs[i]);
        }
        i := i + 1;
      }
      return None;
    }

    /** `add_job`: `false` and no change when a required key is missing or
        the id is taken; otherwise the record is appended and `true`. */
    method AddJob(job: Record) returns (ok: bool)
      requires Valid()
      modifies this
      ensures Valid()
      ensures ok <==> HasRequiredFields(job) && FindById(old(jobs), job["job_id"]).None?
      ensures jobs == if ok then old(jobs) + [job] else old(jobs)
      ensures ok ==> FindById(jobs, job["job_id"]) == Some(job)
    {
      var k := 0;
      while k < |REQUIRED_FIELDS|
        invariant 0 <= k <= |REQUIRED_FIELDS|
        invariant forall m :: 0 <= m < k ==> REQUIRED_FIELDS[m] in job
      {
        if REQUIRED_FIELDS[k] !in job {
          assert !HasRequiredFields(job);
          return false;
        }
        k := k + 1;
      }
      assert HasRequiredFields(job) by {
        assert REQUIRED_FIELDS[0] in job && REQUIRED_FIELDS[1] in job;
        assert REQUIRED_FIELDS[2] in job && REQUIRED_FIELDS[3] in job;
      }
      var existing := GetJobById(job["job_id"]);
      if existing.Some? && existing.value != map[] {
        return false;
      }
      assert JobId(job) == job["job_id"];
      AppendKeepsWellFormed(jobs, job);
      FindAppended(jobs, job);
      jobs := jobs + [job];
      return true;
    }

    /** `get_unique_values`: the sorted distinct values of `field`, list
        values flattened. `None` where Python raises: a list element that is
        itself a list (unhashable), or values of kinds that cannot be
        compared with each other. */
    method GetUniqueValues(field: string) returns (r: Option<seq<Value>>)
      ensures r.None? <==> RaisesUnhashable(jobs, field) || !Sortable(Collected(jobs, field))
      ensures r.Some? ==> StrictlyIncreasing(r.value)
      ensures r.Some? ==> forall v :: v in r.value <==> v in Collected(jobs, field)
    {
      var values: set<Value> := {};
      for i := 0 to |jobs|
        invariant values == Collected(jobs[..i], field)
        invariant forall v :: v in values ==> Hashable(v)
        invariant forall k :: 0 <= k < i ==> !HoldsUnhashable(Get(jobs[k], field, PyNone))
      {
        assert jobs[..i + 1][..i] == jobs[..i];
        var value := Get(jobs[i], field, PyNone);
        if value.PyList? {
          if exists x :: x in value.items && !Hashable(x) {
            return None;
          }
          values := values + set x | x in value.items;
        } else if Truthy(value) {
          values := values + {value};
        }
      }
      assert jobs[..|jobs|] == jobs;
      if !Sortable(values) {
        return None;
      }
      var sorted := SortSet(values);
      return Some(sorted);
    }
  }
}
