/** The company aggregation behind `GET /api/companies` and
    `GET /api/companies/all`: the active jobs are folded, in query order,
    into one summary per company name, held in an insertion-ordered map. */
module Aggregation {
  import opened JsValues
  import opened Records

  /** The summary the routes send for one company. `ratingTenths` is the
      synthesized rating in tenths (4.2 is 42). */
  datatype Summary = Summary(
    name: Value,
    logo: Value,
    location: Value,
    jobCount: nat,
    ratingTenths: int,
    reviews: int)

  /** The rating of a new company: `(draw * 1.5 + 3.5).toFixed(1)` read back
      as a number, in tenths; `toFixed` rounds half up. */
  function RatingTenths(u: Fraction): (tenths: int)
    ensures 35 <= tenths <= 50
  {
    QuotientBelow(30 * u.num + u.den, 2 * u.den, 16);
    (30 * u.num + u.den) / (2 * u.den) + 35
  }

  /** The review count of a new company: `Math.floor(draw * 200) + 20`. */
  function Reviews(u: Fraction): (reviews: int)
    ensures 20 <= reviews <= 219
  {
    QuotientBelow(200 * u.num, u.den, 200);
    200 * u.num / u.den + 20
  }

  /** The database query `{ status: "active" }`: the active jobs, in order. */
  predicate Active(job: Job) {
    job.status == Str("active")
  }

  function ActiveJobs(collection: seq<Job>): (jobs: seq<Job>)
    ensures |jobs| <= |collection|
    ensures forall j :: j in jobs <==> j in collection && Active(j)
  {
    if collection == [] then []
    else (if Active(collection[0]) then [collection[0]] else []) + ActiveJobs(collection[1..])
  }

  /** The query keeps the collection's order and multiplicity: filtering a
      concatenation filters each part, and a single job is kept exactly when
      it is active. */
  lemma {:induction false} ActiveJobsAppend(a: seq<Job>, b: seq<Job>)
    ensures ActiveJobs(a + b) == ActiveJobs(a) + ActiveJobs(b)
    decreases |a|
  {
    if a == [] {
      assert a + b == b;
    } else {
      assert (a + b)[1..] == a[1..] + b;
      ActiveJobsAppend(a[1..], b);
    }
  }

  lemma ActiveJobsSingle(j: Job)
    ensures ActiveJobs([j]) == if Active(j) then [j] else []
  {
  }

  /** A job takes part in the aggregation only if both its company name and
      its logo are truthy. */
  predicate Eligible(job: Job) {
    Truthy(job.company) && Truthy(job.company_logo)
  }

  /** The state of the JavaScript `Map` during the fold: the keys in
      insertion order and the summary stored under each key. */
  datatype Table = Table(order: seq<Value>, entries: map<Value, Summary>)

  ghost predicate WellFormed(t: Table) {
    && (forall i, j :: 0 <= i < j < |t.order| ==> t.order[i] != t.order[j])
    && (forall n :: n in t.entries <==> n in t.order)
  }

  /** The summary created for the company of `job`, the `k`-th company of
      this pass, which consumes the pass's random draws `2k` (rating) and
      `2k + 1` (reviews). */
  function NewSummary(job: Job, k: nat, random: nat -> Fraction): Summary {
    Summary(job.company, job.company_logo, job.location, 1,
            RatingTenths(random(2 * k)), Reviews(random(2 * k + 1)))
  }

  /** One iteration of the `forEach` callback. */
  function Step(t: Table, job: Job, random: nat -> Fraction): Table {
    var name := job.company;
    if !Eligible(job) then t
    else if name !in t.entries then
      Table(t.order + [name], t.entries[name := NewSummary(job, |t.order|, random)])
    else
      Table(t.order, t.entries[name := t.entries[name].(jobCount := t.entries[name].jobCount + 1)])
  }

  /** The map after the callback has run on every job of `jobs`. */
  function Fold(jobs: seq<Job>, random: nat -> Fraction): Table
    decreases |jobs|
  {
    if jobs == [] then Table([], map[])
    else Step(Fold(jobs[..|jobs| - 1], random), jobs[|jobs| - 1], random)
  }

  lemma StepWellFormed(t: Table, job: Job, random: nat -> Fraction)
    requires WellFormed(t)
    ensures WellFormed(Step(t, job, random))
  {
  }

  /** The callback touches one company only: an ineligible job changes
      nothing; an eligible job's company gets a new summary at the end of
      the order, or one more job on the summary it has; every other entry
      stays as it was. */
  lemma StepChangesOneCompany(t: Table, job: Job, random: nat -> Fraction)
    ensures var r := Step(t, job, random);
      && (!Eligible(job) ==> r == t)
      && (Eligible(job) && job.company !in t.entries ==>
            r.order == t.order + [job.company] && job.company in r.entries &&
            r.entries[job.company] == NewSummary(job, |t.order|, random))
      && (Eligible(job) && job.company in t.entries ==>
            r.order == t.order && job.company in r.entries &&
            r.entries[job.company] == t.entries[job.company].(jobCount := t.entries[job.company].jobCount + 1))
      && r.entries.Keys == t.entries.Keys + (if Eligible(job) then {job.company} else {})
      && (forall n :: n in t.entries && n != job.company ==> r.entries[n] == t.entries[n])
  {
  }

  /** A summary as the callback builds it: stored under its own name, with
      at least one job, a rating of 3.5 to 5.0 and 20 to 219 reviews. */
  predicate Sensible(name: Value, s: Summary) {
    && s.name == name
    && s.jobCount >= 1
    && 35 <= s.ratingTenths <= 50
    && 20 <= s.reviews <= 219
  }

  /** After any number of jobs the map has at most one key per job, and
      every summary in it is sensible. */
  lemma {:induction false} FoldSensible(jobs: seq<Job>, random: nat -> Fraction)
    ensures |Fold(jobs, random).order| <= |jobs|
    ensures forall n :: n in Fold(jobs, random).entries ==> Sensible(n, Fold(jobs, random).entries[n])
    decreases |jobs|
  {
    if jobs != [] {
      FoldSensible(jobs[..|jobs| - 1], random);
    }
  }

  lemma {:induction false} FoldWellFormed(jobs: seq<Job>, random: nat -> Fraction)
    ensures WellFormed(Fold(jobs, random))
    decreases |jobs|
  {
    if jobs != [] {
      FoldWellFormed(jobs[..|jobs| - 1], random);
      StepWellFormed(Fold(jobs[..|jobs| - 1], random), jobs[|jobs| - 1], random);
    }
  }

  /** `Array.from(map.values())`: the summaries in key insertion order. */
  function InOrder(t: Table): (r: seq<Summary>)
    requires forall n :: n in t.order ==> n in t.entries
    ensures |r| == |t.order|
    ensures forall i :: 0 <= i < |t.order| ==> r[i] == t.entries[t.order[i]]
  {
    seq(|t.order|, i requires 0 <= i < |t.order| => t.entries[t.order[i]])
  }

  /** What the aggregation returns for the jobs `jobs`: at most one summary
      per job, each of them sensible. */
  function Companies(jobs: seq<Job>, random: nat -> Fraction): (cs: seq<Summary>)
    ensures |cs| <= |jobs|
    ensures forall i :: 0 <= i < |cs| ==> Sensible(cs[i].name, cs[i])
    ensures |cs| == |Fold(jobs, random).order|
    ensures forall i :: 0 <= i < |cs| ==> cs[i].name == Fold(jobs, random).order[i]
  {
    FoldWellFormed(jobs, random);
    FoldSensible(jobs, random);
    InOrder(Fold(jobs, random))
  }

  /** The insertion-ordered JavaScript `Map` from company name to summary. */
  class CompanyMap {
    var order: seq<Value>
    var entries: map<Value, Summary>

    ghost predicate Valid()
      reads this
    {
      WellFormed(Table(order, entries))
    }

    function Contents(): Table
      reads this
    {
      Table(order, entries)
    }

    constructor ()
      ensures Valid() && order == [] && entries == map[]
    {
      order := [];
      entries := map[];
    }

    predicate Has(name: Value)
      reads this
    {
      name in entries
    }

    function Get(name: Value): Summary
      reads this
      requires Has(name)
    {
      entries[name]
    }

    /** `map.set(name, s)`: a new key goes last, an existing key keeps its
        place and gets the new value. */
    method Set(name: Value, s: Summary)
      requires Valid()
      modifies this
      ensures Valid()
      ensures entries == old(entries)[name := s]
      ensures order == if name in old(entries) then old(order) else old(order) + [name]
    {
      if name !in entries {
        order := order + [name];
      }
      entries := entries[name := s];
    }

    /** `Array.from(map.values())`. */
    method Values() returns (vs: seq<Summary>)
      requires Valid()
      ensures vs == InOrder(Contents())
    {
      vs := [];
      var i := 0;
      while i < |order|
        invariant 0 <= i <= |order|
        invariant |vs| == i
        invariant forall k :: 0 <= k < i ==> vs[k] == entries[order[k]]
      {
        vs := vs + [entries[order[i]]];
        i := i + 1;
      }
    }
  }

  /** The `forEach` callback on one job. `draws` is the number of
      `Math.random()` calls made so far in this pass. */
  method Visit(companyMap: CompanyMap, job: Job, random: nat -> Fraction, draws: nat)
    returns (drawsAfter: nat)
    requires companyMap.Valid() && draws == 2 * |companyMap.order|
    modifies companyMap
    ensures companyMap.Valid() && drawsAfter == 2 * |companyMap.order|
    ensures companyMap.Contents() == Step(old(companyMap.Contents()), job, random)
  {
    drawsAfter := draws;
    var name, logo, location := job.company, job.company_logo, job.location;
    if !Truthy(name) || !Truthy(logo) {
      return;
    }
    if !companyMap.Has(name) {
      var rating := RatingTenths(random(drawsAfter));
      var reviews := Reviews(random(drawsAfter + 1));
      drawsAfter := drawsAfter + 2;
      companyMap.Set(name, Summary(name, logo, location, 1, rating, reviews));
    } else {
      var existing := companyMap.Get(name);
      companyMap.Set(name, existing.(jobCount := existing.jobCount + 1));
    }
  }

  /** The handler body: walk the jobs, creating a summary for a company seen
      for the first time and bumping the job count of one seen before. The
      source bumps `jobCount` on the summary object the map holds; here the
      updated summary is stored back under the same key, which keeps the
      key's place. */
  method AggregateCompanies(jobs: seq<Job>, random: nat -> Fraction) returns (companies: seq<Summary>)
    ensures companies == Companies(jobs, random)
  {
    var companyMap := new CompanyMap();
    var draws := 0;
    var i := 0;
    while i < |jobs|
      invariant 0 <= i <= |jobs|
      invariant companyMap.Valid()
      invariant companyMap.Contents() == Fold(jobs[..i], random)
      invariant draws == 2 * |companyMap.order|
    {
      draws := Visit(companyMap, jobs[i], random, draws);
      assert jobs[..i + 1][..i] == jobs[..i];
      i := i + 1;
    }
    assert jobs[..|jobs|] == jobs;
    companies := companyMap.Values();
  }

  /** Both company routes: query the active jobs, then aggregate them. */
  method ListCompanies(collection: seq<Job>, random: nat -> Fraction) returns (companies: seq<Summary>)
    ensures companies == Companies(ActiveJobs(collection), random)
  {
    var jobs := ActiveJobs(collection);
    companies := AggregateCompanies(jobs, random);
  }
}
