/** What the company aggregation guarantees, stated against independent
    definitions over the job sequence: which jobs a company has, how many,
    and which of them came first. */
module CompanyFacts {
  import opened JsValues
  import opened Records
  import opened Aggregation

  /** `job` is an eligible job of the company `name`. */
  predicate Lists(job: Job, name: Value) {
    Eligible(job) && job.company == name
  }

  /** The number of eligible jobs of `name` in `jobs`. */
  function CountOf(jobs: seq<Job>, name: Value): nat
    decreases |jobs|
  {
    if jobs == [] then 0
    else CountOf(jobs[..|jobs| - 1], name) + (if Lists(jobs[|jobs| - 1], name) then 1 else 0)
  }

  /** The number of eligible jobs in `jobs`. */
  function EligibleCount(jobs: seq<Job>): nat
    decreases |jobs|
  {
    if jobs == [] then 0
    else EligibleCount(jobs[..|jobs| - 1]) + (if Eligible(jobs[|jobs| - 1]) then 1 else 0)
  }

  /** The eligible jobs of `jobs`, in order. */
  function EligibleJobs(jobs: seq<Job>): (r: seq<Job>)
    ensures forall j :: j in r <==> j in jobs && Eligible(j)
    decreases |jobs|
  {
    if jobs == [] then []
    else
      var init := jobs[..|jobs| - 1];
      assert jobs == init + [jobs[|jobs| - 1]];
      EligibleJobs(init) + (if Eligible(jobs[|jobs| - 1]) then [jobs[|jobs| - 1]] else [])
  }

  /** The filter keeps the order and multiplicity of `jobs`: filtering a
      concatenation filters each part, and a single job is kept exactly when
      it is eligible. */
  lemma {:induction false} EligibleJobsAppend(a: seq<Job>, b: seq<Job>)
    ensures EligibleJobs(a + b) == EligibleJobs(a) + EligibleJobs(b)
    decreases |b|
  {
    if b == [] {
      assert a + b == a;
    } else {
      var init, last := b[..|b| - 1], b[|b| - 1];
      var kept := if Eligible(last) then [last] else [];
      assert b == init + [last];
      assert a + b == (a + init) + [last];
      EligibleJobsAppend(a, init);
      EligibleJobsSnoc(a + init, last);
      EligibleJobsSnoc(init, last);
      var front, middle := EligibleJobs(a), EligibleJobs(init);
      assert EligibleJobs(a + b) == (front + middle) + kept;
      assert (front + middle) + kept == front + (middle + kept);
    }
  }

  lemma EligibleJobsSnoc(init: seq<Job>, last: Job)
    ensures EligibleJobs(init + [last]) == EligibleJobs(init) + (if Eligible(last) then [last] else [])
  {
    assert (init + [last])[..|init|] == init;
  }

  lemma EligibleJobsSingle(j: Job)
    ensures EligibleJobs([j]) == if Eligible(j) then [j] else []
  {
  }

  /** The count of eligible jobs is the length of the filtered sequence. */
  lemma {:induction false} EligibleCountIsLength(jobs: seq<Job>)
    ensures EligibleCount(jobs) == |EligibleJobs(jobs)|
    decreases |jobs|
  {
    if jobs != [] {
      EligibleCountIsLength(jobs[..|jobs| - 1]);
    }
  }

  lemma {:induction false} NoneCounted(jobs: seq<Job>, name: Value)
    requires CountOf(jobs, name) == 0
    ensures forall i :: 0 <= i < |jobs| ==> !Lists(jobs[i], name)
    decreases |jobs|
  {
    if jobs != [] {
      var init := jobs[..|jobs| - 1];
      NoneCounted(init, name);
      assert forall i :: 0 <= i < |init| ==> jobs[i] == init[i];
    }
  }

  /** The position of the first eligible job of `name`. */
  function FirstIndex(jobs: seq<Job>, name: Value): (k: nat)
    requires CountOf(jobs, name) > 0
    ensures k < |jobs| && Lists(jobs[k], name)
    ensures forall i :: 0 <= i < k ==> !Lists(jobs[i], name)
    decreases |jobs|
  {
    var init := jobs[..|jobs| - 1];
    if CountOf(init, name) > 0 then
      assert forall i :: 0 <= i < |init| ==> jobs[i] == init[i];
      FirstIndex(init, name)
    else
      NoneCounted(init, name);
      assert forall i :: 0 <= i < |init| ==> jobs[i] == init[i];
      |jobs| - 1
  }

  /** The company names in the order the summaries are returned. */
  function Names(cs: seq<Summary>): (names: seq<Value>)
    ensures |names| == |cs| && forall i :: 0 <= i < |cs| ==> names[i] == cs[i].name
  {
    seq(|cs|, i requires 0 <= i < |cs| => cs[i].name)
  }

  /** The sum of the job counts of `cs`. */
  function TotalJobCount(cs: seq<Summary>): nat
    decreases |cs|
  {
    if cs == [] then 0 else TotalJobCount(cs[..|cs| - 1]) + cs[|cs| - 1].jobCount
  }

  /** The summary stored under `name` after the fold describes exactly the
      eligible jobs of `name`: it exists iff there is one, counts them, and
      keeps the logo and location of the first. */
  lemma {:induction false} FoldEntries(jobs: seq<Job>, random: nat -> Fraction, name: Value)
    ensures name in Fold(jobs, random).entries <==> CountOf(jobs, name) > 0
    ensures name in Fold(jobs, random).entries ==>
      var s := Fold(jobs, random).entries[name];
      var first := jobs[FirstIndex(jobs, name)];
      s.name == name && s.jobCount == CountOf(jobs, name) &&
      s.logo == first.company_logo && s.location == first.location
    decreases |jobs|
  {
    if jobs != [] {
      var init := jobs[..|jobs| - 1];
      FoldEntries(init, random, name);
      if CountOf(init, name) > 0 {
        assert jobs[FirstIndex(init, name)] == init[FirstIndex(init, name)];
      }
    }
  }

  /** Every returned summary describes the eligible jobs of its company:
      its count is theirs, and its logo and location are those of the first
      of them, whatever later jobs of that company carry. */
  lemma SummariesDescribeTheirJobs(jobs: seq<Job>, random: nat -> Fraction)
    ensures forall s :: s in Companies(jobs, random) ==>
      && CountOf(jobs, s.name) > 0
      && s.jobCount == CountOf(jobs, s.name)
      && s.logo == jobs[FirstIndex(jobs, s.name)].company_logo
      && s.location == jobs[FirstIndex(jobs, s.name)].location
  {
    var t := Fold(jobs, random);
    FoldWellFormed(jobs, random);
    forall s | s in Companies(jobs, random)
      ensures CountOf(jobs, s.name) > 0
      ensures s.jobCount == CountOf(jobs, s.name)
      ensures s.logo == jobs[FirstIndex(jobs, s.name)].company_logo
      ensures s.location == jobs[FirstIndex(jobs, s.name)].location
    {
      var i :| 0 <= i < |t.order| && s == t.entries[t.order[i]];
      FoldEntries(jobs, random, t.order[i]);
    }
  }

  /** A company appears in the result iff it has an eligible job. */
  lemma CompaniesCoverEligibleNames(jobs: seq<Job>, random: nat -> Fraction, name: Value)
    ensures name in Names(Companies(jobs, random)) <==> CountOf(jobs, name) > 0
  {
    var t := Fold(jobs, random);
    FoldWellFormed(jobs, random);
    FoldEntries(jobs, random, name);
    var names := Names(Companies(jobs, random));
    if name in t.order {
      var i :| 0 <= i < |t.order| && t.order[i] == name;
      FoldEntries(jobs, random, t.order[i]);
      assert names[i] == name;
    }
    if name in names {
      var i :| 0 <= i < |names| && names[i] == name;
      FoldEntries(jobs, random, t.order[i]);
    }
  }

  /** Every name of `names` has an eligible job in `jobs`, and the names
      stand in the order of their first eligible jobs (so none repeats). */
  ghost predicate InFirstOccurrenceOrder(jobs: seq<Job>, names: seq<Value>) {
    forall i, j :: 0 <= i < j < |names| ==>
      && CountOf(jobs, names[i]) > 0
      && CountOf(jobs, names[j]) > 0
      && FirstIndex(jobs, names[i]) < FirstIndex(jobs, names[j])
  }

  lemma FirstIndexKept(jobs: seq<Job>, name: Value)
    requires jobs != [] && CountOf(jobs[..|jobs| - 1], name) > 0
    ensures CountOf(jobs, name) > 0
    ensures FirstIndex(jobs, name) == FirstIndex(jobs[..|jobs| - 1], name) < |jobs| - 1
  {
  }

  lemma FirstIndexOfNewcomer(jobs: seq<Job>, name: Value)
    requires jobs != [] && CountOf(jobs[..|jobs| - 1], name) == 0 && Lists(jobs[|jobs| - 1], name)
    ensures CountOf(jobs, name) > 0 && FirstIndex(jobs, name) == |jobs| - 1
  {
  }

  lemma {:induction false} FoldOrder(jobs: seq<Job>, random: nat -> Fraction)
    ensures forall n :: n in Fold(jobs, random).order ==> CountOf(jobs, n) > 0
    ensures InFirstOccurrenceOrder(jobs, Fold(jobs, random).order)
    decreases |jobs|
  {
    if jobs != [] {
      var init := jobs[..|jobs| - 1];
      var last := jobs[|jobs| - 1];
      FoldOrder(init, random);
      var before := Fold(init, random).order;
      var order := Fold(jobs, random).order;
      forall n | n in before
        ensures CountOf(jobs, n) > 0 && FirstIndex(jobs, n) == FirstIndex(init, n) < |jobs| - 1
      {
        FirstIndexKept(jobs, n);
      }
      if order != before {
        FoldWellFormed(init, random);
        FoldEntries(init, random, last.company);
        assert order == before + [last.company];
        FirstIndexOfNewcomer(jobs, last.company);
      }
      forall i, j | 0 <= i < j < |order|
        ensures CountOf(jobs, order[i]) > 0 && CountOf(jobs, order[j]) > 0
        ensures FirstIndex(jobs, order[i]) < FirstIndex(jobs, order[j])
      {
        assert order[i] == before[i] && before[i] in before;
        if j < |before| {
          assert order[j] == before[j] && before[j] in before;
        }
      }
    }
  }

  /** Names come out in the order of their first eligible job, so each
      company appears once. */
  lemma CompaniesInFirstOccurrenceOrder(jobs: seq<Job>, random: nat -> Fraction)
    ensures InFirstOccurrenceOrder(jobs, Names(Companies(jobs, random)))
  {
    var t := Fold(jobs, random);
    FoldWellFormed(jobs, random);
    FoldOrder(jobs, random);
    var names := Names(Companies(jobs, random));
    forall i | 0 <= i < |names| ensures names[i] == t.order[i] {
      FoldEntries(jobs, random, t.order[i]);
    }
    assert names == t.order;
  }

  /** The `i`-th company took the `i`-th pair of random draws when it was
      created, and later jobs never redraw. */
  lemma {:induction false} FoldDraws(jobs: seq<Job>, random: nat -> Fraction)
    ensures var t := Fold(jobs, random);
      forall i :: 0 <= i < |t.order| ==>
        && t.order[i] in t.entries
        && t.entries[t.order[i]].ratingTenths == RatingTenths(random(2 * i))
        && t.entries[t.order[i]].reviews == Reviews(random(2 * i + 1))
    decreases |jobs|
  {
    if jobs != [] {
      FoldDraws(jobs[..|jobs| - 1], random);
      FoldWellFormed(jobs[..|jobs| - 1], random);
    }
  }

  lemma RatingAndReviewsFromCreation(jobs: seq<Job>, random: nat -> Fraction)
    ensures var cs := Companies(jobs, random);
      forall i :: 0 <= i < |cs| ==>
        && cs[i].ratingTenths == RatingTenths(random(2 * i))
        && cs[i].reviews == Reviews(random(2 * i + 1))
        && 35 <= cs[i].ratingTenths <= 50
        && 20 <= cs[i].reviews <= 219
  {
    FoldDraws(jobs, random);
  }

  lemma {:induction false} TotalAppend(cs: seq<Summary>, c: Summary)
    ensures TotalJobCount(cs + [c]) == TotalJobCount(cs) + c.jobCount
  {
    assert (cs + [c])[..|cs|] == cs;
  }

  lemma {:induction false} TotalUpdate(cs: seq<Summary>, p: nat, c: Summary)
    requires p < |cs|
    ensures TotalJobCount(cs[p := c]) + cs[p].jobCount == TotalJobCount(cs) + c.jobCount
    decreases |cs|
  {
    var init := cs[..|cs| - 1];
    if p == |cs| - 1 {
      assert cs[p := c][..|cs| - 1] == init;
    } else {
      TotalUpdate(init, p, c);
      assert cs[p := c][..|cs| - 1] == init[p := c];
    }
  }

  lemma InOrderAppend(t: Table, name: Value, c: Summary)
    requires WellFormed(t) && name !in t.entries
    ensures InOrder(Table(t.order + [name], t.entries[name := c])) == InOrder(t) + [c]
  {
    var t' := Table(t.order + [name], t.entries[name := c]);
    assert forall i :: 0 <= i < |t.order| ==> t.order[i] != name;
    assert forall i :: 0 <= i < |t'.order| ==> InOrder(t')[i] == (InOrder(t) + [c])[i];
  }

  lemma InOrderUpdate(t: Table, p: nat, c: Summary)
    requires WellFormed(t) && p < |t.order|
    ensures InOrder(Table(t.order, t.entries[t.order[p] := c])) == InOrder(t)[p := c]
  {
    var t' := Table(t.order, t.entries[t.order[p] := c]);
    assert forall i :: 0 <= i < |t.order| && i != p ==> t.order[i] != t.order[p];
    assert forall i :: 0 <= i < |t'.order| ==> InOrder(t')[i] == InOrder(t)[p := c][i];
  }

  lemma StepTotal(t: Table, job: Job, random: nat -> Fraction)
    requires WellFormed(t)
    ensures TotalJobCount(InOrder(Step(t, job, random))) ==
      TotalJobCount(InOrder(t)) + (if Eligible(job) then 1 else 0)
  {
    var name := job.company;
    if Eligible(job) {
      if name !in t.entries {
        var c := NewSummary(job, |t.order|, random);
        assert Step(t, job, random) == Table(t.order + [name], t.entries[name := c]);
        InOrderAppend(t, name, c);
        TotalAppend(InOrder(t), c);
      } else {
        assert name in t.order;
        var p :| 0 <= p < |t.order| && t.order[p] == name;
        var c := t.entries[name].(jobCount := t.entries[name].jobCount + 1);
        assert Step(t, job, random) == Table(t.order, t.entries[t.order[p] := c]);
        InOrderUpdate(t, p, c);
        assert InOrder(t)[p] == t.entries[name];
        TotalUpdate(InOrder(t), p, c);
      }
    }
  }

  /** The job counts add up to the number of eligible jobs, so no eligible
      job is lost or counted twice. */
  lemma {:induction false} JobCountsSumToEligible(jobs: seq<Job>, random: nat -> Fraction)
    ensures TotalJobCount(Companies(jobs, random)) == EligibleCount(jobs)
    decreases |jobs|
  {
    if jobs != [] {
      var init := jobs[..|jobs| - 1];
      JobCountsSumToEligible(init, random);
      FoldWellFormed(init, random);
      StepTotal(Fold(init, random), jobs[|jobs| - 1], random);
    }
  }

  /** There are never more companies than eligible jobs. */
  lemma {:induction false} AtMostOneCompanyPerEligibleJob(jobs: seq<Job>, random: nat -> Fraction)
    ensures |Companies(jobs, random)| <= EligibleCount(jobs)
    decreases |jobs|
  {
    if jobs != [] {
      AtMostOneCompanyPerEligibleJob(jobs[..|jobs| - 1], random);
    }
  }

  lemma {:induction false} FoldSkipsIneligible(jobs: seq<Job>, random: nat -> Fraction)
    ensures Fold(jobs, random) == Fold(EligibleJobs(jobs), random)
    decreases |jobs|
  {
    if jobs != [] {
      var init := jobs[..|jobs| - 1];
      var last := jobs[|jobs| - 1];
      FoldSkipsIneligible(init, random);
      if Eligible(last) {
        var e := EligibleJobs(init) + [last];
        assert EligibleJobs(jobs) == e;
        assert e[..|e| - 1] == EligibleJobs(init);
        assert Fold(e, random) == Step(Fold(EligibleJobs(init), random), last, random);
      } else {
        assert EligibleJobs(jobs) == EligibleJobs(init);
      }
    }
  }

  /** A job with a falsy company or logo contributes nothing: aggregating
      the eligible jobs alone gives the same result, random draws included. */
  lemma IneligibleJobsIgnored(jobs: seq<Job>, random: nat -> Fraction)
    ensures Companies(jobs, random) == Companies(EligibleJobs(jobs), random)
  {
    FoldSkipsIneligible(jobs, random);
  }
}
