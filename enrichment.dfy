/** The join behind `GET /job-applications`: each application of the
    applicant gets its job attached, with seven of the job's fields copied
    onto it for display. */
module Enrichment {
  import opened JsValues
  import opened Records

  /** `jobsCollection.findOne({ _id: new ObjectId(jobId) })`. The ObjectId
      constructor is the parameter `toObjectId`; `None` means it threw. */
  function FindJob(jobs: map<ObjectId, Job>, jobId: Value, toObjectId: Value -> Option<ObjectId>)
    : (r: Result<Option<Job>, Error>)
    ensures r.Failure? <==> toObjectId(jobId).None?
    ensures r.Failure? ==> r.error == InvalidObjectId
    ensures r.Success? ==> (r.value.Some? <==> toObjectId(jobId).value in jobs)
    ensures r.Success? && r.value.Some? ==> r.value.value == jobs[toObjectId(jobId).value]
  {
    match toObjectId(jobId)
    case None => Failure(InvalidObjectId)
    case Some(id) => Success(if id in jobs then Some(jobs[id]) else None)
  }

  /** `app` shows `job`: it holds the job and the job's title, location,
      company, logo, job type, category and salary range. */
  predicate Shows(app: Application, job: Job) {
    && app.job == Some(job)
    && app.title == job.title
    && app.location == job.location
    && app.company == job.company
    && app.company_logo == job.company_logo
    && app.jobType == job.jobType
    && app.category == job.category
    && app.salaryRange == job.salaryRange
  }

  /** The eight assignments made when the job exists. */
  function WithJob(app: Application, job: Job): Application {
    app.(job := Some(job), title := job.title, location := job.location,
         company := job.company, company_logo := job.company_logo,
         jobType := job.jobType, category := job.category,
         salaryRange := job.salaryRange)
  }

  /** What the map callback leaves in one application object: enriched when
      its job was found, untouched when it was not or when its id was
      malformed. */
  function Settle(app: Application, jobs: map<ObjectId, Job>, toObjectId: Value -> Option<ObjectId>)
    : (r: Application)
    ensures Stored(r) == Stored(app)
    ensures toObjectId(app.job_id).Some? && toObjectId(app.job_id).value in jobs ==>
      Shows(r, jobs[toObjectId(app.job_id).value])
    ensures toObjectId(app.job_id).None? || toObjectId(app.job_id).value !in jobs ==> r == app
  {
    match FindJob(jobs, app.job_id, toObjectId)
    case Success(Some(job)) => WithJob(app, job)
    case _ => app
  }

  /** The response body: the applications in their query order, each
      settled; a single malformed job id fails the whole request. */
  function EnrichedApplications(apps: seq<Application>, jobs: map<ObjectId, Job>,
                                toObjectId: Value -> Option<ObjectId>)
    : (r: Result<seq<Application>, Error>)
    ensures r.Failure? <==> exists i :: 0 <= i < |apps| && toObjectId(apps[i].job_id).None?
    ensures r.Failure? ==> r.error == InvalidObjectId
    ensures r.Success? ==> |r.value| == |apps|
    ensures r.Success? ==> forall i :: 0 <= i < |apps| ==>
      && Stored(r.value[i]) == Stored(apps[i])
      && var id := toObjectId(apps[i].job_id).value;
         if id in jobs then Shows(r.value[i], jobs[id]) else r.value[i] == apps[i]
  {
    if exists i :: 0 <= i < |apps| && toObjectId(apps[i].job_id).None? then
      Failure(InvalidObjectId)
    else
      Success(seq(|apps|, i requires 0 <= i < |apps| => Settle(apps[i], jobs, toObjectId)))
  }

  /** The handler's `result.map(...)` over the array the query returned:
      each application object is updated in place. The flag says whether
      every job id was well formed; when it is not, the route answers 500. */
  method EnrichInPlace(apps: array<Application>, jobs: map<ObjectId, Job>,
                       toObjectId: Value -> Option<ObjectId>) returns (ok: bool)
    modifies apps
    ensures ok <==> forall i :: 0 <= i < apps.Length ==> toObjectId(old(apps[i]).job_id).Some?
    ensures forall i :: 0 <= i < apps.Length ==> apps[i] == Settle(old(apps[i]), jobs, toObjectId)
    ensures ok ==> EnrichedApplications(old(apps[..]), jobs, toObjectId) == Success(apps[..])
  {
    ok := true;
    var i := 0;
    while i < apps.Length
      invariant 0 <= i <= apps.Length
      invariant forall k :: 0 <= k < i ==> apps[k] == Settle(old(apps[k]), jobs, toObjectId)
      invariant forall k :: i <= k < apps.Length ==> apps[k] == old(apps[k])
      invariant ok <==> forall k :: 0 <= k < i ==> toObjectId(old(apps[k]).job_id).Some?
    {
      var app := apps[i];
      var lookup := FindJob(jobs, app.job_id, toObjectId);
      match lookup {
        case Failure(_) =>
          ok := false;
        case Success(found) =>
          if found.Some? {
            var job := found.value;
            apps[i] := app.(job := Some(job), title := job.title, location := job.location,
                            company := job.company, company_logo := job.company_logo,
                            jobType := job.jobType, category := job.category,
                            salaryRange := job.salaryRange);
          }
      }
      i := i + 1;
    }
    if ok {
      ghost var before := old(apps[..]);
      assert forall k :: 0 <= k < apps.Length ==> before[k] == old(apps[k]);
      assert !exists k :: 0 <= k < |before| && toObjectId(before[k].job_id).None?;
      assert seq(|before|, k requires 0 <= k < |before| => Settle(before[k], jobs, toObjectId)) == apps[..];
    }
  }

  /** Enriching the response again changes nothing: the job ids are kept
      and the copied fields are already those of the job. */
  lemma EnrichmentIdempotent(apps: seq<Application>, jobs: map<ObjectId, Job>,
                             toObjectId: Value -> Option<ObjectId>)
    requires EnrichedApplications(apps, jobs, toObjectId).Success?
    ensures var rs := EnrichedApplications(apps, jobs, toObjectId).value;
      EnrichedApplications(rs, jobs, toObjectId) == Success(rs)
  {
    var rs := EnrichedApplications(apps, jobs, toObjectId).value;
    assert forall i :: 0 <= i < |rs| ==> rs[i].job_id == apps[i].job_id;
    assert forall i :: 0 <= i < |rs| ==> Settle(rs[i], jobs, toObjectId) == rs[i];
    assert !exists i :: 0 <= i < |rs| && toObjectId(rs[i].job_id).None?;
    assert seq(|rs|, i requires 0 <= i < |rs| => Settle(rs[i], jobs, toObjectId)) == rs;
  }
}
