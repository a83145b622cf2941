/** `POST /job-applications`: store the application, then raise the job's
    application count by one. */
module Submission {
  import opened JsValues
  import opened Records

  /** The text fields of the multipart form. */
  datatype Form = Form(
    job_id: Value,
    applicant_email: Value,
    applicant_name: Value,
    applicant_phone: Value,
    applicant_linkedin: Value,
    applicant_notes: Value)

  /** The original file names of the first `resume` and `coverLetter`
      uploads, when the request carried them. */
  datatype Uploads = Uploads(resume: Option<string>, coverLetter: Option<string>)

  /** `req.files?.field?.[0]?.originalname || null`: the uploaded file's
      original name when there is one and it is not empty, else `null`. */
  function UploadedName(f: Option<string>): (r: Value)
    ensures Truthy(r) <==> f.Some? && f.value != ""
    ensures Truthy(r) ==> r == Str(f.value)
    ensures !Truthy(r) ==> r == Null
  {
    if f.Some? && f.value != "" then Str(f.value) else Null
  }

  /** The document inserted into the applications collection under the
      identifier `id` the insert generates: the six form fields copied, the
      two uploaded file names, and none of the display keys. */
  function NewApplication(id: ObjectId, form: Form, uploads: Uploads): (a: Application)
    ensures Stored(a) == StoredApplication(id, form.job_id, form.applicant_email, form.applicant_name,
                                           form.applicant_phone, form.applicant_linkedin,
                                           form.applicant_notes, UploadedName(uploads.resume),
                                           UploadedName(uploads.coverLetter))
    ensures Truthy(a.resume) <==> uploads.resume.Some? && uploads.resume.value != ""
    ensures Truthy(a.coverLetter) <==> uploads.coverLetter.Some? && uploads.coverLetter.value != ""
    ensures a.job == None
    ensures a.title == Undefined && a.location == Undefined && a.company == Undefined
    ensures a.company_logo == Undefined && a.jobType == Undefined
    ensures a.category == Undefined && a.salaryRange == Undefined
  {
    Application(id, form.job_id, form.applicant_email, form.applicant_name,
                form.applicant_phone, form.applicant_linkedin, form.applicant_notes,
                UploadedName(uploads.resume), UploadedName(uploads.coverLetter),
                None, Undefined, Undefined, Undefined, Undefined, Undefined, Undefined, Undefined)
  }

  /** The new `applicationCount`: `count + 1` for a truthy old count, else 1.
      On any number this is one more (0 is falsy and becomes 1 either way);
      `true` becomes 2 and a truthy string count gets "1" appended, as the
      JavaScript `+` does. */
  function NextApplicationCount(count: Value): (r: Value)
    ensures !Truthy(count) ==> r == Num(1)
    ensures count.Num? ==> r == Num(count.n + 1)
    ensures count == Bool(true) ==> r == Num(2)
    ensures count.Str? && Truthy(count) ==> r == Str(count.s + "1")
  {
    if Truthy(count) then PlusOne(count) else Num(1)
  }

  /** A count that is a number, or a falsy value standing for "none yet". */
  predicate OrdinaryCount(c: Value) {
    c.Num? || !Truthy(c)
  }

  /** The count after `k` submissions in a row. */
  function CountAfter(count: Value, k: nat): Value
    decreases k
  {
    if k == 0 then count else NextApplicationCount(CountAfter(count, k - 1))
  }

  /** Starting from a missing, falsy or numeric count, `k` submissions leave
      the count at its start plus `k`. */
  lemma {:induction false} SubmissionsAddUp(count: Value, k: nat)
    requires OrdinaryCount(count)
    ensures var start := if count.Num? then count.n else 0;
      k > 0 ==> CountAfter(count, k) == Num(start + k)
    decreases k
  {
    if k > 1 {
      SubmissionsAddUp(count, k - 1);
    }
  }

  /** The two collections the route touches. */
  datatype Db = Db(jobs: map<ObjectId, Job>, applications: seq<Application>)

  /** The reply: the inserted id with the job as it was read (before its
      count was raised), or the failure that ends the request with 500. */
  datatype Reply = Submitted(insertedId: ObjectId, jobDetails: Job) | Failed(error: Error)

  datatype Outcome = Outcome(db: Db, reply: Reply)

  /** The route handler. The application is inserted first; then the job id
      goes through the ObjectId constructor (`toObjectId`, `None` when it
      throws), the job is read, and `job.applicationCount` is read on it,
      which throws when the job does not exist. */
  function SubmitApplication(db: Db, form: Form, uploads: Uploads, newId: ObjectId,
                             toObjectId: Value -> Option<ObjectId>): (r: Outcome)
    ensures r.db.applications == db.applications + [NewApplication(newId, form, uploads)]
    ensures r.reply.Submitted? <==>
      toObjectId(form.job_id).Some? && toObjectId(form.job_id).value in db.jobs
    ensures r.reply.Failed? ==> r.db.jobs == db.jobs
    ensures r.reply.Failed? ==>
      (r.reply.error == InvalidObjectId <==> toObjectId(form.job_id).None?) &&
      (r.reply.error == NullDereference <==> toObjectId(form.job_id).Some?)
    ensures r.reply.Submitted? ==>
      var id := toObjectId(form.job_id).value;
      && r.reply.insertedId == newId
      && r.reply.jobDetails == db.jobs[id]
      && r.db.jobs.Keys == db.jobs.Keys
      && r.db.jobs[id] == db.jobs[id].(applicationCount := NextApplicationCount(db.jobs[id].applicationCount))
      && (forall other :: other in db.jobs && other != id ==> r.db.jobs[other] == db.jobs[other])
  {
    var application := NewApplication(newId, form, uploads);
    var inserted := db.(applications := db.applications + [application]);
    match toObjectId(form.job_id)
    case None => Outcome(inserted, Failed(InvalidObjectId))
    case Some(id) =>
      if id !in db.jobs then Outcome(inserted, Failed(NullDereference))
      else
        var job := db.jobs[id];
        var newCount := NextApplicationCount(job.applicationCount);
        Outcome(inserted.(jobs := db.jobs[id := job.(applicationCount := newCount)]), Submitted(newId, job))
  }
}
