/** The two collections of the job board's document store, as records. */
module Records {
  import opened JsValues

  /** The store-generated document identifier. */
  datatype ObjectId = ObjectId(hex: string)

  /** A document of the Jobs collection. Fields the document lacks are
      `Undefined`; `createdAt` is the insertion timestamp in milliseconds. */
  datatype Job = Job(
    id: ObjectId,
    title: Value,
    company: Value,
    company_logo: Value,
    location: Value,
    category: Value,
    description: Value,
    jobType: Value,
    salaryRange: Value,
    postedBy: Value,
    status: Value,
    isFeatured: Value,
    applicationCount: Value,
    createdAt: int)

  /** A document of the job_applications collection, together with the
      keys the applications listing adds to it for display (`job` and the
      seven copied job fields). A stored application has `job == None` and
      the seven display fields `Undefined`. */
  datatype Application = Application(
    id: ObjectId,
    job_id: Value,
    applicant_email: Value,
    applicant_name: Value,
    applicant_phone: Value,
    applicant_linkedin: Value,
    applicant_notes: Value,
    resume: Value,
    coverLetter: Value,
    job: Option<Job>,
    title: Value,
    location: Value,
    company: Value,
    company_logo: Value,
    jobType: Value,
    category: Value,
    salaryRange: Value)

  /** The persisted part of an application: what the submission route
      stores, without the display keys. */
  datatype StoredApplication = StoredApplication(
    id: ObjectId,
    job_id: Value,
    applicant_email: Value,
    applicant_name: Value,
    applicant_phone: Value,
    applicant_linkedin: Value,
    applicant_notes: Value,
    resume: Value,
    coverLetter: Value)

  function Stored(a: Application): StoredApplication {
    StoredApplication(a.id, a.job_id, a.applicant_email, a.applicant_name,
                      a.applicant_phone, a.applicant_linkedin, a.applicant_notes,
                      a.resume, a.coverLetter)
  }

  /** The error paths that end a request with status 500. */
  datatype Error =
    | InvalidObjectId     // the ObjectId constructor threw on a malformed id
    | NullDereference     // a property was read on a `null` document
    | NegativeSkip        // the database refused a negative skip
}
