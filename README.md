# Job board server: the data logic of its routes, in Dafny

The server is an Express application over a MongoDB database with two
collections, jobs and job applications. This project models the parts of
its route handlers that compute something, rather than only forward a
query:

- the company aggregation of `GET /api/companies` and
  `GET /api/companies/all`. The active jobs are folded, in query order, into
  an insertion-ordered `Map` from company name to a summary. The summary
  holds the name, logo, location, job count, a random rating and a random
  review count. Both routes carry the same code; it is modelled once
  (`companies.dfy`, with the properties in `company_facts.dfy`);
- the applications listing of `GET /job-applications`. An application whose
  job exists gets that job attached, with seven of the job's fields copied
  onto it; any other application is left as it is. A single malformed job id
  fails the whole listing (`enrichment.dfy`);
- the submission of `POST /job-applications`. The application is inserted
  first. Then the job id is turned into an ObjectId, the job is read, and its
  `applicationCount` gets `+ 1` in the JavaScript sense: a number rises by
  one and a string count gets "1" appended. The request fails after the
  insert when the id is malformed or the job does not exist
  (`submission.dfy`);
- the paging window of `GET /jobs/all`: `page` defaults to 1, `limit` to 20,
  and the route skips `(page - 1) * limit` jobs (`paging.dfy`);
- the CORS origin check (`cors.dfy`).

`js_values.dfy` holds the JavaScript values the handlers branch on, with
their truthiness and `+ 1`. `records.dfy` holds the two document kinds.

Things the code cannot see are parameters:

- `Math.random()` is a function `random: nat -> Fraction` from the index of
  the draw to an exact rational in [0, 1). In one aggregation pass, the
  k-th new company takes draws 2k (rating) and 2k + 1 (reviews).
- The `ObjectId` constructor is a function `toObjectId: Value ->
  Option<ObjectId>`, where `None` means it throws.
- A collection is a sequence (in query order) or a map from id to document.

The JavaScript `Map` the aggregation mutates is the class
`Aggregation.CompanyMap`. Its insertion order and entries are fields, and
the handler is a loop over the jobs (`Aggregation.AggregateCompanies`),
proved against the fold `Aggregation.Fold`. The listing's in-place
`result.map` is `Enrichment.EnrichInPlace`, a loop over an array, proved
against the function `Enrichment.EnrichedApplications`.

The rating is `parseFloat((Math.random() * 1.5 + 3.5).toFixed(1))`. It is
modelled in exact rational arithmetic, in tenths: `toFixed(1)` rounds half
up, so the rating is `floor(15u + 0.5) + 35` tenths for a draw `u`.

The listing copies seven job fields onto an application: title, location,
company, logo, job type, category and salary range.

## Model

| member | source | states |
|---|---|---|
| Aggregation.RatingTenths | index.js:118 | a new company's rating, `(u * 1.5 + 3.5).toFixed(1)` read in tenths, lies between 3.5 and 5.0 |
| Aggregation.Reviews | index.js:119 | a new company's review count, `floor(u * 200) + 20`, lies between 20 and 219 |
| Aggregation.ActiveJobs | index.js:101 | the query `{ status: "active" }` keeps exactly the jobs whose status is the string "active", and never adds any |
| Aggregation.ActiveJobsAppend | index.js:101 | the query keeps the collection's order and multiplicity: filtering a concatenation is the concatenation of the filtered parts |
| Aggregation.ActiveJobsSingle | index.js:101 | a single job is kept iff it is active; with the previous row this fixes the query result completely |
| Aggregation.StepChangesOneCompany | index.js:105-124 | one callback: an ineligible job changes nothing; a new company is appended with a fresh summary; a known company's count rises by one; every other entry is unchanged |
| Aggregation.FoldSensible | index.js:105-124 | after the loop there is at most one key per job, and each summary is stored under its own name, counts at least one job and has its rating and reviews within bounds |
| Aggregation.Companies | index.js:127 | the response has one company per key of the map, in insertion order, each named by its key; at most one per job, each with at least one job and bounded rating and reviews |
| Aggregation.InOrder | index.js:127 | `Array.from(map.values())` gives one summary per key, in key insertion order |
| Aggregation.FoldWellFormed | index.js:105-124 | after any number of jobs the map's keys are distinct, and the stored keys are exactly the ordered keys |
| Aggregation.CompanyMap.constructor | index.js:103 | `new Map()` is empty |
| Aggregation.CompanyMap.Set | index.js:112-123 | `map.set` stores the value under the key; a new key goes last and an existing key keeps its place |
| Aggregation.CompanyMap.Values | index.js:127 | the loop returns the summaries in key insertion order |
| Aggregation.Visit | index.js:105-124 | one `forEach` callback: it skips a job with a falsy name or logo; it creates a summary with count 1 and the next two random draws for a new name; otherwise it adds one to the count. The draw counter stays twice the number of companies |
| Aggregation.AggregateCompanies | index.js:103-127 | the handler's loop returns the summaries of the fold of all jobs, in insertion order |
| Aggregation.ListCompanies | index.js:99-128 | the route returns the aggregation of the active jobs |
| CompanyFacts.EligibleJobs | index.js:110 | the jobs with a truthy company and logo, and only those |
| CompanyFacts.EligibleJobsAppend | index.js:110 | the filter keeps order and multiplicity: filtering a concatenation is the concatenation of the filtered parts |
| CompanyFacts.EligibleJobsSingle | index.js:110 | a single job is kept iff its company and logo are truthy |
| CompanyFacts.EligibleCountIsLength | index.js:110 | the number of eligible jobs counted is the length of the filtered sequence |
| CompanyFacts.FirstIndex | index.js:112-121 | the position of a company's first eligible job: that job lists the company and none before it does |
| CompanyFacts.FoldEntries | index.js:105-124 | a name is in the map iff it has an eligible job; its summary counts exactly those jobs and keeps the logo and location of the first one |
| CompanyFacts.SummariesDescribeTheirJobs | index.js:112-124 | every returned summary's job count equals its company's number of eligible jobs, and its logo and location are those of the company's first job |
| CompanyFacts.CompaniesCoverEligibleNames | index.js:110-120 | a company is returned iff it has at least one job with a truthy name and logo |
| CompanyFacts.FoldOrder | index.js:112-127 | the map's keys stand in the order of each company's first eligible job |
| CompanyFacts.CompaniesInFirstOccurrenceOrder | index.js:112-127 | the returned companies are in the order of their first eligible job, so no company appears twice |
| CompanyFacts.FoldDraws | index.js:112-123 | the i-th key's rating and reviews come from draws 2i and 2i + 1; later jobs of the company never redraw |
| CompanyFacts.RatingAndReviewsFromCreation | index.js:113-123 | the i-th returned company's rating and reviews come from the i-th pair of draws, within their bounds |
| CompanyFacts.StepTotal | index.js:110-124 | one callback raises the sum of the job counts by one for an eligible job and by nothing otherwise |
| CompanyFacts.JobCountsSumToEligible | index.js:105-127 | the job counts add up to the number of eligible jobs: no job is lost or counted twice |
| CompanyFacts.AtMostOneCompanyPerEligibleJob | index.js:112-124 | there are never more companies than eligible jobs |
| CompanyFacts.FoldSkipsIneligible | index.js:110 | the fold over all jobs equals the fold over the eligible jobs alone |
| CompanyFacts.IneligibleJobsIgnored | index.js:110 | jobs with a falsy company or logo change nothing in the result, random draws included |
| Enrichment.FindJob | index.js:325 | a malformed id throws; otherwise the lookup finds the job with that id exactly when one exists |
| Enrichment.Settle | index.js:325-338 | the map callback on one application keeps its stored fields; when its job exists it holds that job and its seven display fields, otherwise it is unchanged |
| Enrichment.EnrichedApplications | index.js:322-339 | the listing fails iff some application's job id is malformed. Otherwise it keeps the order and the stored fields of every application. An application whose job exists holds that job and its seven display fields; any other is unchanged |
| Enrichment.EnrichInPlace | index.js:324-339 | the in-place loop leaves each application as the listing's callback settles it; when no id is malformed, the array equals the listing's response |
| Enrichment.EnrichmentIdempotent | index.js:327-336 | enriching the response a second time changes nothing |
| Submission.UploadedName | index.js:364-365 | a file field is the upload's original name when it is present and not empty, and `null` otherwise |
| Submission.NewApplication | index.js:357-366 | the inserted application stores the generated id, the six form fields as sent and the two uploaded file names; no job and none of the seven display fields are set |
| Submission.NextApplicationCount | index.js:376-380 | a falsy count becomes 1 and any number n becomes n + 1; `true` becomes 2; a truthy string count gets "1" appended, as JavaScript `+` does |
| Submission.SubmissionsAddUp | index.js:376-389 | from a falsy or numeric count, k submissions leave the count at its start plus k |
| Submission.SubmitApplication | index.js:355-394 | the application is stored in every case. The reply is a success iff the job id is well formed and its job exists. A success returns the inserted id and the job as it was read, and raises only that job's count. A failure leaves the jobs unchanged and says whether the id threw or the job was missing |
| Paging.BatchSize | index.js:279 | the batch size the database applies to `limit(n)` is the absolute value of `n`, and zero only for `n = 0` (no limit) |
| Paging.Window | index.js:278-279 | `skip(s).limit(l)`: past the end the window is empty; otherwise it has `min(l, n - s)` jobs (all the rest for `l = 0`), taken in order from position `s` |
| Paging.AllJobs | index.js:273-285 | the route fails iff `(page - 1) * limit` is negative |
| Paging.PageIsSlice | index.js:275-279 | for `page >= 1` and `limit > 0` the route returns the slice from `(page - 1) * limit` to `page * limit`, clipped to the number of jobs |
| Paging.NegativeLimitPage | index.js:275-279 | a negative limit `l` on a page `p <= 1` returns the slice from `(p - 1) * l`, of at most `-l` jobs, clipped to the number of jobs |
| Paging.DefaultsGiveNewestTwenty | index.js:275 | without parameters the route returns the twenty newest jobs |
| Paging.SecondPageOfFive | index.js:275-279 | `page=2&limit=5` over at least ten jobs returns the sixth to the tenth |
| Paging.EveryJobOnItsPage | index.js:275-279 | with `limit > 0`, the job at position `i` is entry `i % limit` of page `i / limit + 1` |
| Paging.ZeroLimitReturnsEverything | index.js:278-279 | `limit=0` means no limit and no skip: every job, whatever the page |
| Paging.EarlierPagesAreNewer | index.js:276-279 | over jobs sorted newest first, every job on a page is at least as new as every job on the next page |
| Cors.CheckOrigin | index.js:14-25 | an origin is allowed iff it is absent, empty, or one of the two listed origins. A rejection carries "Not allowed by CORS" |
| Cors.ExtendedOriginsRejected | index.js:15-20 | matching is exact: a listed origin with anything appended is rejected |
| JsValues.PlusOne | index.js:377 | `v + 1` on a truthy value: a number adds one, `true` gives 2, and a string gets "1" appended |

## Left out

- Express routing, the status codes and the JSON bodies are not modelled; a
  failure is a `Failure` or `Failed` value. The 500 answers become errors,
  and the delete route's 404 when nothing was deleted (index.js:410) is not
  part of this model.
- The database is not modelled. A collection is a sequence or a map. The
  newest-first sort of `GET /jobs/all` is taken as given. The database's
  refusal of a negative skip, and its reading of limit 0 as no limit and a
  negative limit as its absolute value, are assumptions about MongoDB.
- The applications listing's e-mail filter (index.js:317-318) is not
  modelled: the listing takes the applications the query returned.
- Paging.AllJobs: `page` and `limit` are integers or absent. Non-numeric or
  fractional query strings (NaN, coerced strings) are not modelled.
- Values are `undefined`, `null`, booleans, integers and strings. Floats,
  NaN, objects and arrays in document fields are not modelled. JavaScript
  numbers are doubles, so `job.applicationCount + 1` (index.js:377) and
  `(page - 1) * limit` (index.js:278) are exact only below 2^53; the model's
  integers are unbounded, and Submission.SubmissionsAddUp holds in the
  source only while the count stays below 2^53.
- Aggregation.RatingTenths: the rating is exact rational arithmetic on the
  draw. Binary floating-point rounding in `u * 1.5 + 3.5` and in `toFixed`
  is not modelled.
- The ObjectId constructor is a fixed function of its argument here. The
  driver's `new ObjectId(x)` generates a fresh id when `x` is `undefined`,
  `null` or a number, so two calls on such a value differ. A realistic
  `toObjectId` sends those values to ids absent from the store; no proved
  property depends on the choice.
- Aggregation.AggregateCompanies: the source bumps `jobCount` on the
  summary object the map holds. The model stores the updated summary back
  under the same key, so aliasing of that object is not captured.
- `Promise.all` concurrency in the listing is not modelled. The lookups are
  independent reads, so the model settles them one by one in order.
- Submission.SubmitApplication: the read of the job and the later update are
  one atomic step. The race between two concurrent submissions (a lost
  update) is not modelled.
- Regex search and company-name matching (index.js:178, index.js:212) are
  not modelled: they are database queries.
- JWT issuing and cookies (index.js:195-205), and the cookie-presence check
  of `GET /check-auth` (index.js:254-257), are left out as authentication
  plumbing.
- File upload storage (index.js:37-39, index.js:351-354) is left out. The
  upload enters the model only as the original file names.
- The subscribe route (index.js:249) uses a collection that is never
  defined, so it always fails; it is left out.
- The remaining routes (categories, locations, featured jobs, a single job,
  posting a job, a user's jobs, jobs by category, deleting an application)
  are single queries with no logic of their own, and are left out. Logging,
  startup and shutdown are left out too.
