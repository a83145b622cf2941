/** `GET /jobs/all?page=&limit=`: the jobs newest first, `skip((page - 1) *
    limit)` then `limit(limit)`. The sort itself is the database's; this
    module takes the sorted sequence as given. */
module Paging {
  import opened JsValues
  import opened Records

  const DefaultPage := 1
  const DefaultLimit := 20

  /** The numeric query parameters; `None` when the parameter is absent. */
  datatype Query = Query(page: Option<int>, limit: Option<int>)

  function PageOf(q: Query): int {
    if q.page.Some? then q.page.value else DefaultPage
  }

  function LimitOf(q: Query): int {
    if q.limit.Some? then q.limit.value else DefaultLimit
  }

  /** The number of jobs skipped: `(page - 1) * limit`. */
  function Skip(q: Query): int {
    (PageOf(q) - 1) * LimitOf(q)
  }

  function Min(a: int, b: int): int {
    if a <= b then a else b
  }

  /** The batch size the database applies: a limit of 0 means no limit, and
      a negative limit `-n` returns at most `n` documents. */
  function BatchSize(limit: int): (size: nat)
    ensures size == 0 <==> limit == 0
    ensures size == limit || size == -limit
  {
    if limit < 0 then -limit else limit
  }

  /** `cursor.skip(skip).limit(limit)` on `s`, with `limit == 0` for no limit. */
  function Window<T>(s: seq<T>, skip: nat, limit: nat): (w: seq<T>)
    ensures skip >= |s| ==> w == []
    ensures skip < |s| ==> |w| == if limit == 0 then |s| - skip else Min(limit, |s| - skip)
    ensures forall k :: 0 <= k < |w| ==> skip + k < |s| && w[k] == s[skip + k]
  {
    var rest := if skip <= |s| then s[skip..] else [];
    if limit == 0 || limit >= |rest| then rest else rest[..limit]
  }

  /** The route: a negative skip is refused by the database, which the
      handler answers with 500. */
  function AllJobs(newestFirst: seq<Job>, q: Query): (r: Result<seq<Job>, Error>)
    ensures r.Failure? <==> Skip(q) < 0
    ensures r.Failure? ==> r.error == NegativeSkip
  {
    if Skip(q) < 0 then Failure(NegativeSkip)
    else Success(Window(newestFirst, Skip(q), BatchSize(LimitOf(q))))
  }

  lemma ProductNonNegative(a: int, b: int)
    requires a >= 0 && b >= 0
    ensures a * b >= 0
  {
  }

  /** For page `p >= 1` and limit `l > 0` the route returns the jobs at
      positions `(p - 1) * l` up to `(p - 1) * l + l` of the newest-first
      order, clipped to the number of jobs. */
  lemma PageIsSlice(newestFirst: seq<Job>, p: int, l: int)
    requires p >= 1 && l > 0
    ensures var from := Min((p - 1) * l, |newestFirst|);
      var to := Min((p - 1) * l + l, |newestFirst|);
      AllJobs(newestFirst, Query(Some(p), Some(l))) == Success(newestFirst[from..to])
  {
    ProductNonNegative(p - 1, l);
    WindowIsSlice(newestFirst, (p - 1) * l, l);
  }

  lemma WindowIsSlice(s: seq<Job>, skip: nat, l: nat)
    requires l > 0
    ensures Window(s, skip, l) == s[Min(skip, |s|)..Min(skip + l, |s|)]
  {
    var w := Window(s, skip, l);
    var from, to := Min(skip, |s|), Min(skip + l, |s|);
    assert |w| == to - from;
    assert forall k :: 0 <= k < |w| ==> w[k] == s[from..to][k];
  }

  /** A negative limit `l` on page `p <= 1` skips `(p - 1) * l` jobs, which
      is not negative, and returns at most `-l` jobs after them. */
  lemma NegativeLimitPage(newestFirst: seq<Job>, p: int, l: int)
    requires p <= 1 && l < 0
    ensures var from := Min((p - 1) * l, |newestFirst|);
      var to := Min((p - 1) * l - l, |newestFirst|);
      AllJobs(newestFirst, Query(Some(p), Some(l))) == Success(newestFirst[from..to])
  {
    ProductNonNegative(1 - p, -l);
    var skip: nat := (p - 1) * l;
    WindowIsSlice(newestFirst, skip, -l);
  }

  /** Without parameters the route returns the 20 newest jobs. */
  lemma DefaultsGiveNewestTwenty(newestFirst: seq<Job>)
    ensures AllJobs(newestFirst, Query(None, None)) == Success(newestFirst[..Min(20, |newestFirst|)])
  {
    PageIsSlice(newestFirst, 1, 20);
  }

  /** `page=2&limit=5` over at least ten jobs gives the sixth to the tenth. */
  lemma SecondPageOfFive(newestFirst: seq<Job>)
    requires |newestFirst| >= 10
    ensures AllJobs(newestFirst, Query(Some(2), Some(5))) == Success(newestFirst[5..10])
  {
    PageIsSlice(newestFirst, 2, 5);
  }

  /** With limit `l > 0` every job is on exactly one page: position `i` is
      entry `i % l` of page `i / l + 1`. */
  lemma EveryJobOnItsPage(newestFirst: seq<Job>, l: int, i: int)
    requires l > 0 && 0 <= i < |newestFirst|
    ensures var r := AllJobs(newestFirst, Query(Some(i / l + 1), Some(l)));
      r.Success? && i % l < |r.value| && r.value[i % l] == newestFirst[i]
  {
    var p := i / l + 1;
    assert (p - 1) * l + i % l == i;
    PageIsSlice(newestFirst, p, l);
  }

  /** A limit of 0 is no limit, and it also makes the skip 0: the route
      then returns every job whatever the page. */
  lemma ZeroLimitReturnsEverything(newestFirst: seq<Job>, p: int)
    ensures AllJobs(newestFirst, Query(Some(p), Some(0))) == Success(newestFirst)
  {
  }

  /** Newest first: no job is older than a job after it. */
  ghost predicate NewestFirst(s: seq<Job>) {
    forall i, j :: 0 <= i < j < |s| ==> s[i].createdAt >= s[j].createdAt
  }

  lemma SlicesInOrder(s: seq<Job>, from: nat, mid: nat, to: nat)
    requires NewestFirst(s) && from <= mid <= to <= |s|
    ensures forall x, y :: x in s[from..mid] && y in s[mid..to] ==> x.createdAt >= y.createdAt
  {
    forall x, y | x in s[from..mid] && y in s[mid..to] ensures x.createdAt >= y.createdAt {
      var i :| from <= i < mid && s[i] == x;
      var j :| mid <= j < to && s[j] == y;
    }
  }

  /** Paging a newest-first sequence: every job on page `p` is at least as
      new as every job on page `p + 1`. */
  lemma EarlierPagesAreNewer(newestFirst: seq<Job>, p: int, l: int)
    requires NewestFirst(newestFirst) && p >= 1 && l > 0
    ensures var a := AllJobs(newestFirst, Query(Some(p), Some(l)));
      var b := AllJobs(newestFirst, Query(Some(p + 1), Some(l)));
      a.Success? && b.Success? &&
      forall x, y :: x in a.value && y in b.value ==> x.createdAt >= y.createdAt
  {
    var n := |newestFirst|;
    var skip := (p - 1) * l;
    NextPageSkip(p, l);
    var from, mid, to := Min(skip, n), Min(skip + l, n), Min(skip + l + l, n);
    PageAt(newestFirst, p, l, skip);
    PageAt(newestFirst, p + 1, l, skip + l);
    SlicesInOrder(newestFirst, from, mid, to);
  }

  lemma PageAt(newestFirst: seq<Job>, p: int, l: int, skip: nat)
    requires l > 0 && skip == (p - 1) * l
    ensures AllJobs(newestFirst, Query(Some(p), Some(l)))
      == Success(newestFirst[Min(skip, |newestFirst|)..Min(skip + l, |newestFirst|)])
  {
    WindowIsSlice(newestFirst, skip, l);
  }

  lemma NextPageSkip(p: int, l: int)
    requires p >= 1 && l > 0
    ensures (p + 1 - 1) * l == (p - 1) * l + l
    ensures (p - 1) * l >= 0
  {
  }
}
