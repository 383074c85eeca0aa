/** The retry loops around the network, and the paging loop of a query, over arbitrary answers of the other side. */
module Retry {

  function Pow2(n: nat): (p: nat)
    ensures p >= 1
  {
    if n == 0 then 1 else 2 * Pow2(n - 1)
  }

  // ---- one request to the CRM, with retries ----

  const SF_MAX_RETRIES := 2
  const SF_RETRY_BASE_MS := 500

  datatype Body<T> = NotJson | Json(value: T)

  datatype Attempt<T> = Answered(status: nat, body: Body<T>) | TimedOut | NetworkFailed

  datatype FetchResult<T> = Response(status: nat, body: Body<T>) | Timeout | NetworkError

  predicate IsRetryable(status: nat) {
    status == 429 || status == 503
  }

  /** An answer after which another attempt would be made, were one left. */
  predicate Transient<T>(a: Attempt<T>) {
    a.NetworkFailed? || (a.Answered? && IsRetryable(a.status))
  }

  /** What a caller gets when no further attempt follows answer `a`. */
  function Reported<T>(a: Attempt<T>): FetchResult<T> {
    match a
    case Answered(status, body) => Response(status, body)
    case TimedOut => Timeout
    case NetworkFailed => NetworkError
  }

  /** The attempt that decides: the first whose answer is not transient, or else the last one allowed. */
  function Deciding<T>(answers: nat -> Attempt<T>): (k: nat)
    ensures k <= SF_MAX_RETRIES
    ensures forall i: nat :: i < k ==> Transient(answers(i))
    ensures k < SF_MAX_RETRIES ==> !Transient(answers(k))
  {
    if !Transient(answers(0)) then 0 else if !Transient(answers(1)) then 1 else 2
  }

  function Fetched<T>(answers: nat -> Attempt<T>): FetchResult<T> {
    Reported(answers(Deciding(answers)))
  }

  /** No connection, too many requests, or an unavailable service. */
  predicate IsLost<T>(a: Attempt<T>) {
    a.NetworkFailed? || (a.Answered? && (a.status == 429 || a.status == 503))
  }

  lemma LostIffTransient<T>(answers: nat -> Attempt<T>)
    ensures forall i: nat :: IsLost(answers(i)) <==> Transient(answers(i))
  {
  }

  /**
   * The number of requests is one more than the deciding attempt, the waits before them are 500 ms and 1000 ms, and
   * the loop never runs out: its last round always returns or throws.
   */
  method SfFetch<T>(answers: nat -> Attempt<T>) returns (result: FetchResult<T>, requests: nat, backoff: nat)
    ensures requests == Deciding(answers) + 1 <= 3
    ensures result == Fetched(answers)
    ensures backoff == 500 * (Pow2(requests - 1) - 1) <= 1500
    ensures forall i :: 0 <= i < requests - 1 ==> IsLost(answers(i))
    ensures requests < 3 ==> !IsLost(answers(requests - 1))
    ensures match answers(requests - 1)
            case Answered(status, body) => result == Response(status, body)
            case TimedOut => result == Timeout
            case NetworkFailed => result == NetworkError
  {
    LostIffTransient(answers);
    backoff := 0;
    var attempt := 0;
    while attempt <= SF_MAX_RETRIES
      invariant attempt <= Deciding(answers)
      invariant attempt == 0 ==> backoff == 0
      invariant attempt > 0 ==> backoff == SF_RETRY_BASE_MS * (Pow2(attempt - 1) - 1)
    {
      if attempt > 0 {
        backoff := backoff + SF_RETRY_BASE_MS * Pow2(attempt - 1);
      }
      match answers(attempt) {
        case Answered(status, body) =>
          if !(IsRetryable(status) && attempt < SF_MAX_RETRIES) {
            return Response(status, body), attempt + 1, backoff;
          }
        case TimedOut =>
          return Timeout, attempt + 1, backoff;
        case NetworkFailed =>
          if attempt >= SF_MAX_RETRIES {
            return NetworkError, attempt + 1, backoff;
          }
      }
      attempt := attempt + 1;
    }
    assert false;
  }

  // ---- a query over its pages ----

  const MAX_QUERY_RECORDS := 10_000

  datatype Page<T> = Page(records: seq<T>, done: bool, hasNext: bool)

  /** The answers to every attempt at every page request of a query, the pages numbered from 0. */
  type Service<!T> = nat -> (nat -> Attempt<Page<T>>)

  datatype QueryResult<T> = Records(all: seq<T>) | QueryFailed(status: nat) | Threw

  predicate Ok(status: nat) {
    200 <= status < 300
  }

  predicate IsPage<T>(r: FetchResult<Page<T>>) {
    r.Response? && Ok(r.status) && r.body.Json?
  }

  function PageAt<T>(service: Service<T>, p: nat): Page<T>
    requires IsPage(Fetched(service(p)))
  {
    Fetched(service(p)).body.value
  }

  /** The records of the first `k` pages, in order. */
  function Gathered<T>(service: Service<T>, k: nat): seq<T> {
    if k == 0 then [] else
    if IsPage(Fetched(service(k - 1))) then Gathered(service, k - 1) + PageAt(service, k - 1).records
    else Gathered(service, k - 1)
  }

  predicate IsFinal<T>(page: Page<T>) {
    page.done || !page.hasNext
  }

  /** After `k` pages the loop asks for another. */
  predicate WantsMore<T>(service: Service<T>, k: nat)
    requires k > 0
  {
    && IsPage(Fetched(service(k - 1)))
    && !IsFinal(PageAt(service, k - 1))
    && |Gathered(service, k)| < MAX_QUERY_RECORDS
  }

  /** Page `k` is requested: the first always, a later one when the page before it was requested, arrived and left more to fetch. */
  predicate Requested<T>(service: Service<T>, k: nat) {
    k == 0 || (Requested(service, k - 1) && WantsMore(service, k))
  }

  /** The loop ends: some page is never requested. */
  ghost predicate Stops<T>(service: Service<T>) {
    exists k: nat :: !Requested(service, k)
  }

  /** The first `k` pages arrive, and each of them but the last makes the loop go on. */
  ghost predicate Reads<T>(service: Service<T>, k: nat) {
    && (forall j: nat :: j < k ==> IsPage(Fetched(service(j))))
    && (forall j: nat :: 0 < j < k ==> WantsMore(service, j))
  }

  /** One more page that was asked for and arrived. */
  lemma PageRead<T>(service: Service<T>, k: nat, page: Page<T>)
    requires Reads(service, k) && (k > 0 ==> WantsMore(service, k))
    requires IsPage(Fetched(service(k))) && page == PageAt(service, k)
    ensures Reads(service, k + 1)
    ensures Gathered(service, k + 1) == Gathered(service, k) + page.records
  {
  }

  /** For every service on which the loop ends. `k` counts the pages taken in. A later page that is refused ends the loop silently; one that throws loses everything. */
  method Query<T>(service: Service<T>) returns (result: QueryResult<T>, k: nat, requests: nat)
    requires Stops(service)
    ensures Reads(service, k)
    ensures k <= requests <= 3 * (k + 1)
    ensures result.Records? ==> k > 0 && result.all == Gathered(service, k)
    ensures result.Records? && WantsMore(service, k) ==> Fetched(service(k)).Response? && !Ok(Fetched(service(k)).status)
    ensures result.Records? && k > 1 ==> |result.all| < MAX_QUERY_RECORDS + |PageAt(service, k - 1).records|
    ensures result.QueryFailed? ==> k == 0 && Fetched(service(0)).Response? && Fetched(service(0)).body.Json? &&
                                    Fetched(service(0)).status == result.status && !Ok(result.status)
    ensures result.Threw? ==> !Fetched(service(k)).Response? || Fetched(service(k)).body.NotJson?
    ensures result.Threw? && k > 0 ==> WantsMore(service, k)
  {
    ghost var stop: nat :| !Requested(service, stop);
    k := 0;
    var response, n, backoff := SfFetch(service(0));
    requests := n;
    if !response.Response? || response.body.NotJson? {
      return Threw, k, requests;
    }
    if !Ok(response.status) {
      return QueryFailed(response.status), k, requests;
    }
    var page := response.body.value;
    var all := page.records;
    PageRead(service, 0, page);
    k := 1;
    while !page.done && page.hasNext && |all| < MAX_QUERY_RECORDS
      invariant k > 0 && Reads(service, k) && page == PageAt(service, k - 1)
      invariant all == Gathered(service, k)
      invariant k > 1 ==> |all| < MAX_QUERY_RECORDS + |page.records|
      invariant k <= requests <= 3 * k
      invariant Requested(service, k - 1)
      decreases stop - k
    {
      StopsBy(service, k, stop);
      response, n, backoff := SfFetch(service(k));
      requests := requests + n;
      if !response.Response? {
        return Threw, k, requests;
      }
      if !Ok(response.status) {
        break;
      }
      if response.body.NotJson? {
        return Threw, k, requests;
      }
      page := response.body.value;
      all := all + page.records;
      PageRead(service, k, page);
      k := k + 1;
    }
    result := Records(all);
  }

  // ---- when the loop ends ----

  lemma {:induction false} RequestedBefore<T>(service: Service<T>, j: nat, k: nat)
    requires j <= k && Requested(service, k)
    ensures Requested(service, j) && (0 < j ==> WantsMore(service, j))
  {
    if j < k {
      RequestedBefore(service, j, k - 1);
    }
  }

  lemma StopsBy<T>(service: Service<T>, k: nat, stop: nat)
    requires Requested(service, k) && !Requested(service, stop)
    ensures k < stop
  {
    if stop <= k {
      RequestedBefore(service, stop, k);
    }
  }

  /** A page that arrives, is not the last, and leaves the records gathered below the cap. */
  predicate GoesOn<T>(service: Service<T>, p: nat) {
    IsPage(Fetched(service(p))) && !PageAt(service, p).done && PageAt(service, p).hasNext && |Gathered(service, p + 1)| < 10_000
  }

  lemma {:induction false} RequestedIff<T>(service: Service<T>, k: nat)
    ensures Requested(service, k) <==> forall p: nat :: p < k ==> GoesOn(service, p)
  {
    if k > 0 {
      RequestedIff(service, k - 1);
      assert WantsMore(service, k) <==> GoesOn(service, k - 1);
    }
  }

  /** The loop never ends if and only if every page arrives, none is the last, and the records never reach the cap. */
  lemma NeverStopsIff<T>(service: Service<T>)
    ensures !Stops(service) <==> forall p: nat :: GoesOn(service, p)
  {
    if forall p: nat :: GoesOn(service, p) {
      forall k: nat
        ensures Requested(service, k)
      {
        RequestedIff(service, k);
      }
    } else {
      var p: nat :| !GoesOn(service, p);
      RequestedIff(service, p + 1);
      assert !Requested(service, p + 1);
    }
  }

  /** When no page that announces another is empty, at most 10 000 pages are requested. */
  lemma NonEmptyPagesStop<T>(service: Service<T>)
    requires forall p: nat :: IsPage(Fetched(service(p))) && PageAt(service, p).records == [] ==> IsFinal(PageAt(service, p))
    ensures !Requested(service, MAX_QUERY_RECORDS) && Stops(service)
  {
    if Requested(service, MAX_QUERY_RECORDS) {
      RequestedGrows(service, MAX_QUERY_RECORDS);
    }
  }

  lemma {:induction false} RequestedGrows<T>(service: Service<T>, k: nat)
    requires forall p: nat :: IsPage(Fetched(service(p))) && PageAt(service, p).records == [] ==> IsFinal(PageAt(service, p))
    requires Requested(service, k)
    ensures |Gathered(service, k)| >= k
  {
    if k > 0 {
      RequestedGrows(service, k - 1);
    }
  }

  /** A page without records that announces another. */
  function EmptyPage<T>(): Page<T> {
    Page([], false, true)
  }

  /** Such a service exists: it answers every request with such a page. */
  lemma EmptyPagesNeverStop<T>()
    ensures var service: Service<T> := (p: nat) => (attempt: nat) => Answered(200, Json(EmptyPage<T>()));
            !Stops(service)
  {
    var service: Service<T> := (p: nat) => (attempt: nat) => Answered(200, Json(EmptyPage<T>()));
    forall p: nat
      ensures IsPage(Fetched(service(p))) && PageAt(service, p) == EmptyPage<T>()
    {
      assert !Transient(service(p)(0));
    }
    forall p: nat
      ensures GoesOn(service, p)
    {
      EmptyGathered(service, p + 1);
    }
    NeverStopsIff(service);
  }

  lemma {:induction false} EmptyGathered<T>(service: Service<T>, k: nat)
    requires forall p: nat :: IsPage(Fetched(service(p))) && PageAt(service, p).records == []
    ensures Gathered(service, k) == []
  {
    if k > 0 {
      EmptyGathered(service, k - 1);
    }
  }

  // ---- completeness ----

  lemma {:induction false} GatheredGrows<T>(service: Service<T>, j: nat, k: nat)
    requires j <= k
    requires forall p: nat :: p < k ==> IsPage(Fetched(service(p))) && PageAt(service, p).records != []
    ensures |Gathered(service, j)| <= |Gathered(service, k)|
    ensures j < k ==> |Gathered(service, j)| < |Gathered(service, k)|
  {
    if j < k {
      GatheredGrows(service, j, k - 1);
    }
  }

  /**
   * For a result of `n` non-empty pages that all arrive, a run that stopped after `k` of them returned everything if
   * and only if the pages before the last stay below the cap.
   */
  lemma CompleteIff<T>(service: Service<T>, n: nat, k: nat)
    requires n > 0 && forall p: nat :: p < n ==> IsPage(Fetched(service(p))) && PageAt(service, p).records != []
    requires forall p: nat :: p < n ==> (IsFinal(PageAt(service, p)) <==> p == n - 1)
    requires k > 0 && Reads(service, k)
    requires WantsMore(service, k) ==> !IsPage(Fetched(service(k)))
    ensures Gathered(service, k) == Gathered(service, n) <==> n == 1 || |Gathered(service, n - 1)| < MAX_QUERY_RECORDS
  {
    assert !WantsMore(service, n);
    assert k >= n > 1 ==> WantsMore(service, n - 1);
    if k < n {
      GatheredGrows(service, k, n - 1);
      GatheredGrows(service, k, n);
      if |Gathered(service, n - 1)| < MAX_QUERY_RECORDS {
        assert WantsMore(service, k);
      }
    }
  }
}
