/**
 * The Graph API client of src/utils/api-client.ts: the `ApiError` class, one
 * attempt of `fetchWithRetry` (fetch, parse, check status, check the vendor
 * envelope), its endpoint-specific retry predicate, and the request options
 * built by `apiClient.get` / `apiClient.post`.
 *
 * The network is an input: `responses(k)` is what the k-th fetch yields.
 */
module ApiClient {
  import opened Common
  import opened JsErrors
  import Retry

  // ---------------------------------------------------------------------------
  // ApiError
  // ---------------------------------------------------------------------------

  /**
   * `new ApiError(error)`: the message of the vendor error (empty when it has
   * none, as `new Error(undefined)` gives), name `ApiError`, and the code,
   * `error_subcode` and `fbtrace_id` copied as code, subcode and traceId.
   */
  function NewApiError(fe: VendorFields): (e: ErrorValue)
    ensures e.name == "ApiError" && e.message == fe.message.GetOr("")
    ensures e.api.Some? && e.api.value.code == fe.code
    ensures e.api.value.subcode == fe.subcode && e.api.value.traceId == fe.traceId
    ensures e.nested.None? && e.responseStatus.None?
  {
    ErrorValue("ApiError", fe.message.GetOr(""), Some(ApiFields(fe.code, fe.subcode, fe.traceId)), None, None)
  }

  // ---------------------------------------------------------------------------
  // One attempt
  // ---------------------------------------------------------------------------

  /** The body of a response, as `response.json()` sees it. */
  datatype Body<T> =
    | NotJson(parseError: string)                           // `response.json()` rejects
    | JsonNull                                              // the body is the JSON literal `null`
    | JsonValue(error: Option<VendorFields>, data: Option<T>)  // any other JSON value

  datatype Response<T> = Response(status: int, body: Body<T>)

  /** What one `fetch` call does: reject (network failure) or deliver a response. */
  datatype FetchResult<T> = NetworkFailure(thrown: Thrown) | Received(response: Response<T>)

  predicate Ok(status: int) {
    200 <= status <= 299
  }

  function HttpErrorMessage(status: int): string {
    "HTTP error! status: " + IntToString(status)
  }

  /**
   * The operation handed to the retry executor: parse the body first, then
   * reject a non-OK status, then a vendor `error`, and otherwise yield
   * `data.data` (absent when the envelope has none).
   */
  function AttemptOnce<T>(fetched: FetchResult<T>): (a: Retry.Attempt<Option<T>>)
    ensures fetched.NetworkFailure? ==> a == Retry.Failure(fetched.thrown)
    ensures fetched.Received? && fetched.response.body.NotJson? ==>
      a == Retry.Failure(ThrownError(ErrorValue("SyntaxError", fetched.response.body.parseError, None, None, None)))
    ensures fetched.Received? && !fetched.response.body.NotJson? && !Ok(fetched.response.status) ==>
      a == Retry.Failure(ThrownError(PlainError(HttpErrorMessage(fetched.response.status))))
    ensures fetched.Received? && Ok(fetched.response.status) && fetched.response.body.JsonValue? ==>
      (a.Success? <==> fetched.response.body.error.None?)
    ensures a.Success? ==> fetched.Received? && fetched.response.body.JsonValue?
    ensures a.Success? ==> a.value == fetched.response.body.data
    ensures (fetched.Received? && Ok(fetched.response.status) && fetched.response.body.JsonValue?
      && fetched.response.body.error.Some?) ==>
      a == Retry.Failure(ThrownError(NewApiError(fetched.response.body.error.value)))
  {
    match fetched
    case NetworkFailure(t) => Retry.Failure(t)
    case Received(Response(status, body)) =>
      match body
      case NotJson(msg) => Retry.Failure(ThrownError(ErrorValue("SyntaxError", msg, None, None, None)))
      case JsonNull =>
        if !Ok(status) then Retry.Failure(ThrownError(PlainError(HttpErrorMessage(status))))
        else Retry.Failure(ThrownError(ErrorValue("TypeError", "Cannot read properties of null (reading 'error')", None, None, None)))
      case JsonValue(error, data) =>
        if !Ok(status) then Retry.Failure(ThrownError(PlainError(HttpErrorMessage(status))))
        else if error.Some? then Retry.Failure(ThrownError(NewApiError(error.value)))
        else Retry.Success(data)
  }

  /** Vendor codes for which an `ApiError` is retried: rate limits and temporary errors. */
  const RetryableApiCodes: set<int> := {4, 17, 2, 1}

  /**
   * The `shouldRetry` passed by `fetchWithRetry`: an `ApiError` is retried iff
   * its code (0 when missing) is retryable; any other error iff it has no
   * `response` or a 5xx one.
   */
  function ApiShouldRetry(e: ErrorValue): (retry: bool)
    ensures e.api.Some? ==> (retry <==> e.api.value.code.Some? && e.api.value.code.value in RetryableApiCodes)
    ensures e.api.None? ==> (retry <==> e.responseStatus.None? || e.responseStatus.value >= 500)
  {
    if e.api.Some? then e.api.value.code.GetOr(0) in RetryableApiCodes
    else e.responseStatus.None? || e.responseStatus.value >= 500
  }

  /** The options `fetchWithRetry` gives the executor: three retries and its own predicate. */
  const FetchRetryOptions: Retry.RetryOptions :=
    Retry.RetryOptions(Some(3), None, None, None, Some(ApiShouldRetry), false)

  function FetchJob<T>(responses: nat -> FetchResult<T>, random: nat -> real): Retry.Job<Option<T>> {
    Retry.JobOf(k => AttemptOnce(responses(k)), FetchRetryOptions, random)
  }

  /** `fetchWithRetry(url, options)`: the retry executor around `AttemptOnce`. */
  method FetchWithRetry<T>(responses: nat -> FetchResult<T>, random: nat -> real)
    returns (outcome: Retry.Outcome<Option<T>>, rounds: seq<Retry.Round<Option<T>>>)
    ensures Retry.Execution(outcome, rounds) == Retry.Run(FetchJob(responses, random), 0, None)
    ensures 1 <= |rounds| <= 4
  {
    outcome, rounds := Retry.RetryWithBackoff(k => AttemptOnce(responses(k)), FetchRetryOptions, random);
    Retry.AttemptBound(FetchJob(responses, random));
    Retry.RunLength(FetchJob(responses, random), 0, None);
  }

  // ---------------------------------------------------------------------------
  // What the retry policy does with the failures an attempt produces
  // ---------------------------------------------------------------------------

  /**
   * Every failure an attempt itself raises on a received response (parse
   * error, HTTP error, null body) is retried; an `ApiError` is retried iff its
   * code is 1, 2, 4 or 17.
   */
  lemma AttemptFailuresRetryPolicy<T>(r: Response<T>)
    requires AttemptOnce(Received(r)).Failure?
    ensures var e := Retry.ErrorOf(AttemptOnce(Received(r)));
      e.api.None? ==> ApiShouldRetry(e)
    ensures var e := Retry.ErrorOf(AttemptOnce(Received(r)));
      e.api.Some? ==> (ApiShouldRetry(e) <==> r.body.error.value.code.Some? && r.body.error.value.code.value in {1, 2, 4, 17})
  {
  }

  /**
   * A Graph error delivered with a non-OK status (as the Graph API does, with
   * status 400) is never seen as an `ApiError`: each attempt fails with the
   * plain HTTP error, which is retried, so a persistent one costs four fetches
   * and the vendor code is lost.
   */
  lemma VendorErrorOnHttpFailureExhaustsRetries<T>(responses: nat -> FetchResult<T>, random: nat -> real, fe: VendorFields)
    requires forall k: nat :: responses(k) == Received(Response(400, JsonValue(Some(fe), None)))
    ensures |Retry.Run(FetchJob(responses, random), 0, None).rounds| == 4
    ensures Retry.Run(FetchJob(responses, random), 0, None).outcome ==
      Retry.Rejected(PlainError(HttpErrorMessage(400)))
  {
    var job := FetchJob(responses, random);
    assert job.config.maxRetries == 3;
    forall i: nat | i <= job.config.maxRetries
      ensures job.op(i).Failure? && job.shouldRetry(Retry.ErrorOf(job.op(i)))
    {
      assert job.op(i) == AttemptOnce(responses(i));
    }
    Retry.AllFailuresExhaustAttempts(job);
  }

  /** An OK response carrying vendor code 190 fails at once with that `ApiError`: no retry. */
  lemma InvalidTokenIsNotRetried<T>(responses: nat -> FetchResult<T>, random: nat -> real, fe: VendorFields)
    requires fe.code == Some(190)
    requires responses(0) == Received(Response(200, JsonValue(Some(fe), None)))
    ensures |Retry.Run(FetchJob(responses, random), 0, None).rounds| == 1
    ensures Retry.Run(FetchJob(responses, random), 0, None).outcome == Retry.Rejected(NewApiError(fe))
  {
    var job := FetchJob(responses, random);
    assert job.op(0) == AttemptOnce(responses(0));
    assert !job.shouldRetry(NewApiError(fe));
  }

  /** Two 5xx responses followed by an OK envelope resolve with its data on the third fetch. */
  lemma ServerErrorsThenSuccess<T>(responses: nat -> FetchResult<T>, random: nat -> real, d: T)
    requires responses(0) == Received(Response(500, JsonValue(None, None)))
    requires responses(1) == Received(Response(500, NotJson("Unexpected token")))
    requires responses(2) == Received(Response(200, JsonValue(None, Some(d))))
    ensures |Retry.Run(FetchJob(responses, random), 0, None).rounds| == 3
    ensures Retry.Run(FetchJob(responses, random), 0, None).outcome == Retry.Resolved(Some(d))
  {
    var job := FetchJob(responses, random);
    assert job.op(0) == AttemptOnce(responses(0));
    assert job.op(1) == AttemptOnce(responses(1));
    assert job.op(2) == AttemptOnce(responses(2));
    var e0 := Retry.ErrorOf(job.op(0));
    var e1 := Retry.ErrorOf(job.op(1));
    assert job.shouldRetry(e0) && job.shouldRetry(e1);
    var r2 := Retry.Run(job, 2, Some(e1));
    var r1 := Retry.Run(job, 1, Some(e0));
    assert |r2.rounds| == 1 && r2.outcome == Retry.Resolved(Some(d));
    assert r1.rounds == [r1.rounds[0]] + r2.rounds;
  }

  // ---------------------------------------------------------------------------
  // Request options
  // ---------------------------------------------------------------------------

  /** The parts of a `RequestInit` the client touches; `headers` absent is the empty map. */
  datatype RequestInit = RequestInit(httpMethod: Option<string>, headers: map<string, string>, body: Option<string>)

  const DefaultHeaders: map<string, string> :=
    map["Accept" := "application/json", "Content-Type" := "application/json"]

  /** `{...options, headers: {Accept, Content-Type, ...options.headers}}`: caller headers override the defaults. */
  function FinalRequest(options: RequestInit): (r: RequestInit)
    ensures r.httpMethod == options.httpMethod && r.body == options.body
    ensures r.headers.Keys == DefaultHeaders.Keys + options.headers.Keys
    ensures forall h :: h in options.headers ==> r.headers[h] == options.headers[h]
    ensures forall h :: h in DefaultHeaders && h !in options.headers ==> r.headers[h] == "application/json"
  {
    options.(headers := DefaultHeaders + options.headers)
  }

  /** `apiClient.get`: the caller's options with the method forced to `GET`. */
  function Get(options: RequestInit): (r: RequestInit)
    ensures r.httpMethod == Some("GET") && r.headers == options.headers && r.body == options.body
  {
    options.(httpMethod := Some("GET"))
  }

  /** `apiClient.post`: the method forced to `POST` and the body to the serialized payload. */
  function Post(options: RequestInit, serialized: string): (r: RequestInit)
    ensures r.httpMethod == Some("POST") && r.body == Some(serialized) && r.headers == options.headers
  {
    options.(httpMethod := Some("POST"), body := Some(serialized))
  }

  /** What `get` and `post` put on the wire: their method and body survive the header merge. */
  lemma SentRequests(options: RequestInit, serialized: string)
    ensures FinalRequest(Get(options)).httpMethod == Some("GET")
    ensures FinalRequest(Post(options, serialized)).httpMethod == Some("POST")
    ensures FinalRequest(Post(options, serialized)).body == Some(serialized)
    ensures "Accept" in FinalRequest(Get(options)).headers && "Content-Type" in FinalRequest(Post(options, serialized)).headers
  {
  }
}
