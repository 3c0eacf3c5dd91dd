/** The shared HTTP layer of clients/base.py: status classification, the
    logged request URL, the retry decorator around `_request`, and the
    open/closed lifecycle of the pooled client. The network is a parameter:
    `net(k)` is what the transport answers on attempt `k`. */
module Base {
  import opened Wrappers
  import opened Text

  /** What one `client.request(...)` call produces: a response (status code,
      body text and decoded JSON) or a transport exception. */
  datatype HttpOutcome<T> = Response(status: int, text: string, body: T) | Transport(error: Exception)

  /** The status checks of `_request`: 429 first, then any other code from
      400 up; below 400 the decoded body is returned. */
  function Classify<T>(status: int, text: string, body: T): (r: Result<T>)
    ensures r.Ok? <==> status < 400
    ensures r.Ok? ==> r.value == body
    ensures r.Err? ==> IsApiError(r.error) && r.error.statusCode == Some(status)
                       && r.error.response == Some(text)
    ensures r.Err? ==> (r.error.RateLimitError? <==> status == 429)
    ensures status == 429 ==> r.error.message == "Rate limit exceeded"
    ensures status >= 400 && status != 429 ==> r.error.message == "API error: " + IntToString(status)
  {
    if status == 429 then Err(RateLimitError("Rate limit exceeded", Some(429), Some(text)))
    else if status >= 400 then Err(ApiError("API error: " + IntToString(status), Some(status), Some(text)))
    else Ok(body)
  }

  /** The exception types named by the retry predicate. */
  predicate IsTransient(e: Exception) {
    e.TimeoutException? || e.NetworkError?
  }

  /** One execution of the body of `_request`: timeouts and network errors are
      re-raised as APIError without a status; other transport errors pass. */
  function RequestOnce<T>(outcome: HttpOutcome<T>): (r: Result<T>)
    ensures outcome.Response? ==> r == Classify(outcome.status, outcome.text, outcome.body)
    ensures outcome.Transport? && IsTransient(outcome.error) ==>
              r.Err? && r.error.ApiError? && r.error.statusCode.None? && r.error.response.None?
    ensures outcome.Transport? && !IsTransient(outcome.error) ==> r == Err(outcome.error)
    ensures r.Err? ==> !IsTransient(r.error)
  {
    match outcome
    case Response(status, text, body) => Classify(status, text, body)
    case Transport(e) =>
      if e.TimeoutException? then Err(ApiError("Request timeout: " + e.detail, None, None))
      else if e.NetworkError? then Err(ApiError("Network error: " + e.detail, None, None))
      else Err(e)
  }

  /** `stop_after_attempt(3)` */
  const MaxAttempts := 3

  /** An attempt that the retry predicate does not send round again. */
  predicate Settled<T>(r: Result<T>) {
    !(r.Err? && IsTransient(r.error))
  }

  /** tenacity's `retry(retry=retry_if_exception_type((TimeoutException,
      NetworkError)), stop=stop_after_attempt(3))` around `call`, from attempt
      `attempt` on: the result of the first settled attempt, or RetryError
      around the last failure when none of the three settles. */
  function Retry<T>(call: HttpOutcome<T> -> Result<T>, net: nat -> HttpOutcome<T>, attempt: nat): (r: Result<T>)
    requires attempt < MaxAttempts
    decreases MaxAttempts - attempt
    ensures (forall k :: attempt <= k < MaxAttempts ==> !Settled(call(net(k)))) ==>
              r == Err(RetryError(call(net(MaxAttempts - 1)).error))
    ensures (exists k :: attempt <= k < MaxAttempts && Settled(call(net(k)))) ==>
              exists k :: attempt <= k < MaxAttempts && Settled(call(net(k))) && r == call(net(k))
                          && forall j :: attempt <= j < k ==> !Settled(call(net(j)))
  {
    var first := call(net(attempt));
    if !Settled(first) then
      if attempt + 1 < MaxAttempts then Retry(call, net, attempt + 1)
      else Err(RetryError(first.error))
    else first
  }

  /** `_request` as written: the decorator around a body that never raises
      the exception types it retries. No raw timeout or network error
      escapes it. */
  function Request<T>(net: nat -> HttpOutcome<T>): (r: Result<T>)
    ensures r.Err? ==> !IsTransient(r.error)
  {
    Retry(RequestOnce, net, 0)
  }

  /** As written, the retry never fires: the outcome is that of the first
      attempt, whatever the transport does. */
  lemma RetryNeverFires<T>(net: nat -> HttpOutcome<T>)
    ensures Request(net) == RequestOnce(net(0))
  {
    var first := RequestOnce(net(0));
    assert first.Err? ==> !IsTransient(first.error);
  }

  /** `_request` as evidently intended: transient transport failures are
      retried up to three attempts, and only what escapes the last attempt is
      converted to APIError. */
  function RequestCorrected<T>(net: nat -> HttpOutcome<T>): (r: Result<T>)
    ensures r.Err? ==> !IsTransient(r.error)
  {
    CorrectedFrom(net, 0)
  }

  /** The corrected request from attempt `attempt` on: the outcome of the
      first attempt that is not a transient failure, or of the last one. */
  function CorrectedFrom<T>(net: nat -> HttpOutcome<T>, attempt: nat): (r: Result<T>)
    requires attempt < MaxAttempts
    decreases MaxAttempts - attempt
    ensures exists k :: attempt <= k < MaxAttempts && r == RequestOnce(net(k))
                        && (forall j :: attempt <= j < k ==> TransientAt(net, j))
                        && (k < MaxAttempts - 1 ==> !TransientAt(net, k))
    ensures r.Err? ==> !IsTransient(r.error)
  {
    if TransientAt(net, attempt) && attempt + 1 < MaxAttempts then CorrectedFrom(net, attempt + 1)
    else RequestOnce(net(attempt))
  }

  predicate TransientAt<T>(net: nat -> HttpOutcome<T>, k: nat) {
    net(k).Transport? && IsTransient(net(k).error)
  }

  /** When the first attempt settles, the corrected request and the one as
      written agree. */
  lemma CorrectedAgreesOnFirstSettled<T>(net: nat -> HttpOutcome<T>)
    requires !TransientAt(net, 0)
    ensures RequestCorrected(net) == Request(net) == RequestOnce(net(0))
  {
    RetryNeverFires(net);
  }

  /** A transient failure followed by a response yields that response's
      classification under the corrected request. */
  lemma CorrectedRetriesTransient<T>(net: nat -> HttpOutcome<T>)
    requires TransientAt(net, 0) && net(1).Response?
    ensures RequestCorrected(net) == Classify(net(1).status, net(1).text, net(1).body)
  {
  }

  /** After three transient failures the corrected request gives up with the
      APIError of the last one; nothing past the third attempt is tried. */
  lemma CorrectedGivesUpAfterThree<T>(net: nat -> HttpOutcome<T>)
    requires TransientAt(net, 0) && TransientAt(net, 1) && TransientAt(net, 2)
    ensures RequestCorrected(net) == RequestOnce(net(2))
  {
  }

  /** The input that shows the difference: a read timeout followed by a 200
      response fails as written and succeeds once corrected. */
  lemma TimeoutThenSuccess()
    ensures var net := (k: nat) => if k == 0 then Transport(TimeoutException("read timeout"))
                                   else Response(200, "{}", 7);
            Request(net) == Err(ApiError("Request timeout: read timeout", None, None))
            && RequestCorrected(net) == Ok(7)
  {
    var net := (k: nat) => if k == 0 then Transport(TimeoutException("read timeout"))
                           else Response(200, "{}", 7);
    RetryNeverFires(net);
  }

  /** `base_url.rstrip("/")` */
  function NormalizeBaseUrl(url: string): (r: string)
    ensures r == [] || r[|r| - 1] != '/'
    ensures StartsWith(url, r) && forall i :: |r| <= i < |url| ==> url[i] == '/'
  {
    RStrip(url, '/')
  }

  lemma NormalizeBaseUrlIdempotent(url: string)
    ensures NormalizeBaseUrl(NormalizeBaseUrl(url)) == NormalizeBaseUrl(url)
  {
  }

  /** The URL `_request` logs: an endpoint starting with "http" verbatim,
      anything else appended to the base URL after one "/", with the
      endpoint's leading slashes removed. */
  function RequestUrl(baseUrl: string, endpoint: string): (url: string)
    ensures StartsWith(endpoint, "http") ==> url == endpoint
    ensures !StartsWith(endpoint, "http") ==>
              |url| > |baseUrl| && url[..|baseUrl| + 1] == baseUrl + "/"
              && var rest := url[|baseUrl| + 1..];
                 (rest == [] || rest[0] != '/')
                 && |rest| <= |endpoint| && endpoint[|endpoint| - |rest|..] == rest
                 && forall i :: 0 <= i < |endpoint| - |rest| ==> endpoint[i] == '/'
  {
    if StartsWith(endpoint, "http") then endpoint
    else
      var rest := LStrip(endpoint, '/');
      assert (baseUrl + "/" + rest)[|baseUrl| + 1..] == rest;
      baseUrl + "/" + rest
  }

  /** Leading slashes on a relative endpoint make no difference. */
  lemma RequestUrlIgnoresLeadingSlash(baseUrl: string, endpoint: string)
    requires !StartsWith(endpoint, "http")
    ensures RequestUrl(baseUrl, "/" + endpoint) == RequestUrl(baseUrl, endpoint)
  {
    var e := "/" + endpoint;
    assert !StartsWith(e, "http") by {
      assert e[0] == '/';
    }
    assert LStrip(e, '/') == LStrip(endpoint, '/') by {
      assert e[1..] == endpoint;
    }
  }

  /** Joined to a normalised base URL, a relative endpoint yields exactly one
      slash at the seam. */
  lemma RequestUrlSingleSlash(url: string, endpoint: string)
    requires !StartsWith(endpoint, "http")
    ensures var b := NormalizeBaseUrl(url);
            var u := RequestUrl(b, endpoint);
            u[|b|] == '/' && (b == [] || u[|b| - 1] != '/') && (|u| == |b| + 1 || u[|b| + 1] != '/')
  {
    var b := NormalizeBaseUrl(url);
    var u := RequestUrl(b, endpoint);
    assert u[..|b| + 1][|b|] == '/';
    if b != [] {
      assert u[..|b| + 1][|b| - 1] == b[|b| - 1];
    }
    if |u| > |b| + 1 {
      assert u[|b| + 1] == u[|b| + 1..][0];
    }
  }

  /** The pooled `httpx.AsyncClient`: `serial` tells clients apart. */
  datatype HttpSession = HttpSession(serial: nat, isClosed: bool)

  /** `self._client is None or self._client.is_closed` */
  predicate NeedsClient(c: Option<HttpSession>) {
    c.None? || c.value.isClosed
  }

  /** The `_client` field and the count of clients built after
      `_ensure_client`: a new open client only when there is no usable one. */
  function EnsureState(c: Option<HttpSession>, created: nat): (r: (Option<HttpSession>, nat))
    ensures r.0.Some? && !r.0.value.isClosed
    ensures !NeedsClient(c) ==> r == (c, created)
    ensures NeedsClient(c) ==> r.1 == created + 1 && r.0.value.serial == created
  {
    if NeedsClient(c) then (Some(HttpSession(created, false)), created + 1) else (c, created)
  }

  /** The `_client` field after `close`: an open client is closed and
      dropped; a missing or already closed one is left as it is. */
  function CloseState(c: Option<HttpSession>): (r: Option<HttpSession>)
    ensures NeedsClient(r)
    ensures c.Some? && !c.value.isClosed ==> r.None?
    ensures NeedsClient(c) ==> r == c
  {
    if c.Some? && !c.value.isClosed then None else c
  }

  lemma CloseIdempotent(c: Option<HttpSession>)
    ensures CloseState(CloseState(c)) == CloseState(c)
  {
  }

  /** A second `_ensure_client` reuses the client the first one left. */
  lemma EnsureIdempotent(c: Option<HttpSession>, created: nat)
    ensures var (c1, n1) := EnsureState(c, created);
            EnsureState(c1, n1) == (c1, n1)
  {
  }

  /** After `close`, the next `_ensure_client` builds a fresh client. */
  lemma CloseThenEnsureBuildsNew(c: Option<HttpSession>, created: nat)
    ensures EnsureState(CloseState(c), created) == (Some(HttpSession(created, false)), created + 1)
  {
  }

  class BaseClient {
    var baseUrl: string
    var timeout: real
    var maxRetries: int
    var client: Option<HttpSession>
    /** How many `httpx.AsyncClient` objects this client has built. */
    var created: nat

    constructor(url: string, timeout: real, maxRetries: int)
      ensures baseUrl == NormalizeBaseUrl(url)
      ensures this.timeout == timeout && this.maxRetries == maxRetries
      ensures client == None && created == 0
    {
      baseUrl := NormalizeBaseUrl(url);
      this.timeout := timeout;
      this.maxRetries := maxRetries;
      client := None;
      created := 0;
    }

    /** `_ensure_client` (also `__aenter__`) */
    method EnsureClient() returns (session: HttpSession)
      modifies this
      ensures (client, created) == EnsureState(old(client), old(created))
      ensures client == Some(session) && !session.isClosed
      ensures baseUrl == old(baseUrl) && timeout == old(timeout) && maxRetries == old(maxRetries)
    {
      if client.None? || client.value.isClosed {
        client := Some(HttpSession(created, false));
        created := created + 1;
      }
      session := client.value;
    }

    /** `close` (also `__aexit__`) */
    method Close()
      modifies this
      ensures client == CloseState(old(client))
      ensures created == old(created) && baseUrl == old(baseUrl)
      ensures timeout == old(timeout) && maxRetries == old(maxRetries)
    {
      if client.Some? && !client.value.isClosed {
        client := None;
      }
    }

    /** `get(endpoint)`: every attempt of `_request` first ensures the client;
        as written the transport is consulted once. */
    method Get<T>(endpoint: string, net: nat -> HttpOutcome<T>) returns (r: Result<T>, url: string)
      modifies this
      ensures r == Request(net) && r == RequestOnce(net(0))
      ensures url == RequestUrl(baseUrl, endpoint)
      ensures (client, created) == EnsureState(old(client), old(created))
      ensures baseUrl == old(baseUrl) && timeout == old(timeout) && maxRetries == old(maxRetries)
    {
      var _ := EnsureClient();
      url := RequestUrl(baseUrl, endpoint);
      RetryNeverFires(net);
      r := RequestOnce(net(0));
    }
  }
}
