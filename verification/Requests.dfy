/** internal/model/job.go and the creating and deleting handlers of internal/httpapi/handlers.go. */
module Requests {
  import opened Jobs
  import opened StoreModel
  import opened RedisStores
  import opened Codec
  import opened DueIndex
  import Binary64

  /** What url.Parse makes of a URL: scheme and host, or an error. */
  datatype ParsedUrl = ParsedUrl(scheme: string, host: string)

  const ALLOWED_METHODS: set<string> := {"GET", "POST", "PUT", "PATCH", "DELETE"}

  datatype Fault =
    | TimeRequired
    | IntervalNotPositive
    | UrlRequired
    | UrlInvalid
    | SchemeNotHttp
    | HostRequired
    | MethodNotAllowed
    | TooFewAttempts
    | BackoffNotPositive

  /** url.Parse and strings.ToUpper. */
  datatype Library = Library(parse: string -> Option<ParsedUrl>, upper: string -> string)

  function MethodOf(lib: Library, webMethod: string): string {
    if lib.upper(webMethod) == "" then "POST" else lib.upper(webMethod)
  }

  predicate HttpUrl(lib: Library, url: string) {
    url != "" &&
    match lib.parse(url)
    case None => false
    case Some(p) => (p.scheme == "http" || p.scheme == "https") && p.host != ""
  }

  /** What each fault of a webhook means. */
  predicate WebhookFault(lib: Library, f: Fault, url: string, webMethod: string) {
    match f
    case UrlRequired => url == ""
    case UrlInvalid => lib.parse(url).None?
    case SchemeNotHttp => lib.parse(url).Some? && lib.parse(url).value.scheme !in {"http", "https"}
    case HostRequired => lib.parse(url).Some? && lib.parse(url).value.host == ""
    case MethodNotAllowed => lib.upper(webMethod) !in {"", "GET", "POST", "PUT", "PATCH", "DELETE"}
    case _ => false
  }

  /** The order in which the faults are looked for. */
  function Rank(f: Fault): nat {
    match f
    case TimeRequired => 0
    case IntervalNotPositive => 1
    case UrlRequired => 2
    case UrlInvalid => 3
    case SchemeNotHttp => 4
    case HostRequired => 5
    case MethodNotAllowed => 6
    case TooFewAttempts => 7
    case BackoffNotPositive => 8
  }

  class WebhookConfig {
    var url: string
    var webMethod: string
    var headers: Option<Headers>
    var body: Option<Body>
    var timeoutMs: int

    constructor (url: string, webMethod: string, headers: Option<Headers>, body: Option<Body>, timeoutMs: int)
      ensures this.url == url && this.webMethod == webMethod && this.headers == headers && this.body == body
      ensures this.timeoutMs == timeoutMs
    {
      this.url, this.webMethod, this.headers, this.body, this.timeoutMs := url, webMethod, headers, body, timeoutMs;
    }

    /** Accepts an http URL with a host and an allowed method in any case, and then has the method in upper case and a
        positive timeout. */
    method Validate(lib: Library, defaultTimeoutMs: int) returns (fault: Option<Fault>)
      modifies this`webMethod, this`timeoutMs
      ensures fault.None? ==> forall f :: !WebhookFault(lib, f, url, old(webMethod))
      ensures fault.Some? ==>
                && WebhookFault(lib, fault.value, url, old(webMethod))
                && forall f | WebhookFault(lib, f, url, old(webMethod)) :: Rank(fault.value) <= Rank(f)
      ensures fault.None? <==> HttpUrl(lib, url) && MethodOf(lib, old(webMethod)) in ALLOWED_METHODS
      ensures fault.None? ==> webMethod == MethodOf(lib, old(webMethod))
      ensures fault.None? ==> timeoutMs == if old(timeoutMs) <= 0 then defaultTimeoutMs else old(timeoutMs)
      ensures fault.Some? ==> timeoutMs == old(timeoutMs) && webMethod == old(webMethod)
    {
      if url == "" {
        return Some(UrlRequired);
      }
      var parsed := lib.parse(url);
      if parsed.None? {
        return Some(UrlInvalid);
      }
      if parsed.value.scheme != "http" && parsed.value.scheme != "https" {
        return Some(SchemeNotHttp);
      }
      if parsed.value.host == "" {
        return Some(HostRequired);
      }
      var m := lib.upper(webMethod);
      if m == "" {
        m := "POST";
        webMethod := m;
      }
      if m !in ALLOWED_METHODS {
        return Some(MethodNotAllowed);
      }
      webMethod := m;
      if timeoutMs <= 0 {
        timeoutMs := defaultTimeoutMs;
      }
      fault := None;
    }
  }

  datatype RetryConfig = RetryConfig(maxAttempts: int, backoffBaseMs: int) {
    function Validate(): Option<Fault> {
      if maxAttempts < 1 then Some(TooFewAttempts)
      else if backoffBaseMs <= 0 then Some(BackoffNotPositive)
      else None
    }
  }

  const DEFAULT_RETRY := RetryConfig(3, 1000)

  /** The time is absent for Go's zero time. */
  datatype Timing =
    | Once(executeAtMs: Option<int>)
    | Every(startAtMs: Option<int>, intervalMs: int)
  {
    function At(): Option<int> {
      match this
      case Once(at) => at
      case Every(at, _) => at
    }

    predicate Typed() {
      (At().Some? ==> Int64(At().value)) && (Every? ==> Int64(intervalMs))
    }
  }

  predicate RetryTyped(retry: Option<RetryConfig>) {
    retry.Some? ==> Int64(retry.value.maxAttempts) && Int64(retry.value.backoffBaseMs)
  }

  /** What each fault of a creation request means. */
  predicate RequestFault(lib: Library, f: Fault, timing: Timing, retry: Option<RetryConfig>, url: string,
                         webMethod: string)
  {
    match f
    case TimeRequired => (timing.Once? && timing.executeAtMs == None) || (timing.Every? && timing.startAtMs == None)
    case IntervalNotPositive => timing.Every? && timing.intervalMs <= 0
    case TooFewAttempts => retry.Some? && retry.value.maxAttempts < 1
    case BackoffNotPositive => retry.Some? && retry.value.backoffBaseMs <= 0
    case _ => WebhookFault(lib, f, url, webMethod)
  }

  /** A request is acceptable if it has none of the faults. */
  lemma AcceptableMeans(lib: Library, timing: Timing, retry: Option<RetryConfig>, url: string, webMethod: string)
    ensures Acceptable(lib, timing, retry, url, webMethod)
            <==> forall f :: !RequestFault(lib, f, timing, retry, url, webMethod)
  {
    if !Acceptable(lib, timing, retry, url, webMethod) {
      assert exists f :: RequestFault(lib, f, timing, retry, url, webMethod) by {
        assert timing.At().None? ==> RequestFault(lib, TimeRequired, timing, retry, url, webMethod);
        assert timing.Every? && timing.intervalMs <= 0 ==>
            RequestFault(lib, IntervalNotPositive, timing, retry, url, webMethod);
        assert !HttpUrl(lib, url) ==>
            || RequestFault(lib, UrlRequired, timing, retry, url, webMethod)
            || RequestFault(lib, UrlInvalid, timing, retry, url, webMethod)
            || RequestFault(lib, SchemeNotHttp, timing, retry, url, webMethod)
            || RequestFault(lib, HostRequired, timing, retry, url, webMethod);
        assert MethodOf(lib, webMethod) !in ALLOWED_METHODS ==>
            RequestFault(lib, MethodNotAllowed, timing, retry, url, webMethod);
        assert RequestFault(lib, TooFewAttempts, timing, retry, url, webMethod)
            || RequestFault(lib, BackoffNotPositive, timing, retry, url, webMethod)
            || (retry.Some? ==> 1 <= retry.value.maxAttempts && 0 < retry.value.backoffBaseMs);
      }
    }
  }

  /** When a creation request is acceptable. */
  predicate Acceptable(lib: Library, timing: Timing, retry: Option<RetryConfig>, url: string, webMethod: string) {
    && timing.At().Some?
    && (timing.Every? ==> 0 < timing.intervalMs)
    && HttpUrl(lib, url) && MethodOf(lib, webMethod) in ALLOWED_METHODS
    && (retry.Some? ==> 1 <= retry.value.maxAttempts && 0 < retry.value.backoffBaseMs)
  }

  /** The two Validate methods of creation requests, told apart by the timing. */
  method ValidateRequest(lib: Library, timing: Timing, webhook: WebhookConfig, retry: Option<RetryConfig>,
                         defaultTimeoutMs: int) returns (fault: Option<Fault>)
    modifies webhook`webMethod, webhook`timeoutMs
    ensures fault.None? <==> Acceptable(lib, timing, retry, webhook.url, old(webhook.webMethod))
    ensures fault.None? <==> forall f :: !RequestFault(lib, f, timing, retry, webhook.url, old(webhook.webMethod))
    ensures fault.Some? ==>
              && RequestFault(lib, fault.value, timing, retry, webhook.url, old(webhook.webMethod))
              && forall f | RequestFault(lib, f, timing, retry, webhook.url, old(webhook.webMethod)) ::
                   Rank(fault.value) <= Rank(f)
    ensures fault.None? ==> webhook.webMethod == MethodOf(lib, old(webhook.webMethod))
    ensures fault.None? ==>
              webhook.timeoutMs == if old(webhook.timeoutMs) <= 0 then defaultTimeoutMs else old(webhook.timeoutMs)
  {
    AcceptableMeans(lib, timing, retry, webhook.url, webhook.webMethod);
    if timing.At().None? {
      return Some(TimeRequired);
    }
    if timing.Every? && timing.intervalMs <= 0 {
      return Some(IntervalNotPositive);
    }
    fault := webhook.Validate(lib, defaultTimeoutMs);
    if fault.Some? {
      return;
    }
    if retry.Some? {
      fault := retry.value.Validate();
    }
  }

  /** NewOneShotJob and NewRecurringJob. */
  function NewJobFor(id: Id, timing: Timing, url: string, webMethod: string,
                     headers: Option<Headers>, body: Option<Body>,
                     timeoutMs: int, retry: Option<RetryConfig>, defaultTimeoutMs: int, nowMs: int): Job
    requires timing.At().Some?
  {
    var r := if retry.Some? then retry.value else DEFAULT_RETRY;
    Job(id, if timing.Once? then ONE_SHOT else RECURRING, timing.At().value,
        if timing.Once? then 0 else timing.intervalMs,
        0, r.maxAttempts, r.backoffBaseMs, url, webMethod, headers, body,
        if timeoutMs <= 0 then defaultTimeoutMs else timeoutMs, nowMs, nowMs, "", 0, PENDING)
  }

  /** The job a request asks for, field by field. */
  predicate Requested(lib: Library, job: Job, id: Id, timing: Timing, url: string, webMethod: string,
                      headers: Option<Headers>, body: Option<Body>, timeoutMs: int, retry: Option<RetryConfig>,
                      defaultTimeoutMs: int, nowMs: int)
  {
    && job.id == id
    && (match timing
        case Once(at) => job.jobType == "one_shot" && Some(job.dueAtMs) == at && job.intervalMs == 0
        case Every(at, intervalMs) =>
          job.jobType == "recurring" && Some(job.dueAtMs) == at && job.intervalMs == intervalMs)
    && job.attempt == 0
    && (match retry
        case None => job.maxAttempts == 3 && job.backoffBaseMs == 1000
        case Some(r) => job.maxAttempts == r.maxAttempts && job.backoffBaseMs == r.backoffBaseMs)
    && job.url == url
    && job.webMethod == (if lib.upper(webMethod) == "" then "POST" else lib.upper(webMethod))
    && job.headers == headers && job.body == body
    && job.timeoutMs == (if timeoutMs > 0 then timeoutMs else defaultTimeoutMs)
    && job.createdAtMs == nowMs && job.updatedAtMs == nowMs
    && job.lastError == "" && job.lastHttpCode == 0
    && job.status == "pending"
  }

  /** Whatever passes validation makes the job it asks for, and one the store can hold and the executor can run. */
  lemma AcceptedIsNewborn(lib: Library, id: Id, timing: Timing, retry: Option<RetryConfig>,
                          url: string, webMethod: string, headers: Option<Headers>, body: Option<Body>,
                          timeoutMs: int, defaultTimeoutMs: int, nowMs: int)
    requires Acceptable(lib, timing, retry, url, webMethod) && timing.Typed() && RetryTyped(retry)
    requires Int64(timeoutMs) && Int64(defaultTimeoutMs) && Int64(nowMs)
    ensures var job := NewJobFor(id, timing, url, MethodOf(lib, webMethod), headers, body, timeoutMs, retry,
                                 defaultTimeoutMs, nowMs);
      && Newborn(job)
      && Requested(lib, job, id, timing, url, webMethod, headers, body, timeoutMs, retry, defaultTimeoutMs, nowMs)
  {
  }

  datatype Reply = Created(id: Id) | ValidationError(fault: Fault) | InternalError | NotFoundError | Deleted | BadId

  /** handleCreateOneShot and handleCreateRecurring, after decoding the body: nothing is stored unless the request is
      acceptable, and then the job it asks for is stored, and scheduled for the time it asks for. `id` is the new UUID,
      and `job` is the job. */
  method HandleCreate(store: RedisStore, lib: Library, id: Id, timing: Timing, webhook: WebhookConfig,
                      retry: Option<RetryConfig>, defaultTimeoutMs: int, nowMs: int, net: Net)
    returns (reply: Reply, ghost job: Job)
    requires timing.Typed() && RetryTyped(retry) && Int64(webhook.timeoutMs) && Int64(defaultTimeoutMs) && Int64(nowMs)
    modifies store, webhook`webMethod, webhook`timeoutMs
    ensures reply.ValidationError?
            <==> exists f :: RequestFault(lib, f, timing, retry, old(webhook.url), old(webhook.webMethod))
    ensures reply.ValidationError? ==>
              && RequestFault(lib, reply.fault, timing, retry, old(webhook.url), old(webhook.webMethod))
              && forall f | RequestFault(lib, f, timing, retry, old(webhook.url), old(webhook.webMethod)) ::
                   Rank(reply.fault) <= Rank(f)
    ensures reply.ValidationError? ==> store.Contents() == old(store.Contents()) && store.calls == old(store.calls)
    ensures !reply.ValidationError? ==>
              && reply == (if net.Done? then Created(id) else InternalError)
              && Newborn(job)
              && Requested(lib, job, id, timing, old(webhook.url), old(webhook.webMethod), old(webhook.headers),
                           old(webhook.body), old(webhook.timeoutMs), retry, defaultTimeoutMs, nowMs)
              && store.calls == old(store.calls) + Effects(net, Create(job))
    ensures !reply.ValidationError? && !net.Undone? ==>
              && store.hashes == old(store.hashes)[id := HashOf(old(store.hashes), id) + Encoded(store.text, job)]
              && forall due | Represents(old(store.schedule), due) ::
                   Represents(store.schedule, due[id := Binary64.OfInt(job.dueAtMs)])
    ensures !reply.ValidationError? && net.Undone? ==> store.Contents() == old(store.Contents())
  {
    ghost var timeout0, method0 := webhook.timeoutMs, webhook.webMethod;
    job := ZERO_JOB;
    var fault := ValidateRequest(lib, timing, webhook, retry, defaultTimeoutMs);
    if fault.Some? {
      reply := ValidationError(fault.value);
      return;
    }
    AcceptedIsNewborn(lib, id, timing, retry, webhook.url, method0, webhook.headers, webhook.body, timeout0,
                      defaultTimeoutMs, nowMs);
    var created := NewJobFor(id, timing, webhook.url, webhook.webMethod, webhook.headers, webhook.body,
                             webhook.timeoutMs, retry, defaultTimeoutMs, nowMs);
    assert created == NewJobFor(id, timing, webhook.url, MethodOf(lib, method0), webhook.headers, webhook.body,
                                timeout0, retry, defaultTimeoutMs, nowMs);
    job := created;
    var ok := store.CreateJob(created, net);
    reply := if ok then Created(id) else InternalError;
  }

  /** handleDeleteJob: two store calls, the second only if the first found the job. Whatever goes wrong but for a
      missing job is an internal error. */
  method HandleDelete(store: RedisStore, id: Id, load: Net, drop: Net) returns (reply: Reply)
    modifies store
    ensures var r := Lookup(store.text, old(store.Contents()), id, load);
      && (reply == BadId <==> id == "")
      && (reply == NotFoundError <==> id != "" && r.NotFound?)
      && (reply == Deleted <==> id != "" && r.Found? && drop.Done?)
      && (reply == InternalError <==> id != "" && (r.Unavailable? || r.Corrupt? || (r.Found? && !drop.Done?)))
      && (if id != "" && r.Found? && !drop.Undone?
          then
            && store.hashes == old(store.hashes) - {id}
            && forall due | Represents(old(store.schedule), due) :: Represents(store.schedule, due - {id})
          else store.Contents() == old(store.Contents()))
      && store.calls == old(store.calls) + (if id != "" && r.Found? then Effects(drop, Drop(id)) else [])
  {
    if id == "" {
      return BadId;
    }
    var loaded := store.GetJob(id, load);
    if loaded.NotFound? {
      return NotFoundError;
    }
    if !loaded.Found? {
      return InternalError;
    }
    var ok := store.DeleteJob(id, drop);
    reply := if ok then Deleted else InternalError;
  }
}
