/** The job record of internal/model/job.go and the vocabulary shared by every component. */
module Jobs {

  datatype Option<+T> = None | Some(value: T)

  type Id = string

  const ONE_SHOT: string := "one_shot"
  const RECURRING: string := "recurring"
  const PENDING: string := "pending"
  const FAILED: string := "failed"

  const INT64_MIN: int := -0x8000_0000_0000_0000
  const INT64_MAX: int := 0x7fff_ffff_ffff_ffff

  predicate Int64(x: int) {
    INT64_MIN <= x <= INT64_MAX
  }

  /** The sum of two int64 values, wrapping around as Go's `+` does. */
  function Add64(x: int, y: int): (r: int)
    requires Int64(x) && Int64(y)
    ensures Int64(r)
    ensures Int64(x + y) ==> r == x + y
  {
    if x + y > INT64_MAX then x + y - 0x1_0000_0000_0000_0000
    else if x + y < INT64_MIN then x + y + 0x1_0000_0000_0000_0000
    else x + y
  }

  /** The difference of two int64 values, wrapping around as Go's `-` does. */
  function Sub64(x: int, y: int): (r: int)
    requires Int64(x) && Int64(y)
    ensures Int64(r)
    ensures Int64(x - y) ==> r == x - y
  {
    if x - y > INT64_MAX then x - y - 0x1_0000_0000_0000_0000
    else if x - y < INT64_MIN then x - y + 0x1_0000_0000_0000_0000
    else x - y
  }

  function Min(x: int, y: int): int {
    if x <= y then x else y
  }

  /** A JSON value, as it appears in a webhook body. */
  datatype Json =
    | JsonNull
    | JsonBool(b: bool)
    | JsonNumber(text: string)
    | JsonString(s: string)
    | JsonArray(items: seq<Json>)
    | JsonObject(members: map<string, Json>)

  type Headers = map<string, string>
  type Body = map<string, Json>

  /** `None` for headers or body is Go's nil map, which differs from the empty map. */
  datatype Job = Job(
    id: Id,
    jobType: string,
    dueAtMs: int,
    intervalMs: int,
    attempt: int,
    maxAttempts: int,
    backoffBaseMs: int,
    url: string,
    webMethod: string,
    headers: Option<Headers>,
    body: Option<Body>,
    timeoutMs: int,
    createdAtMs: int,
    updatedAtMs: int,
    lastError: string,
    lastHttpCode: int,
    status: string)

  /** What Go's static types say of a job: every number is an int64 (int is 64 bits wide). */
  predicate Typed(j: Job) {
    && Int64(j.dueAtMs) && Int64(j.intervalMs) && Int64(j.attempt) && Int64(j.maxAttempts)
    && Int64(j.backoffBaseMs) && Int64(j.timeoutMs) && Int64(j.createdAtMs) && Int64(j.updatedAtMs)
    && Int64(j.lastHttpCode)
  }

  /** The jobs the store can hold without losing information. */
  predicate Storable(j: Job) {
    Typed(j) && j.intervalMs >= 0
  }

  /** What validation and the two job constructors establish before a job is first stored. */
  predicate Newborn(j: Job) {
    && Storable(j)
    && j.attempt == 0
    && 1 <= j.maxAttempts
    && 0 < j.backoffBaseMs
    && j.status == PENDING
    && j.lastError == "" && j.lastHttpCode == 0
    && (j.jobType == ONE_SHOT || (j.jobType == RECURRING && 0 < j.intervalMs))
  }

  type NewJob = j: Job | Newborn(j)
    witness Job("", ONE_SHOT, 0, 0, 0, 1, 1, "", "", None, None, 0, 0, 0, "", 0, PENDING)

  /** The part of a job that no execution ever changes. */
  predicate SameFixed(a: Job, b: Job) {
    && a.id == b.id && a.jobType == b.jobType && a.intervalMs == b.intervalMs
    && a.maxAttempts == b.maxAttempts && a.backoffBaseMs == b.backoffBaseMs
    && a.url == b.url && a.webMethod == b.webMethod && a.headers == b.headers && a.body == b.body
    && a.timeoutMs == b.timeoutMs && a.createdAtMs == b.createdAtMs
  }

  /** The fields that decide behaviour: everything but the record of the last error. */
  function Core(j: Job): Job {
    j.(lastError := "", lastHttpCode := 0)
  }
}
