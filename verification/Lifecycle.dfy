/**
 What the outcome of an execution does to a job: the decisions of executeJob and of the three outcome
 handlers of internal/executor/executor.go, and the fold of those decisions over a history of outcomes.
 */
module Lifecycle {
  import opened Jobs
  import Decimal
  import opened Util
  import opened Binary64

  /** How an execution ends: the URL has no domain, doWebhook returns an error, or a response arrives. */
  datatype Outcome =
    | BadUrl
    | Errored(message: string)
    | Response(code: int)
  {
    predicate IsSuccess() {
      Response? && IsSuccessHttpStatus(code)
    }

    predicate Typed() {
      Response? ==> Int64(code)
    }
  }

  /** What a handler reads from the clock and the random source: the time stamp of the update, the time the
      retry delay is added to, and the jitter. */
  datatype Draw = Draw(stampMs: int, nowMs: int, jitterMs: int) {
    predicate Valid() {
      Int64(stampMs) && Int64(nowMs) && 0 <= jitterMs <= DEFAULT_JITTER_MAX_MS
    }
  }

  type DrawOk = d: Draw | d.Valid() witness Draw(0, 0, 0)

  /** The store calls a handler makes: DeleteJob, UpdateJob alone, or UpdateJob and then AddToSchedule. */
  datatype Verdict =
    | Remove
    | Park(job: Job)
    | Again(job: Job)

  /** A job the handlers can work on: Go's types, and the positive base delay that validation demands. */
  predicate Runnable(j: Job) {
    Storable(j) && 0 < j.backoffBaseMs
  }

  function Success(j: Job, d: DrawOk): Verdict
    requires Runnable(j)
  {
    if j.jobType == ONE_SHOT then Remove
    else
      Again(j.(dueAtMs := Add64(j.dueAtMs, j.intervalMs), attempt := 0, lastError := "", lastHttpCode := 0,
               updatedAtMs := d.stampMs, status := PENDING))
  }

  function Failure(j: Job, message: string, code: int, d: DrawOk): Verdict
    requires Runnable(j)
  {
    var tried := j.(attempt := Add64(j.attempt, 1), lastError := message, lastHttpCode := code,
        updatedAtMs := d.stampMs);
    if tried.attempt >= tried.maxAttempts then
      Park(tried.(status := FAILED))
    else
      var delay := ExactBackoff(tried.attempt, j.backoffBaseMs) + d.jitterMs;
      Again(tried.(dueAtMs := Add64(d.nowMs, delay)))
  }

  function ClientError(j: Job, message: string, code: int, d: DrawOk): Verdict
    requires Runnable(j)
  {
    Park(j.(attempt := j.maxAttempts, lastError := message, lastHttpCode := code, updatedAtMs := d.stampMs,
        status := FAILED))
  }

  function Settle(j: Job, o: Outcome, d: DrawOk): Verdict
    requires Runnable(j)
  {
    match o
    case BadUrl => Failure(j, "invalid URL", 0, d)
    case Errored(message) => Failure(j, message, 0, d)
    case Response(code) =>
      if IsSuccessHttpStatus(code) then Success(j, d)
      else if IsClientErrorHttpStatus(code) then ClientError(j, "HTTP " + Decimal.FormatInt(code), code, d)
      else Failure(j, "HTTP " + Decimal.FormatInt(code), code, d)
  }

  /** The job an outcome leaves behind; a removed job is left as it was. */
  function After(j: Job, o: Outcome, d: DrawOk): Job
    requires Runnable(j)
  {
    match Settle(j, o, d)
    case Remove => j
    case Park(next) => next
    case Again(next) => next
  }

  /** An execution leaves the fixed part alone and keeps the job within the store's reach; a job that is to run
      again is pending with attempts left, and one that is not is parked as failed. */
  lemma SettleKeeps(j: Job, o: Outcome, d: DrawOk)
    requires Runnable(j) && o.Typed()
    ensures SameFixed(After(j, o, d), j) && Runnable(After(j, o, d))
    ensures j.status == PENDING && 0 <= j.attempt < j.maxAttempts && Settle(j, o, d).Again? ==>
              After(j, o, d).status == PENDING && 0 <= After(j, o, d).attempt < j.maxAttempts
    ensures Settle(j, o, d).Park? ==> After(j, o, d).status == FAILED && After(j, o, d).attempt >= j.maxAttempts
    ensures Settle(j, o, d).Remove? <==> o.IsSuccess() && j.jobType == ONE_SHOT
  {
  }

  /** A failed execution that may be repeated: one attempt more; parked as failed on the last, and otherwise due again
      after the delay for the attempt and the jitter. */
  predicate Fails(j: Job, v: Verdict, message: string, code: int, d: DrawOk)
    requires 0 <= j.attempt
  {
    var exact := j.backoffBaseMs * Pow2(j.attempt);
    var delay := (if exact >= 600000 then 600000 else exact) + d.jitterMs;
    if j.attempt + 1 < j.maxAttempts then
      && v.Again?
      && v.job == j.(attempt := j.attempt + 1, dueAtMs := v.job.dueAtMs, lastError := message, lastHttpCode := code,
                     updatedAtMs := d.stampMs)
      && (Int64(d.nowMs + delay) ==> v.job.dueAtMs == d.nowMs + delay)
    else
      v == Park(j.(attempt := j.attempt + 1, lastError := message, lastHttpCode := code, updatedAtMs := d.stampMs,
                   status := "failed"))
  }

  /** What every outcome does to a job, in all its fields. A code from 200 to 299 is a success: a one-shot job is
      removed, any other is due one interval later, with no attempts and no error. A code from 400 to 499 but for 429
      parks the job at once, with all attempts used. Everything else fails one attempt. */
  lemma OutcomeRecorded(j: Job, o: Outcome, d: DrawOk)
    requires Runnable(j) && o.Typed() && 0 <= j.attempt < j.maxAttempts
    ensures var v := Settle(j, o, d);
      match o
      case BadUrl => Fails(j, v, "invalid URL", 0, d)
      case Errored(message) => Fails(j, v, message, 0, d)
      case Response(code) =>
        var text := "HTTP " + Decimal.FormatInt(code);
        if 200 <= code <= 299 then
          if j.jobType == "one_shot" then v == Remove
          else
            && v.Again?
            && v.job == j.(dueAtMs := v.job.dueAtMs, attempt := 0, lastError := "", lastHttpCode := 0,
                           updatedAtMs := d.stampMs, status := "pending")
            && (Int64(j.dueAtMs + j.intervalMs) ==> v.job.dueAtMs == j.dueAtMs + j.intervalMs)
        else if 400 <= code <= 499 && code != 429 then
          v == Park(j.(attempt := j.maxAttempts, lastError := text, lastHttpCode := code, updatedAtMs := d.stampMs,
                       status := "failed"))
        else Fails(j, v, text, code, d)
  {
  }

  /** The jitter is any number of milliseconds from 0 to 250, and success is any code from 200 to 299. */
  lemma DrawsAndSuccesses(d: Draw, o: Outcome)
    ensures d.Valid() <==> Int64(d.stampMs) && Int64(d.nowMs) && 0 <= d.jitterMs <= 250
    ensures o.IsSuccess() <==> o.Response? && 200 <= o.code <= 299
  {
  }

  /** The record of the last error has no influence on what happens next. */
  lemma SettleIgnoresLastError(j: Job, k: Job, o: Outcome, d: DrawOk)
    requires Runnable(j) && Runnable(k) && Core(j) == Core(k)
    ensures Core(After(j, o, d)) == Core(After(k, o, d))
    ensures Settle(j, o, d).Again? == Settle(k, o, d).Again?
  {
  }

  // ----- histories

  /** A webhook request is sent; an execution ends. */
  datatype Event =
    | Called(id: Id, attempt: int)
    | Ended(id: Id, outcome: Outcome, draw: DrawOk)
  {
    predicate Typed() {
      Ended? ==> outcome.Typed()
    }
  }

  type EventOk = e: Event | e.Typed() witness Called("", 0)

  /** The job one gets by applying, in order, the outcomes of its executions to the job as created. */
  function Folded(born: NewJob, log: seq<EventOk>): (j: Job)
    ensures SameFixed(j, born) && Runnable(j)
  {
    if log == [] then born
    else
      var before := Folded(born, log[..|log| - 1]);
      var e := log[|log| - 1];
      if e.Ended? && e.id == born.id then
        SettleKeeps(before, e.outcome, e.draw);
        After(before, e.outcome, e.draw)
      else before
  }

  /** The attempt numbers of the webhook requests sent for a job, since its last success if it is recurring. */
  function Tries(born: NewJob, log: seq<EventOk>): seq<int> {
    if log == [] then []
    else
      var before := Tries(born, log[..|log| - 1]);
      var e := log[|log| - 1];
      if e.id != born.id then before
      else if e.Called? then before + [e.attempt]
      else if e.outcome.IsSuccess() && born.jobType != ONE_SHOT then []
      else before
  }

  /** The outcome of the latest execution of a job. */
  function LastOutcome(log: seq<EventOk>, id: Id): Option<Outcome> {
    if log == [] then None
    else
      var e := log[|log| - 1];
      if e.Ended? && e.id == id then Some(e.outcome) else LastOutcome(log[..|log| - 1], id)
  }

  function Iota(n: nat): (s: seq<int>)
    ensures |s| == n && forall i :: 0 <= i < n ==> s[i] == i
  {
    seq(n, i => i)
  }

  lemma AppendEvent(born: NewJob, log: seq<EventOk>, e: EventOk)
    ensures Folded(born, log + [e]) ==
            if e.Ended? && e.id == born.id then After(Folded(born, log), e.outcome, e.draw) else Folded(born, log)
    ensures Tries(born, log + [e]) ==
            if e.id != born.id then Tries(born, log)
            else if e.Called? then Tries(born, log) + [e.attempt]
            else if e.outcome.IsSuccess() && born.jobType != ONE_SHOT then []
            else Tries(born, log)
    ensures LastOutcome(log + [e], born.id) ==
            if e.Ended? && e.id == born.id then Some(e.outcome) else LastOutcome(log, born.id)
  {
    assert (log + [e])[..|log|] == log;
  }

  lemma {:induction false} NoEvents(born: NewJob, log: seq<EventOk>)
    requires forall e | e in log :: e.id != born.id
    ensures Folded(born, log) == born && Tries(born, log) == []
  {
    if log != [] {
      NoEvents(born, log[..|log| - 1]);
    }
  }
}
