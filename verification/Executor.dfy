/**
 internal/executor/executor.go, one goroutine at a time: the handlers, the domain semaphores and executeJob as
 sequential code over the store. What other goroutines may do in between is the business of the protocol, whose
 workers make the same store calls in the same order.
 */
module Executors {
  import opened Jobs
  import opened Lifecycle
  import opened StoreModel
  import opened Codec
  import opened RedisStores
  import Decimal
  import Util
  import Protocol
  import opened Runs

  /** The store calls that take effect when a verdict is carried out: AddToSchedule only after UpdateJob succeeded. */
  function OpsOf(id: Id, v: Verdict, first: Net, second: Net): seq<Op> {
    match v
    case Remove => Effects(first, Drop(id))
    case Park(job) => Effects(first, Put(job))
    case Again(job) =>
      Effects(first, Put(job)) + (if first.Ok() then Effects(second, Schedule(job.id, job.dueAtMs)) else [])
  }

  lemma {:induction false} ExecDbAllConcat(text: TextCodec, db: Db, a: seq<Op>, b: seq<Op>)
    ensures ExecDbAll(text, db, a + b) == ExecDbAll(text, ExecDbAll(text, db, a), b)
    decreases |a|
  {
    if a == [] {
      assert a + b == b;
    } else {
      ExecDbAllConcat(text, ExecDb(text, db, a[0]), a[1..], b);
      assert (a + b)[1..] == a[1..] + b;
    }
  }

  /** A buffered channel used as a semaphore. */
  class Semaphore {
    const capacity: nat
    var used: nat

    constructor (capacity: nat)
      ensures this.capacity == capacity && used == 0
    {
      this.capacity := capacity;
      used := 0;
    }
  }

  /** Everything one execution meets: store faults, the clock, the webhook's answer, and a stop signal seen at the
      global or the domain semaphore. */
  datatype Env = Env(
    load: Net,
    draw: DrawOk,
    outcome: Outcome,
    first: Net,
    second: Net,
    quitGlobal: bool,
    quitDomain: bool)
  {
    predicate Valid() {
      outcome.Typed() && !outcome.BadUrl?
    }
  }

  /** The requests sent and the store calls made by one execution, given what GetJob answers. */
  function ExecutionSends(c: Protocol.Config, loaded: Loaded, env: Env): seq<(Id, int)> {
    if env.quitGlobal || !loaded.Found? || c.domain(loaded.job.url).None? || env.quitDomain then []
    else [(loaded.job.id, loaded.job.attempt)]
  }

  function ExecutionOps(c: Protocol.Config, loaded: Loaded, env: Env): seq<Op>
    requires env.Valid() && (loaded.Found? ==> Runnable(loaded.job))
  {
    if env.quitGlobal || !loaded.Found? then []
    else if c.domain(loaded.job.url).None? then
      OpsOf(loaded.job.id, Settle(loaded.job, BadUrl, env.draw), env.first, env.second)
    else if env.quitDomain then []
    else OpsOf(loaded.job.id, Settle(loaded.job, env.outcome, env.draw), env.first, env.second)
  }

  /** The store calls after a response. */
  function VerdictOps(job: Job, env: Env): seq<Op>
    requires Runnable(job)
  {
    OpsOf(job.id, Settle(job, env.outcome, env.draw), env.first, env.second)
  }

  datatype Progress = Completed | AtGlobalSem | AtDomainSem

  class Executor {
    const config: Protocol.Config
    const store: RedisStore
    var admitted: nat                        // occupancy of globalSem
    var domainSems: map<string, Semaphore>
    var jobQueue: seq<Id>
    var stopped: bool                        // stopCh is closed
    var sent: seq<(Id, int)>                 // requests sent, with their attempt numbers

    constructor (config: Protocol.Config, store: RedisStore)
      ensures this.config == config && this.store == store
      ensures admitted == 0 && domainSems == map[] && jobQueue == [] && !stopped && sent == [] && Valid()
    {
      this.config, this.store := config, store;
      admitted, domainSems, jobQueue, stopped, sent := 0, map[], [], false, [];
    }

    /** Every domain has a semaphore of its own, of the configured size. */
    ghost predicate Valid()
      reads this, domainSems.Values
    {
      && (forall d | d in domainSems ::
            domainSems[d].capacity == config.maxPerDomain && domainSems[d].used <= config.maxPerDomain)
      && (forall d, e | d in domainSems && e in domainSems && d != e :: domainSems[d] != domainSems[e])
    }

    /** How many workers each semaphore holds. */
    function Usage(): map<string, nat>
      reads this, domainSems.Values
    {
      map d | d in domainSems :: domainSems[d].used
    }

    /** The semaphores are the given ones, with the given use, and new ones that nobody uses. */
    ghost predicate Grown(sems: map<string, Semaphore>, usage: map<string, nat>)
      reads this, domainSems.Values
    {
      && (forall d | d in sems :: d in domainSems && domainSems[d] == sems[d])
      && (forall d | d in domainSems :: domainSems[d].used == if d in usage then usage[d] else 0)
    }

    predicate HasRoom(domain: string)
      reads this, domainSems.Values
    {
      if domain in domainSems then domainSems[domain].used < config.maxPerDomain else 0 < config.maxPerDomain
    }

    /** Where an execution ends, or which semaphore it waits on. */
    function ProgressOf(id: Id, env: Env): Progress
      reads this, domainSems.Values, store
    {
      var r := Lookup(store.text, store.Contents(), id, env.load);
      if env.quitGlobal then Completed
      else if admitted >= config.maxInflight then AtGlobalSem
      else if !r.Found? then Completed
      else if WaitsInDomain(r.job, env) then AtDomainSem
      else Completed
    }

    predicate WaitsInDomain(job: Job, env: Env)
      reads this, domainSems.Values
    {
      config.domain(job.url).Some? && !env.quitDomain && !HasRoom(config.domain(job.url).value)
    }

    /** Puts the ID into the queue if there is room, and drops it if the executor has stopped; if both are the case, one
        or the other, and if neither is, it waits. `stopFirst` is the choice of select. */
    method Dispatch(id: Id, stopFirst: bool) returns (done: bool)
      modifies this`jobQueue
      ensures done <==> old(|jobQueue|) < 2 * config.maxInflight || stopped
      ensures jobQueue ==
              if old(|jobQueue|) < 2 * config.maxInflight && !(stopped && stopFirst)
              then old(jobQueue) + [id] else old(jobQueue)
    {
      if |jobQueue| < config.QueueCapacity() && !(stopped && stopFirst) {
        jobQueue := jobQueue + [id];
        return true;
      }
      done := stopped;
    }

    /** One semaphore for each domain, the same at every call. */
    method GetDomainSemaphore(domain: string) returns (sem: Semaphore)
      requires Valid()
      modifies this`domainSems
      ensures Valid()
      ensures domainSems == old(domainSems)[domain := sem]
      ensures domain in old(domainSems) ==> sem == old(domainSems)[domain]
      ensures domain !in old(domainSems) ==> fresh(sem) && sem.used == 0
    {
      if domain in domainSems {
        return domainSems[domain];
      }
      sem := new Semaphore(config.maxPerDomain);
      domainSems := domainSems[domain := sem];
    }

    method HandleExecutionSuccess(job: Job, draw: DrawOk, first: Net, second: Net)
      requires Runnable(job)
      modifies store
      ensures store.calls == old(store.calls) + OpsOf(job.id, Success(job, draw), first, second)
      ensures store.Contents() == ExecDbAll(store.text, old(store.Contents()),
          OpsOf(job.id, Success(job, draw), first, second))
    {
      if job.jobType == ONE_SHOT {
        var _ := store.DeleteJob(job.id, first);
        return;
      }
      var j := job;
      var nextDueAtMs := Add64(j.dueAtMs, j.intervalMs);
      j := j.(dueAtMs := nextDueAtMs);
      j := j.(attempt := 0);
      j := j.(lastError := "");
      j := j.(lastHttpCode := 0);
      j := j.(updatedAtMs := draw.stampMs);
      j := j.(status := PENDING);
      assert Success(job, draw) == Again(j);
      var saved := store.UpdateJob(j, first);
      if !saved {
        return;
      }
      ExecDbAllConcat(store.text, old(store.Contents()), Effects(first, Put(j)),
          Effects(second, Schedule(j.id, nextDueAtMs)));
      var _ := store.AddToSchedule(j.id, nextDueAtMs, second);
    }

    method HandleExecutionFailure(job: Job, message: string, code: int, draw: DrawOk, first: Net, second: Net)
      requires Runnable(job)
      modifies store
      ensures store.calls == old(store.calls) + OpsOf(job.id, Failure(job, message, code, draw), first, second)
      ensures store.Contents() ==
              ExecDbAll(store.text, old(store.Contents()),
                  OpsOf(job.id, Failure(job, message, code, draw), first, second))
    {
      var j := job;
      j := j.(attempt := Add64(j.attempt, 1));
      j := j.(lastError := message);
      j := j.(lastHttpCode := code);
      j := j.(updatedAtMs := draw.stampMs);
      if j.attempt >= j.maxAttempts {
        j := j.(status := FAILED);
        var _ := store.UpdateJob(j, first);
        return;
      }
      var backoffMs := Util.CalculateBackoff(j.attempt, j.backoffBaseMs, Util.DEFAULT_JITTER_MAX_MS, draw.jitterMs);
      var nextDueAtMs := Add64(draw.nowMs, backoffMs);
      j := j.(dueAtMs := nextDueAtMs);
      assert Failure(job, message, code, draw) == Again(j);
      var saved := store.UpdateJob(j, first);
      if !saved {
        return;
      }
      ExecDbAllConcat(store.text, old(store.Contents()), Effects(first, Put(j)),
          Effects(second, Schedule(j.id, nextDueAtMs)));
      var _ := store.AddToSchedule(j.id, nextDueAtMs, second);
    }

    method HandleNonRetryableFailure(job: Job, message: string, code: int, draw: DrawOk, first: Net)
      requires Runnable(job)
      modifies store
      ensures store.calls == old(store.calls) + OpsOf(job.id, ClientError(job, message, code, draw), first, Done)
      ensures store.Contents() ==
              ExecDbAll(store.text, old(store.Contents()),
                  OpsOf(job.id, ClientError(job, message, code, draw), first, Done))
    {
      var j := job;
      j := j.(attempt := j.maxAttempts);
      j := j.(lastError := message);
      j := j.(lastHttpCode := code);
      j := j.(updatedAtMs := draw.stampMs);
      j := j.(status := FAILED);
      var _ := store.UpdateJob(j, first);
    }

    /** Hands the outcome of a request to its handler. */
    method HandleOutcome(job: Job, env: Env)
      requires Runnable(job) && env.Valid()
      modifies store
      ensures store.calls == old(store.calls) + OpsOf(job.id, Settle(job, env.outcome, env.draw), env.first, env.second)
      ensures store.Contents() ==
              ExecDbAll(store.text, old(store.Contents()),
                  OpsOf(job.id, Settle(job, env.outcome, env.draw), env.first, env.second))
    {
      match env.outcome {
        case Errored(message) => HandleExecutionFailure(job, message, 0, env.draw, env.first, env.second);
        case Response(code) =>
          if Util.IsSuccessHttpStatus(code) {
            HandleExecutionSuccess(job, env.draw, env.first, env.second);
          } else if Util.IsClientErrorHttpStatus(code) {
            HandleNonRetryableFailure(job, "HTTP " + Decimal.FormatInt(code), code, env.draw, env.first);
          } else {
            HandleExecutionFailure(job, "HTTP " + Decimal.FormatInt(code), code, env.draw, env.first, env.second);
          }
      }
    }

    /** The request and its consequences, under a semaphore with room. */
    method Deliver(job: Job, domainSem: Semaphore, env: Env)
      requires env.Valid() && Runnable(job)
      modifies domainSem, this`sent, store
      ensures domainSem.used == old(domainSem.used)
      ensures sent == old(sent) + [(job.id, job.attempt)]
      ensures store.calls == old(store.calls) + VerdictOps(job, env)
      ensures store.Contents() == ExecDbAll(store.text, old(store.Contents()), VerdictOps(job, env))
    {
      domainSem.used := domainSem.used + 1;
      sent := sent + [(job.id, job.attempt)];
      HandleOutcome(job, env);
      domainSem.used := domainSem.used - 1;
    }

    /** The part of an execution that needs the domain semaphore. It waits on a full one, unless told to stop. */
    method ExecuteInDomain(job: Job, domain: string, env: Env) returns (waits: bool)
      requires Valid() && env.Valid() && Runnable(job)
      modifies this`domainSems, this`sent, store, domainSems.Values
      ensures Valid() && Grown(old(domainSems), old(Usage()))
      ensures waits <==> !env.quitDomain && !old(HasRoom(domain))
      ensures sent == old(sent) + (if env.quitDomain || waits then [] else [(job.id, job.attempt)])
      ensures var ops := if env.quitDomain || waits then [] else VerdictOps(job, env);
        && store.calls == old(store.calls) + ops
        && store.Contents() == ExecDbAll(store.text, old(store.Contents()), ops)
    {
      var domainSem := GetDomainSemaphore(domain);
      assert domainSem.capacity == config.maxPerDomain && domainSem == domainSems[domain];
      assert Grown(old(domainSems), old(Usage()));
      assert domainSem.used < domainSem.capacity <==> old(HasRoom(domain));
      waits := false;
      if !env.quitDomain {
        if domainSem.used < domainSem.capacity {
          Deliver(job, domainSem, env);
        } else {
          waits := true;
        }
      }
    }

    /** The rest of an execution once the job is loaded. */
    method ExecuteLoaded(job: Job, env: Env) returns (waits: bool)
      requires Valid() && env.Valid() && Runnable(job) && !env.quitGlobal
      modifies this`domainSems, this`sent, store, domainSems.Values
      ensures Valid() && Grown(old(domainSems), old(Usage()))
      ensures waits <==> old(WaitsInDomain(job, env))
      ensures sent == old(sent) + (if waits then [] else ExecutionSends(config, Found(job), env))
      ensures var ops := if waits then [] else ExecutionOps(config, Found(job), env);
        && store.calls == old(store.calls) + ops
        && store.Contents() == ExecDbAll(store.text, old(store.Contents()), ops)
    {
      match config.domain(job.url) {
        case None =>
          HandleExecutionFailure(job, "invalid URL", 0, env.draw, env.first, env.second);
          waits := false;
        case Some(domain) => waits := ExecuteInDomain(job, domain, env);
      }
    }

    /** One execution, from the global semaphore to its release, or to the full semaphore it waits on. */
    method ExecuteJob(id: Id, env: Env) returns (progress: Progress)
      requires Valid() && env.Valid()
      requires var r := Lookup(store.text, store.Contents(), id, env.load); r.Found? ==> Runnable(r.job)
      modifies this`admitted, this`domainSems, this`sent, store, domainSems.Values
      ensures Valid() && Grown(old(domainSems), old(Usage()))
      ensures progress == old(ProgressOf(id, env))
      ensures admitted == old(admitted) + (if progress.AtDomainSem? then 1 else 0)
      ensures var r := Lookup(store.text, old(store.Contents()), id, env.load);
        var sends := if progress.Completed? then ExecutionSends(config, r, env) else [];
        var ops := if progress.Completed? then ExecutionOps(config, r, env) else [];
        && sent == old(sent) + sends
        && store.calls == old(store.calls) + ops
        && store.Contents() == ExecDbAll(store.text, old(store.Contents()), ops)
    {
      if env.quitGlobal {
        return Completed;
      }
      if admitted >= config.maxInflight {
        return AtGlobalSem;
      }
      admitted := admitted + 1;
      var loaded := store.GetJob(id, env.load);
      if loaded.Found? {
        var waits := ExecuteLoaded(loaded.job, env);
        if waits {
          return AtDomainSem;
        }
      }
      admitted := admitted - 1;
      progress := Completed;
    }
  }

  // ----- the handlers and the protocol

  /** The scheduler, the queue and main are as they were. */
  predicate Aside(s: Protocol.State, t: Protocol.State) {
    t.sched == s.sched && t.queue == s.queue && t.phase == s.phase && t.born == s.born
  }

  /** The worker's last labels for a verdict, with the given faults. */
  function FinalLabels(i: nat, v: Verdict, first: Net, second: Net): seq<Protocol.Label> {
    match v
    case Remove => [Protocol.Work(i, Protocol.Discard(first))]
    case Park(_) => [Protocol.Work(i, Protocol.Save(first))]
    case Again(_) =>
      [Protocol.Work(i, Protocol.Save(first))] +
      (if first.Ok() then [Protocol.Work(i, Protocol.Reschedule(second))] else [])
  }

  /** The handlers make the store calls of the protocol's workers, in their order and with their reaction to errors. */
  lemma HandlersFollowProtocol(c: Protocol.Config, s: Protocol.State, i: nat, id: Id, v: Verdict, held: Option<nat>,
                               first: Net, second: Net)
    requires i < |s.workers| && s.workers[i] == Protocol.Carry(id, v, held)
    ensures var ls := FinalLabels(i, v, first, second);
      && Protocol.Valid(c, s, ls)
      && OpsAlong(c, s, ls) == OpsOf(id, v, first, second)
      && var t := Protocol.Run(c, s, ls);
        && t.workers == s.workers[i := Protocol.Finish(held)]
        && t.sync == s.sync && t.log == s.log && Aside(s, t)
  {
    var l := FinalLabels(i, v, first, second)[0];
    OneLabel(c, s, l);
    if v.Again? && first.Ok() {
      var m := Protocol.Work(i, Protocol.Reschedule(second));
      OneLabel(c, Protocol.Apply(c, s, l), m);
      RunCons(c, s, l, [m]);
    }
  }
}
