/**
 The sequential code of the executor and the scheduler makes the steps of the protocol: an execution that is not
 disturbed and a poll that is not held up are runs of labels with the same store calls, requests and queue.
 */
module Refinements {
  import opened Jobs
  import opened Lifecycle
  import opened StoreModel
  import opened Protocol
  import opened Limits
  import opened Runs
  import opened Executors
  import opened Safety
  import opened Simulation
  import opened Codec
  import opened RedisStores
  import opened DueIndex
  import opened Records
  import Schedulers
  import Binary64

  // ----- runs with their store calls

  /** The labels lead from `s` to `t` and make the store calls `ops`. */
  ghost predicate Leads(c: Config, s: State, ls: seq<Label>, ops: seq<Op>, t: State) {
    Valid(c, s, ls) && OpsAlong(c, s, ls) == ops && Run(c, s, ls) == t
  }

  lemma LeadsOn(c: Config, s: State, ls: seq<Label>, ops: seq<Op>, t: State, ms: seq<Label>, more: seq<Op>, u: State)
    requires Leads(c, s, ls, ops, t) && Leads(c, t, ms, more, u)
    ensures Leads(c, s, ls + ms, ops + more, u)
  {
    RunConcat(c, s, ls, ms);
    OpsConcat(c, s, ls, ms, t, more);
  }

  lemma Joined(c: Config, s: State, ls: seq<Label>, u: State, ms: seq<Label>, ops: seq<Op>, t: State)
    requires Leads(c, s, ls, [], u) && Leads(c, u, ms, ops, t)
    ensures Leads(c, s, ls + ms, ops, t)
  {
    LeadsOn(c, s, ls, [], u, ms, ops, t);
    assert [] + ops == ops;
  }

  /** The requests on record, with their attempt numbers. */
  function Requests(log: seq<EventOk>): seq<(Id, int)> {
    if log == [] then []
    else
      var e := log[|log| - 1];
      Requests(log[..|log| - 1]) + (if e.Called? then [(e.id, e.attempt)] else [])
  }

  /** What an execution adds to the history, given what GetJob answers. */
  function ExecutionEvents(c: Config, r: Loaded, env: Env): seq<EventOk>
    requires env.Valid()
  {
    if env.quitGlobal || !r.Found? then []
    else if c.domain(r.job.url).None? then [Ended(r.job.id, BadUrl, env.draw)]
    else if env.quitDomain then []
    else Exchanged(r.job, env)
  }

  function Exchanged(job: Job, env: Env): seq<EventOk>
    requires env.Valid()
  {
    [Called(job.id, job.attempt), Ended(job.id, env.outcome, env.draw)]
  }

  lemma RequestsAppend(log: seq<EventOk>, e: EventOk)
    ensures Requests(log + [e]) == Requests(log) + (if e.Called? then [(e.id, e.attempt)] else [])
  {
    assert (log + [e])[..|log|] == log;
  }

  lemma RequestsOfExecution(c: Config, log: seq<EventOk>, r: Loaded, env: Env)
    requires env.Valid()
    ensures Requests(log + ExecutionEvents(c, r, env)) == Requests(log) + ExecutionSends(c, r, env)
  {
    var events := ExecutionEvents(c, r, env);
    if events == [] {
      assert log + events == log;
    } else if |events| == 1 {
      RequestsAppend(log, events[0]);
    } else {
      RequestsAppend(log, events[0]);
      RequestsAppend(log + [events[0]], events[1]);
      assert log + events == log + [events[0]] + [events[1]];
    }
  }

  /** Between two states only worker i has moved, and not on the store. */
  predicate Beside(s: State, t: State, i: nat, w: Worker)
    requires i < |s.workers|
  {
    t.workers == s.workers[i := w] && t.store == s.store && Aside(s, t)
  }

  /** One action that makes no store call. */
  lemma QuietAct(c: Config, s: State, i: nat, a: Act) returns (t: State)
    requires i < |s.workers| && ActEnabled(c, s, s.workers[i], a) && !a.Take?
    requires !a.Save? && !a.Reschedule? && !a.Discard?
    ensures Leads(c, s, [Work(i, a)], [], t)
    ensures Beside(s, t, i, WorkerAfter(c, s, s.workers[i], a))
    ensures t.sync == SyncAct(c, s, s.workers[i], a) && t.log == LogAfter(c, s, Work(i, a))
  {
    t := Apply(c, s, Work(i, a));
    OneLabel(c, s, Work(i, a));
  }

  /** Two actions in a row. */
  lemma ThenQuietAct(c: Config, s: State, ls: seq<Label>, ops: seq<Op>, t: State, i: nat, a: Act) returns (u: State)
    requires Leads(c, s, ls, ops, t)
    requires i < |t.workers| && ActEnabled(c, t, t.workers[i], a) && !a.Take?
    requires !a.Save? && !a.Reschedule? && !a.Discard?
    ensures Leads(c, s, ls + [Work(i, a)], ops, u)
    ensures Beside(t, u, i, WorkerAfter(c, t, t.workers[i], a))
    ensures u.sync == SyncAct(c, t, t.workers[i], a) && u.log == LogAfter(c, t, Work(i, a))
  {
    u := QuietAct(c, t, i, a);
    LeadsOn(c, s, ls, ops, t, [Work(i, a)], [], u);
    assert ops + [] == ops;
  }

  // ----- an execution, part by part

  /** What GetJob answers on the map of jobs. */
  function Loading(st: Store, id: Id, net: Net): Loaded {
    if !net.Ok() then Unavailable
    else if id in st.jobs then Found(st.jobs[id])
    else NotFound
  }

  /** The worker after GetJob and ExtractDomain. */
  function AfterLoad(c: Config, r: Loaded, draw: DrawOk): Worker
    requires r.Found? ==> Runnable(r.job)
  {
    if !r.Found? then Leaving
    else
      match c.domain(r.job.url)
      case None => Carry(r.job.id, Settle(r.job, BadUrl, draw), None)
      case Some(domain) => Seeking(r.job, domain, AtEntry)
  }

  function LoadEvents(c: Config, r: Loaded, draw: DrawOk): seq<EventOk> {
    if r.Found? && c.domain(r.job.url).None? then [Ended(r.job.id, BadUrl, draw)] else []
  }

  /** What the load itself has not yet added. */
  function LaterEvents(c: Config, r: Loaded, env: Env): seq<EventOk>
    requires env.Valid()
  {
    if r.Found? && c.domain(r.job.url).None? then [] else ExecutionEvents(c, r, env)
  }

  lemma Enter(c: Config, s: State, i: nat, id: Id, load: Net, draw: DrawOk) returns (ls: seq<Label>, t: State)
    requires i < |s.workers| && s.workers[i] == Taken(id) && s.sync.admitted < c.maxInflight
    requires id in s.store.jobs ==> Runnable(s.store.jobs[id])
    ensures Leads(c, s, ls, [], t) && Beside(s, t, i, AfterLoad(c, Loading(s.store, id, load), draw))
    ensures t.sync == s.sync.(admitted := s.sync.admitted + 1)
    ensures t.log == s.log + LoadEvents(c, Loading(s.store, id, load), draw)
  {
    t := QuietAct(c, s, i, Admit);
    ls := [Work(i, Admit)];
    t := ThenQuietAct(c, s, ls, [], t, i, Load(load, draw));
    ls := ls + [Work(i, Load(load, draw))];
  }

  /** The semaphore of a domain: registered before, or the next to be made. */
  function SemFor(y: Sync, domain: string): nat {
    if domain in y.registry then y.registry[domain] else |y.sems|
  }

  function WithSem(y: Sync, domain: string): Sync {
    if domain in y.registry then y
    else y.(registry := y.registry[domain := |y.sems|], sems := y.sems + [Sem(domain, 0)])
  }

  predicate LockFree(y: Sync) {
    !y.writing && y.readers == 0
  }

  lemma FindSem(c: Config, s: State, i: nat, job: Job, domain: string) returns (ls: seq<Label>, t: State)
    requires i < |s.workers| && s.workers[i] == Seeking(job, domain, AtEntry) && LockFree(s.sync)
    requires domain in s.sync.registry
    ensures Leads(c, s, ls, [], t) && Beside(s, t, i, Waiting(job, domain, s.sync.registry[domain]))
    ensures t.sync == s.sync && t.log == s.log
  {
    t := QuietAct(c, s, i, RLock);
    t := ThenQuietAct(c, s, [Work(i, RLock)], [], t, i, Look);
    ls := [Work(i, RLock)] + [Work(i, Look)];
  }

  lemma MissSem(c: Config, s: State, i: nat, job: Job, domain: string) returns (ls: seq<Label>, t: State)
    requires i < |s.workers| && s.workers[i] == Seeking(job, domain, AtEntry) && LockFree(s.sync)
    requires domain !in s.sync.registry
    ensures Leads(c, s, ls, [], t) && Beside(s, t, i, Seeking(job, domain, Locking))
    ensures t.sync == s.sync.(writing := true) && t.log == s.log
  {
    t := QuietAct(c, s, i, RLock);
    t := ThenQuietAct(c, s, [Work(i, RLock)], [], t, i, Look);
    ls := [Work(i, RLock)] + [Work(i, Look)];
    t := ThenQuietAct(c, s, ls, [], t, i, Announce);
    ls := ls + [Work(i, Announce)];
  }

  lemma MakeSem(c: Config, s: State, i: nat, job: Job, domain: string) returns (ls: seq<Label>, t: State)
    requires i < |s.workers| && s.workers[i] == Seeking(job, domain, Locking)
    requires s.sync.readers == 0 && s.sync.writing && domain !in s.sync.registry
    ensures Leads(c, s, ls, [], t) && Beside(s, t, i, Waiting(job, domain, |s.sync.sems|))
    ensures t.sync == WithSem(s.sync, domain).(writing := false) && t.log == s.log
  {
    t := QuietAct(c, s, i, Lock);
    t := ThenQuietAct(c, s, [Work(i, Lock)], [], t, i, Recheck);
    ls := [Work(i, Lock)] + [Work(i, Recheck)];
    t := ThenQuietAct(c, s, ls, [], t, i, Publish);
    ls := ls + [Work(i, Publish)];
  }

  /** getDomainSemaphore, found or created. */
  lemma Seek(c: Config, s: State, i: nat, job: Job, domain: string) returns (ls: seq<Label>, t: State)
    requires i < |s.workers| && s.workers[i] == Seeking(job, domain, AtEntry) && LockFree(s.sync)
    ensures Leads(c, s, ls, [], t) && Beside(s, t, i, Waiting(job, domain, SemFor(s.sync, domain)))
    ensures t.sync == WithSem(s.sync, domain) && t.log == s.log
  {
    if domain in s.sync.registry {
      ls, t := FindSem(c, s, i, job, domain);
    } else {
      var ms, u := MissSem(c, s, i, job, domain);
      var ns;
      ns, t := MakeSem(c, u, i, job, domain);
      LeadsOn(c, s, ms, [], u, ns, [], t);
      ls := ms + ns;
    }
  }

  /** One more worker in the semaphore. */
  function Taking(y: Sync, k: nat): Sync
    requires k < |y.sems|
  {
    y.(sems := y.sems[k := y.sems[k].(used := y.sems[k].used + 1)])
  }

  lemma Send(c: Config, s: State, i: nat, w: Worker) returns (t: State)
    requires i < |s.workers| && s.workers[i] == w && w.Waiting?
    requires w.sem < |s.sync.sems| && s.sync.sems[w.sem].used < c.maxPerDomain
    ensures Leads(c, s, [Work(i, Acquire)], [], t) && Beside(s, t, i, Calling(w.job, w.domain, w.sem))
    ensures t.sync == Taking(s.sync, w.sem) && t.log == s.log + [Called(w.job.id, w.job.attempt)]
  {
    t := QuietAct(c, s, i, Acquire);
  }

  lemma Answer(c: Config, s: State, i: nat, w: Worker, env: Env) returns (t: State)
    requires i < |s.workers| && s.workers[i] == w && w.Calling? && Runnable(w.job) && env.Valid()
    ensures Leads(c, s, [Work(i, Return(env.outcome, env.draw))], [], t)
    ensures Beside(s, t, i, Carry(w.job.id, Settle(w.job, env.outcome, env.draw), Some(w.sem)))
    ensures t.sync == s.sync && t.log == s.log + [Ended(w.job.id, env.outcome, env.draw)]
  {
    t := QuietAct(c, s, i, Return(env.outcome, env.draw));
  }

  /** The handler's store calls. */
  lemma Conclude(c: Config, s: State, i: nat, id: Id, v: Verdict, held: Option<nat>, first: Net, second: Net)
    returns (ls: seq<Label>, t: State)
    requires i < |s.workers| && s.workers[i] == Carry(id, v, held)
    ensures Leads(c, s, ls, OpsOf(id, v, first, second), t)
    ensures t.workers == s.workers[i := Finish(held)] && t.sync == s.sync && t.log == s.log && Aside(s, t)
  {
    ls := FinalLabels(i, v, first, second);
    HandlersFollowProtocol(c, s, i, id, v, held, first, second);
    t := Run(c, s, ls);
  }

  /** What the deferred releases give back. */
  function Released(y: Sync, w: Worker): Sync
    requires 0 < y.admitted && (w.Unwinding? ==> w.sem < |y.sems| && 0 < y.sems[w.sem].used)
  {
    if w.Unwinding? then
      y.(admitted := y.admitted - 1, sems := y.sems[w.sem := y.sems[w.sem].(used := y.sems[w.sem].used - 1)])
    else y.(admitted := y.admitted - 1)
  }

  lemma LeaveAll(c: Config, s: State, i: nat) returns (ls: seq<Label>, t: State)
    requires i < |s.workers| && (s.workers[i].Leaving? || s.workers[i].Unwinding?) && 0 < s.sync.admitted
    requires s.workers[i].Unwinding? ==> s.workers[i].sem < |s.sync.sems| && 0 < s.sync.sems[s.workers[i].sem].used
    ensures Leads(c, s, ls, [], t) && Beside(s, t, i, Idle) && t.log == s.log
    ensures t.sync == Released(s.sync, s.workers[i])
  {
    if s.workers[i].Leaving? {
      t := QuietAct(c, s, i, Release);
      ls := [Work(i, Release)];
    } else {
      t := QuietAct(c, s, i, Unwind);
      t := ThenQuietAct(c, s, [Work(i, Unwind)], [], t, i, Release);
      ls := [Work(i, Unwind)] + [Work(i, Release)];
    }
  }

  lemma Exchange(c: Config, s: State, i: nat, w: Worker, env: Env) returns (ls: seq<Label>, t: State)
    requires i < |s.workers| && s.workers[i] == w && w.Waiting? && Runnable(w.job) && env.Valid()
    requires w.sem < |s.sync.sems| && s.sync.sems[w.sem].used < c.maxPerDomain
    ensures Leads(c, s, ls, [], t)
    ensures Beside(s, t, i, Carry(w.job.id, Settle(w.job, env.outcome, env.draw), Some(w.sem)))
    ensures t.sync == Taking(s.sync, w.sem) && t.log == s.log + Exchanged(w.job, env)
  {
    var u := Send(c, s, i, w);
    t := Answer(c, u, i, u.workers[i], env);
    ls := [Work(i, Acquire)] + [Work(i, Return(env.outcome, env.draw))];
    Joined(c, s, [Work(i, Acquire)], u, [Work(i, Return(env.outcome, env.draw))], [], t);
  }

  /** The part under the domain semaphore, from the send to the last store call. */
  lemma Deliver(c: Config, s: State, i: nat, w: Worker, env: Env) returns (ls: seq<Label>, t: State)
    requires i < |s.workers| && s.workers[i] == w && w.Waiting? && Runnable(w.job) && env.Valid()
    requires w.sem < |s.sync.sems| && s.sync.sems[w.sem].used < c.maxPerDomain
    ensures Leads(c, s, ls, OpsOf(w.job.id, Settle(w.job, env.outcome, env.draw), env.first, env.second), t)
    ensures t.workers == s.workers[i := Unwinding(w.sem)] && Aside(s, t)
    ensures t.sync == Taking(s.sync, w.sem) && t.log == s.log + Exchanged(w.job, env)
  {
    var v := Settle(w.job, env.outcome, env.draw);
    var u, ms;
    ls, u := Exchange(c, s, i, w, env);
    ms, t := Conclude(c, u, i, w.job.id, v, Some(w.sem), env.first, env.second);
    Joined(c, s, ls, u, ms, OpsOf(w.job.id, v, env.first, env.second), t);
    ls := ls + ms;
  }

  // ----- a whole execution

  /** Every semaphore, present or future, has room. */
  ghost predicate Roomy(c: Config, y: Sync) {
    && 0 < c.maxPerDomain && LockFree(y)
    && (forall d | d in y.registry :: y.registry[d] < |y.sems|)
    && (forall k | 0 <= k < |y.sems| :: y.sems[k].used < c.maxPerDomain)
  }

  /** The semaphores after an execution: as before, with one more if the domain is new. */
  function SyncWith(c: Config, y: Sync, r: Loaded): Sync {
    if r.Found? && c.domain(r.job.url).Some? then WithSem(y, c.domain(r.job.url).value) else y
  }

  /** From getDomainSemaphore to the last store call, or to the stop signal. */
  lemma InDomain(c: Config, s: State, i: nat, job: Job, domain: string, env: Env) returns (ls: seq<Label>, t: State)
    requires i < |s.workers| && s.workers[i] == Seeking(job, domain, AtEntry) && Roomy(c, s.sync)
    requires Runnable(job) && env.Valid() && (env.quitDomain ==> s.phase != Serving) && 0 < s.sync.admitted
    ensures var ops := if env.quitDomain then [] else VerdictOps(job, env);
      Leads(c, s, ls, ops, t)
    ensures t.log == s.log + (if env.quitDomain then [] else Exchanged(job, env))
    ensures var k, y := SemFor(s.sync, domain), WithSem(s.sync, domain);
      && t.workers == s.workers[i := if env.quitDomain then Leaving else Unwinding(k)] && Aside(s, t)
      && t.sync == if env.quitDomain then y else Taking(y, k)
  {
    var k := SemFor(s.sync, domain);
    var u;
    ls, u := Seek(c, s, i, job, domain);
    if env.quitDomain {
      t := ThenQuietAct(c, s, ls, [], u, i, Quit);
      ls := ls + [Work(i, Quit)];
    } else {
      var ops := OpsOf(job.id, Settle(job, env.outcome, env.draw), env.first, env.second);
      var ms;
      ms, t := Deliver(c, u, i, u.workers[i], env);
      Joined(c, s, ls, u, ms, ops, t);
      ls := ls + ms;
    }
  }

  /** What remains after the load, up to the releases. */
  lemma AfterLoading(c: Config, s: State, i: nat, r: Loaded, env: Env) returns (ls: seq<Label>, t: State)
    requires r.Found? ==> Runnable(r.job)
    requires i < |s.workers| && s.workers[i] == AfterLoad(c, r, env.draw) && Roomy(c, s.sync) && 0 < s.sync.admitted
    requires env.Valid() && !env.quitGlobal && (env.quitDomain ==> s.phase != Serving)
    ensures Leads(c, s, ls, ExecutionOps(c, r, env), t)
    ensures t.log == s.log + LaterEvents(c, r, env)
    ensures |t.workers| == |s.workers| && t.workers == s.workers[i := t.workers[i]] && Aside(s, t)
    ensures Releasable(t.workers[i], SyncWith(c, s.sync, r), t.sync)
  {
    if !r.Found? {
      ls, t := [], s;
    } else {
      match c.domain(r.job.url)
      case None => ls, t := Conclude(c, s, i, r.job.id, Settle(r.job, BadUrl, env.draw), None, env.first, env.second);
      case Some(domain) => ls, t := InDomain(c, s, i, r.job, domain, env);
    }
  }

  /** The worker is about to make its releases; apart from the semaphore it holds, the limits are `y`. */
  predicate Releasable(w: Worker, y: Sync, now: Sync) {
    (w.Leaving? && now == y) || (w.Unwinding? && w.sem < |y.sems| && now == Taking(y, w.sem))
  }

  lemma ReleasedAll(w: Worker, y: Sync, now: Sync)
    requires Releasable(w, y, now) && 0 < y.admitted
    ensures Released(now, w) == y.(admitted := y.admitted - 1)
  {
    if w.Unwinding? {
      assert now.sems[w.sem := y.sems[w.sem]] == y.sems;
    }
  }

  /** What remains after the load, releases included. */
  lemma ToTheEnd(c: Config, s: State, i: nat, r: Loaded, env: Env) returns (ls: seq<Label>, t: State)
    requires r.Found? ==> Runnable(r.job)
    requires i < |s.workers| && s.workers[i] == AfterLoad(c, r, env.draw) && Roomy(c, s.sync) && 0 < s.sync.admitted
    requires env.Valid() && !env.quitGlobal && (env.quitDomain ==> s.phase != Serving)
    ensures Leads(c, s, ls, ExecutionOps(c, r, env), t)
    ensures t.log == s.log + LaterEvents(c, r, env)
    ensures t.workers == s.workers[i := Idle] && Aside(s, t)
    ensures t.sync == SyncWith(c, s.sync, r).(admitted := s.sync.admitted - 1)
  {
    var u;
    ls, u := AfterLoading(c, s, i, r, env);
    ReleasedAll(u.workers[i], SyncWith(c, s.sync, r), u.sync);
    var exit;
    exit, t := LeaveAll(c, u, i);
    LeadsOn(c, s, ls, ExecutionOps(c, r, env), u, exit, [], t);
    ls := ls + exit;
    assert ExecutionOps(c, r, env) + [] == ExecutionOps(c, r, env);
  }

  /** The execution once it does not see the stop signal at the global semaphore. */
  lemma Undisturbed(c: Config, s: State, i: nat, id: Id, r: Loaded, env: Env) returns (ls: seq<Label>, t: State)
    requires i < |s.workers| && s.workers[i] == Taken(id) && s.sync.admitted < c.maxInflight && Roomy(c, s.sync)
    requires (id in s.store.jobs ==> Runnable(s.store.jobs[id])) && r == Loading(s.store, id, env.load)
    requires env.Valid() && !env.quitGlobal && (env.quitDomain ==> s.phase != Serving)
    ensures Leads(c, s, ls, ExecutionOps(c, r, env), t)
    ensures t.log == s.log + ExecutionEvents(c, r, env)
    ensures t.workers == s.workers[i := Idle] && t.sync == SyncWith(c, s.sync, r) && Aside(s, t)
  {
    var u, rest;
    ls, u := Enter(c, s, i, id, env.load, env.draw);
    rest, t := ToTheEnd(c, u, i, r, env);
    Joined(c, s, ls, u, rest, ExecutionOps(c, r, env), t);
    ls := ls + rest;
    AdmittedBack(c, s.sync, r);
    EventsInTwoParts(c, s.log, r, env);
  }

  lemma AdmittedBack(c: Config, y: Sync, r: Loaded)
    ensures SyncWith(c, y.(admitted := y.admitted + 1), r).(admitted := y.admitted) == SyncWith(c, y, r)
  {
  }

  lemma EventsInTwoParts(c: Config, log: seq<EventOk>, r: Loaded, env: Env)
    requires env.Valid() && !env.quitGlobal
    ensures log + LoadEvents(c, r, env.draw) + LaterEvents(c, r, env) == log + ExecutionEvents(c, r, env)
  {
  }

  /** An execution that nobody disturbs is a run of the protocol's worker: it makes the store calls and sends the
      requests that ExecuteJob makes and sends, and leaves the worker idle and the semaphores as they were, but for a
      new one. */
  lemma ExecutionFollowsProtocol(c: Config, s: State, i: nat, id: Id, env: Env) returns (ls: seq<Label>, t: State)
    requires i < |s.workers| && s.workers[i] == Taken(id) && s.sync.admitted < c.maxInflight && Roomy(c, s.sync)
    requires (id in s.store.jobs ==> Runnable(s.store.jobs[id])) && env.Valid()
    requires env.quitGlobal || env.quitDomain ==> s.phase != Serving
    ensures var r := Loading(s.store, id, env.load);
      && Leads(c, s, ls, ExecutionOps(c, r, env), t)
      && t.log == s.log + ExecutionEvents(c, r, env)
      && Requests(t.log) == Requests(s.log) + ExecutionSends(c, r, env)
      && t.workers == s.workers[i := Idle] && Aside(s, t)
      && t.sync == if env.quitGlobal then s.sync else SyncWith(c, s.sync, r)
  {
    RequestsOfExecution(c, s.log, Loading(s.store, id, env.load), env);
    if env.quitGlobal {
      t := QuietAct(c, s, i, Quit);
      ls := [Work(i, Quit)];
    } else {
      ls, t := Undisturbed(c, s, i, id, Loading(s.store, id, env.load), env);
    }
  }

  // ----- on the text store

  lemma LoadingIsLookup(text: TextCodec, db: Db, st: Store, id: Id, net: Net)
    requires Agrees(text, db, st)
    ensures Lookup(text, db, id, net) == Loading(st, id, net)
  {
    if id in st.jobs {
      assert HashReads(text, db.hashes[id], st.jobs[id]);
    }
  }

  /** In every reachable state, a worker that has taken an ID from the queue and is not disturbed does what ExecuteJob
      does on any text store that agrees with the map of jobs, and the two stores agree again afterwards. */
  lemma ExecuteJobRefines(c: Config, text: TextCodec, s: State, db: Db, i: nat, id: Id, env: Env)
    returns (ls: seq<Label>, t: State)
    requires text.Faithful() && Reachable(c, s) && Agrees(text, db, s.store) && env.Valid()
    requires i < |s.workers| && s.workers[i] == Taken(id) && 0 < c.maxPerDomain && LockFree(s.sync)
    requires forall k | 0 <= k < |s.sync.sems| :: s.sync.sems[k].used < c.maxPerDomain
    requires env.quitGlobal || env.quitDomain ==> s.phase != Serving
    ensures var r := Lookup(text, db, id, env.load);
      && (r.Found? ==> Runnable(r.job))
      && Leads(c, s, ls, ExecutionOps(c, r, env), t)
      && t.log == s.log + ExecutionEvents(c, r, env)
      && Requests(t.log) == Requests(s.log) + ExecutionSends(c, r, env)
      && t.workers == s.workers[i := Idle] && Aside(s, t)
      && Agrees(text, ExecDbAll(text, db, ExecutionOps(c, r, env)), t.store)
  {
    LoadingIsLookup(text, db, s.store, id, env.load);
    ReadyToExecute(c, s, i, id);
    ls, t := ExecutionFollowsProtocol(c, s, i, id, env);
    ReachableInv(c, s);
    CallsAgree(c, text, s, db, ls);
  }

  lemma ReadyToExecute(c: Config, s: State, i: nat, id: Id)
    requires Reachable(c, s) && i < |s.workers| && s.workers[i] == Taken(id)
    requires 0 < c.maxPerDomain && LockFree(s.sync)
    requires forall k | 0 <= k < |s.sync.sems| :: s.sync.sems[k].used < c.maxPerDomain
    ensures s.sync.admitted < c.maxInflight && Roomy(c, s.sync) && (id in s.store.jobs ==> Runnable(s.store.jobs[id]))
  {
    ReachableInv(c, s);
    GlobalNeverBlocks(c, s, i);
    if id in s.store.jobs { assert StoredOk(BooksOf(s), id); }
  }

  // ----- a whole poll

  /** The labels of a poll that fetched `ids`. */
  function WholePoll(nowMs: int, ids: seq<Id>, nets: seq<Net>): seq<Label>
    requires |ids| <= |nets|
  {
    [Fetch(nowMs, ids)] + Schedulers.PollLabels(ids, nets) + [EndBatch]
  }

  lemma WholePollLeads(c: Config, s: State, nowMs: int, ids: seq<Id>, nets: seq<Net>) returns (t: State)
    requires Enabled(c, s, Fetch(nowMs, ids)) && |ids| <= |nets| && |s.queue| + |ids| <= c.QueueCapacity()
    ensures Leads(c, s, WholePoll(nowMs, ids, nets), Schedulers.PollOps(ids, nets), t)
    ensures t.sched == Polling && t.queue == s.queue + Schedulers.Passed(ids, nets) && t.workers == s.workers
  {
    var u := Apply(c, s, Fetch(nowMs, ids));
    OneLabel(c, s, Fetch(nowMs, ids));
    var v := LoopLeads(c, u, ids, nets);
    t := Apply(c, v, EndBatch);
    OneLabel(c, v, EndBatch);
    var ops := Schedulers.PollOps(ids, nets);
    Joined(c, s, [Fetch(nowMs, ids)], u, Schedulers.PollLabels(ids, nets), ops, v);
    LeadsOn(c, s, [Fetch(nowMs, ids)] + Schedulers.PollLabels(ids, nets), ops, v, [EndBatch], [], t);
    assert ops + [] == ops;
  }

  /** A poll that finds room in the queue for its batch is a run of the protocol's scheduler: it fetches what the sorted
      set answers, makes the store calls of Poll, queues what Poll dispatches, and the stores agree afterwards. */
  lemma PollRefines(c: Config, text: TextCodec, s: State, db: Db, nowMs: int, nets: seq<Net>) returns (t: State)
    requires text.Faithful() && Reachable(c, s) && Agrees(text, db, s.store)
    requires s.sched.Polling? && s.phase == Serving && Int64(nowMs)
    requires c.batch <= |nets| && |s.queue| + |Range(db.schedule, Binary64.OfInt(nowMs), c.batch)| <= c.QueueCapacity()
    ensures var ids := Range(db.schedule, Binary64.OfInt(nowMs), c.batch);
      && |ids| <= c.batch
      && Leads(c, s, WholePoll(nowMs, ids, nets), Schedulers.PollOps(ids, nets), t)
      && t.sched == Polling && t.queue == s.queue + Schedulers.Passed(ids, nets) && t.workers == s.workers
      && Agrees(text, ExecDbAll(text, db, Schedulers.PollOps(ids, nets)), t.store)
  {
    var ids := Range(db.schedule, Binary64.OfInt(nowMs), c.batch);
    AgreeingReads(text, db, s.store, "", Binary64.OfInt(nowMs), c.batch, ids);
    t := WholePollLeads(c, s, nowMs, ids, nets);
    ReachableInv(c, s);
    CallsAgree(c, text, s, db, WholePoll(nowMs, ids, nets));
  }

  lemma LoopLeads(c: Config, s: State, ids: seq<Id>, nets: seq<Net>) returns (t: State)
    requires s.sched == Draining(ids) && |ids| <= |nets| && |s.queue| + |ids| <= c.QueueCapacity()
    ensures Leads(c, s, Schedulers.PollLabels(ids, nets), Schedulers.PollOps(ids, nets), t)
    ensures t.sched == Draining([]) && t.queue == s.queue + Schedulers.Passed(ids, nets) && t.workers == s.workers
  {
    var ls := Schedulers.PollFollowsProtocol(c, s, ids, nets);
    t := Run(c, s, ls);
  }
}
