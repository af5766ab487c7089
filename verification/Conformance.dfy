/**
 Every run of the protocol, however its participants interleave, does what the sequential code does: each poll makes
 the store calls and dispatches of Poll, and each execution those of ExecuteJob, for some faults and answers.
 */
module Conformance {
  import opened Jobs
  import opened Lifecycle
  import opened StoreModel
  import opened Protocol
  import opened Claims
  import opened Records
  import opened Safety
  import opened Runs
  import opened RedisStores
  import opened Executors
  import opened Schedulers
  import opened Backlogs
  import opened Refinements

  // ----- polls

  /** The labels of a run between the fetch of a batch and the end of its loop, whatever else happens in between. */
  predicate InLoop(l: Label) {
    !l.Fetch? && !l.EndBatch? && !l.Crash? && !l.GiveUp?
  }

  /** How the ZREMs along a run go. */
  function ClaimNets(ls: seq<Label>): seq<Net>
    decreases |ls|
  {
    if ls == [] then [] else (if ls[0].Claim? then [ls[0].net] else []) + ClaimNets(ls[1..])
  }

  /** The store calls of the scheduler along a run. */
  ghost function SchedulerOps(c: Config, s: State, ls: seq<Label>): seq<Op>
    requires Valid(c, s, ls)
    decreases |ls|
  {
    if ls == [] then []
    else (if ls[0].Claim? then OpList(OpOf(c, s, ls[0])) else []) + SchedulerOps(c, Apply(c, s, ls[0]), ls[1..])
  }

  /** What a run of the loop does from a state in the middle of it. */
  ghost predicate LoopDoes(c: Config, s: State, ls: seq<Label>, tail: seq<Id>)
    requires Valid(c, s, ls)
  {
    var nets := ClaimNets(ls);
    && |nets| == |tail|
    && SchedulerOps(c, s, ls) == PollOps(tail, nets)
    && Dispatched(c, s, ls) == HandSeq(s.sched) + Passed(tail, nets)
  }

  lemma LoopClaim(c: Config, s: State, net: Net, ls: seq<Label>)
    requires Enabled(c, s, Claim(net)) && Valid(c, Apply(c, s, Claim(net)), ls) && Valid(c, s, [Claim(net)] + ls)
    requires LoopDoes(c, Apply(c, s, Claim(net)), ls, s.sched.tail[1..])
    ensures LoopDoes(c, s, [Claim(net)] + ls, s.sched.tail)
  {
    assert ([Claim(net)] + ls)[1..] == ls;
    var nets := [net] + ClaimNets(ls);
    assert ClaimNets([Claim(net)] + ls) == nets && nets[1..] == ClaimNets(ls);
    PollFirst(s.sched.tail, nets);
  }

  lemma LoopOther(c: Config, s: State, l: Label, ls: seq<Label>)
    requires Enabled(c, s, l) && InLoop(l) && !l.Claim? && Valid(c, Apply(c, s, l), ls) && Valid(c, s, [l] + ls)
    requires InBatch(s.sched) && LoopDoes(c, Apply(c, s, l), ls, Tail(s.sched))
    ensures LoopDoes(c, s, [l] + ls, Tail(s.sched))
  {
    OtherCalls(c, s, l, ls);
    OtherHand(c, s, l);
  }

  lemma OtherCalls(c: Config, s: State, l: Label, ls: seq<Label>)
    requires Enabled(c, s, l) && !l.Claim? && Valid(c, Apply(c, s, l), ls) && Valid(c, s, [l] + ls)
    ensures ClaimNets([l] + ls) == ClaimNets(ls)
    ensures SchedulerOps(c, s, [l] + ls) == SchedulerOps(c, Apply(c, s, l), ls)
    ensures Dispatched(c, s, [l] + ls) ==
            (if l.Enqueue? then [s.sched.id] else []) + Dispatched(c, Apply(c, s, l), ls)
  {
    assert ([l] + ls)[1..] == ls;
  }

  lemma OtherHand(c: Config, s: State, l: Label)
    requires Enabled(c, s, l) && InLoop(l) && !l.Claim? && InBatch(s.sched)
    ensures HandSeq(s.sched) == (if l.Enqueue? then [s.sched.id] else []) + HandSeq(Apply(c, s, l).sched)
  {
  }

  lemma LoopMoves(c: Config, s: State, l: Label)
    requires Enabled(c, s, l) && InLoop(l) && InBatch(s.sched)
    ensures InBatch(Apply(c, s, l).sched)
    ensures Tail(Apply(c, s, l).sched) == if l.Claim? then s.sched.tail[1..] else Tail(s.sched)
    ensures l.Claim? ==> s.sched.tail == Tail(s.sched)
  {
  }

  lemma {:induction false} EveryLoop(c: Config, s: State, ls: seq<Label>)
    requires Valid(c, s, ls) && (forall k | 0 <= k < |ls| :: InLoop(ls[k])) && InBatch(s.sched)
    requires Run(c, s, ls).sched == Draining([])
    ensures LoopDoes(c, s, ls, Tail(s.sched))
    decreases |ls|
  {
    if ls != [] {
      var l, rest := ls[0], ls[1..];
      assert forall k | 0 <= k < |rest| :: rest[k] == ls[k + 1];
      assert InLoop(l);
      assert ls == [l] + rest;
      LoopMoves(c, s, l);
      EveryLoop(c, Apply(c, s, l), rest);
      if l.Claim? { LoopClaim(c, s, l.net, rest); } else { LoopOther(c, s, l, rest); }
    }
  }

  /** In every run from the fetch of a batch to the end of the loop over it, with workers, clients and a full queue in
      between, the scheduler makes the store calls of Poll and queues the IDs that Poll dispatches. */
  lemma EveryPoll(c: Config, s: State, ls: seq<Label>, ids: seq<Id>)
    requires s.sched == Draining(ids) && Valid(c, s, ls) && (forall k | 0 <= k < |ls| :: InLoop(ls[k]))
    requires Run(c, s, ls).sched == Draining([])
    ensures var nets := ClaimNets(ls);
      && |nets| == |ids|
      && SchedulerOps(c, s, ls) == PollOps(ids, nets)
      && Dispatched(c, s, ls) == Passed(ids, nets)
  {
    EveryLoop(c, s, ls);
  }

  // ----- executions

  /** The store calls of worker i along a run, and its requests. */
  ghost function WorkerOps(c: Config, s: State, ls: seq<Label>, i: nat): seq<Op>
    requires Valid(c, s, ls)
    decreases |ls|
  {
    if ls == [] then []
    else
      (if ls[0].Work? && ls[0].i == i then OpList(OpOf(c, s, ls[0])) else [])
          + WorkerOps(c, Apply(c, s, ls[0]), ls[1..], i)
  }

  ghost function WorkerSends(c: Config, s: State, ls: seq<Label>, i: nat): seq<(Id, int)>
    requires Valid(c, s, ls)
    decreases |ls|
  {
    if ls == [] then []
    else
      (if ls[0].Work? && ls[0].i == i then SendsOf(c, s, ls[0]) else [])
          + WorkerSends(c, Apply(c, s, ls[0]), ls[1..], i)
  }

  function SendsOf(c: Config, s: State, l: Label): seq<(Id, int)> {
    match EventOf(c, s, l)
    case None => []
    case Some(e) => if e.Called? then [(e.id, e.attempt)] else []
  }

  /** What GetJob answers worker i along a run, at the moment it asks. */
  ghost function ReadAlong(c: Config, s: State, ls: seq<Label>, i: nat): Loaded
    requires Valid(c, s, ls)
    decreases |ls|
  {
    if ls == [] then NotFound
    else if ls[0].Work? && ls[0].i == i && ls[0].act.Load? then Loading(s.store, s.workers[i].id, ls[0].act.net)
    else ReadAlong(c, Apply(c, s, ls[0]), ls[1..], i)
  }

  /** What is still to come of an execution, from where its worker is. */
  function OpsFrom(c: Config, w: Worker, r: Loaded, env: Env): seq<Op>
    requires env.Valid() && (r.Found? ==> Runnable(r.job))
  {
    match w
    case Taken(_) => ExecutionOps(c, r, env)
    case Admitted(_) => ExecutionOps(c, r, env.(quitGlobal := false))
    case Seeking(job, _, _) => OpsInDomain(job, env)
    case Waiting(job, _, _) => OpsInDomain(job, env)
    case Calling(job, _, _) => OpsInDomain(job, env.(quitDomain := false))
    case Saving(job, again, _) =>
      Effects(env.first, Put(job))
      + (if again && env.first.Ok() then Effects(env.second, Schedule(job.id, job.dueAtMs)) else [])
    case Scheduling(job, _) => Effects(env.second, Schedule(job.id, job.dueAtMs))
    case Dropping(id, _) => Effects(env.first, Drop(id))
    case _ => []
  }

  function OpsInDomain(job: Job, env: Env): seq<Op> {
    if env.quitDomain || !Runnable(job) then [] else VerdictOps(job, env)
  }

  function SendsFrom(c: Config, w: Worker, r: Loaded, env: Env): seq<(Id, int)> {
    match w
    case Taken(_) => ExecutionSends(c, r, env)
    case Admitted(_) => ExecutionSends(c, r, env.(quitGlobal := false))
    case Seeking(job, _, _) => if env.quitDomain then [] else [(job.id, job.attempt)]
    case Waiting(job, _, _) => if env.quitDomain then [] else [(job.id, job.attempt)]
    case _ => []
  }

  /** One action of the worker, before what is still to come with `r'` and `env'`. */
  ghost predicate Precedes(c: Config, s: State, i: nat, a: Act, r: Loaded, env: Env, r': Loaded, env': Env)
    requires Enabled(c, s, Work(i, a))
  {
    var w, w' := s.workers[i], WorkerAfter(c, s, s.workers[i], a);
    && env.Valid() && env'.Valid() && (r.Found? ==> Runnable(r.job)) && (r'.Found? ==> Runnable(r'.job))
    && OpsFrom(c, w, r, env) == OpList(OpOf(c, s, Work(i, a))) + OpsFrom(c, w', r', env')
    && SendsFrom(c, w, r, env) == SendsOf(c, s, Work(i, a)) + SendsFrom(c, w', r', env')
  }

  lemma LoadPrecedes(c: Config, s: State, i: nat, net: Net, draw: DrawOk, r': Loaded, env': Env) returns (env: Env)
    requires Enabled(c, s, Work(i, Load(net, draw))) && env'.Valid() && (r'.Found? ==> Runnable(r'.job))
    ensures Precedes(c, s, i, Load(net, draw), Loading(s.store, s.workers[i].id, net), env, r', env')
  {
    env := env'.(load := net, draw := if LoadEnds(c, s, i, net) then draw else env'.draw);
  }

  predicate LoadEnds(c: Config, s: State, i: nat, net: Net) {
    i < |s.workers| && s.workers[i].Admitted? && s.workers[i].id in s.store.jobs && net.Ok()
    && c.domain(s.store.jobs[s.workers[i].id].url).None?
  }

  lemma ReturnPrecedes(c: Config, s: State, i: nat, o: Outcome, d: DrawOk, r: Loaded, env': Env) returns (env: Env)
    requires Enabled(c, s, Work(i, Return(o, d))) && env'.Valid() && (r.Found? ==> Runnable(r.job))
    ensures Precedes(c, s, i, Return(o, d), r, env, r, env')
  {
    env := env'.(outcome := o, draw := d);
  }

  lemma EntryPrecedes(c: Config, s: State, i: nat, a: Act, r: Loaded, env': Env) returns (env: Env)
    requires Enabled(c, s, Work(i, a)) && env'.Valid() && (r.Found? ==> Runnable(r.job))
    requires a.Acquire? || a.Quit? || a.Admit?
    ensures Precedes(c, s, i, a, r, env, r, env')
  {
    match a
    case Acquire => env := env'.(quitDomain := false);
    case Admit => env := env'.(quitGlobal := false);
    case Quit => env := if s.workers[i].Taken? then env'.(quitGlobal := true) else env'.(quitDomain := true);
  }

  lemma LastCallPrecedes(c: Config, s: State, i: nat, a: Act, r: Loaded, env': Env) returns (env: Env)
    requires Enabled(c, s, Work(i, a)) && env'.Valid() && (r.Found? ==> Runnable(r.job))
    requires a.Save? || a.Reschedule? || a.Discard?
    ensures Precedes(c, s, i, a, r, env, r, env')
  {
    env := if a.Reschedule? then env'.(second := a.net) else env'.(first := a.net);
  }

  lemma QuietPrecedes(c: Config, s: State, i: nat, a: Act, r: Loaded, env: Env)
    requires Enabled(c, s, Work(i, a)) && env.Valid() && (r.Found? ==> Runnable(r.job))
    requires a.RLock? || a.Look? || a.Announce? || a.Lock? || a.Recheck? || a.Publish? || a.Unwind? || a.Release?
    ensures Precedes(c, s, i, a, r, env, r, env)
  {
  }

  lemma ActPrecedes(c: Config, s: State, i: nat, a: Act, r': Loaded, env': Env) returns (env: Env)
    requires Enabled(c, s, Work(i, a)) && !a.Take? && env'.Valid() && (r'.Found? ==> Runnable(r'.job))
    ensures Precedes(c, s, i, a, if a.Load? then Loading(s.store, s.workers[i].id, a.net) else r', env, r', env')
  {
    match a
    case Load(net, draw) => env := LoadPrecedes(c, s, i, net, draw, r', env');
    case Return(o, d) => env := ReturnPrecedes(c, s, i, o, d, r', env');
    case Acquire => env := EntryPrecedes(c, s, i, a, r', env');
    case Quit => env := EntryPrecedes(c, s, i, a, r', env');
    case Admit => env := EntryPrecedes(c, s, i, a, r', env');
    case Save(_) => env := LastCallPrecedes(c, s, i, a, r', env');
    case Reschedule(_) => env := LastCallPrecedes(c, s, i, a, r', env');
    case Discard(_) => env := LastCallPrecedes(c, s, i, a, r', env');
    case _ =>
      env := env';
      QuietPrecedes(c, s, i, a, r', env');
  }

  /** Nothing but worker i takes part in its execution. */
  lemma OthersAside(c: Config, s: State, l: Label, i: nat)
    requires Enabled(c, s, l) && !l.Crash? && !(l.Work? && l.i == i) && i < |s.workers|
    ensures |Apply(c, s, l).workers| == |s.workers| && Apply(c, s, l).workers[i] == s.workers[i]
  {
  }

  /** The run neither crashes nor lets worker i take another job, and ends with its execution over. */
  ghost predicate OneExecution(c: Config, s: State, ls: seq<Label>, i: nat)
    requires Valid(c, s, ls)
  {
    && (forall k | 0 <= k < |ls| :: !ls[k].Crash? && ls[k] != Work(i, Take))
    && i < |Run(c, s, ls).workers| && (Run(c, s, ls).workers[i].Idle? || Run(c, s, ls).workers[i].Exited?)
  }

  lemma {:induction false} FromHere(c: Config, s: State, ls: seq<Label>, i: nat) returns (env: Env)
    requires Valid(c, s, ls) && OneExecution(c, s, ls, i) && i < |s.workers|
    ensures env.Valid()
    ensures var r := ReadAlong(c, s, ls, i);
      && (r.Found? ==> Runnable(r.job))
      && WorkerOps(c, s, ls, i) == OpsFrom(c, s.workers[i], r, env)
      && WorkerSends(c, s, ls, i) == SendsFrom(c, s.workers[i], r, env)
    decreases |ls|
  {
    if ls == [] {
      env := Env(Done, Draw(0, 0, 0), Errored(""), Done, Done, false, false);
    } else {
      var l, rest := ls[0], ls[1..];
      assert forall k | 0 <= k < |rest| :: rest[k] == ls[k + 1];
      assert !ls[0].Crash? && ls[0] != Work(i, Take);
      env := FromHere(c, Apply(c, s, l), rest, i);
      if l.Work? && l.i == i {
        env := ActPrecedes(c, s, i, l.act, ReadAlong(c, Apply(c, s, l), rest, i), env);
      } else {
        OthersAside(c, s, l, i);
      }
    }
  }

  /** Every execution of every run: from the moment a worker has taken an ID to the end of its execution, whatever
      the other participants do in between, it makes the store calls and sends the requests of ExecuteJob, for what
      GetJob answered it and for some faults, clock readings, answer and stop signal. */
  lemma EveryExecution(c: Config, s: State, ls: seq<Label>, i: nat, id: Id) returns (env: Env)
    requires Valid(c, s, ls) && i < |s.workers| && s.workers[i] == Taken(id) && OneExecution(c, s, ls, i)
    ensures env.Valid()
    ensures var r := ReadAlong(c, s, ls, i);
      && (r.Found? ==> Runnable(r.job))
      && WorkerOps(c, s, ls, i) == ExecutionOps(c, r, env)
      && WorkerSends(c, s, ls, i) == ExecutionSends(c, r, env)
  {
    env := FromHere(c, s, ls, i);
  }
}
