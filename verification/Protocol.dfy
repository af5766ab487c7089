/**
 The job lifecycle as a state machine: one scheduler goroutine, a pool of workers, API clients, the main
 goroutine's shutdown sequence, and the store they share. Every label is one atomic action of one
 participant; all nondeterminism (interleaving, faults, clocks, jitter, responses) is in the labels.
 */
module Protocol {
  import opened Jobs
  import opened Lifecycle
  import opened StoreModel
  import Binary64

  /** The limits of the configuration, and the domain `ExtractDomain` finds in a URL, if any. */
  datatype Config = Config(maxInflight: nat, maxPerDomain: nat, batch: nat, domain: string -> Option<string>) {
    predicate Valid() {
      0 < maxInflight && 0 < maxPerDomain && 0 < batch
    }

    function QueueCapacity(): nat {
      2 * maxInflight
    }
  }

  // ----- state

  /** The scheduler goroutine: in its select loop, in the loop over a fetched batch, blocked in Dispatch, gone. */
  datatype Scheduler =
    | Polling
    | Draining(tail: seq<Id>)
    | Handing(id: Id, tail: seq<Id>)
    | Stopped

  /** The steps of getDomainSemaphore. */
  datatype Search =
    | AtEntry    // about to take the read lock
    | Reading    // holds the read lock
    | Missed     // about to ask for the write lock
    | Locking    // keeps new readers out, waits for the old ones
    | Writing    // holds the write lock, about to check again
    | Creating   // holds the write lock, about to publish a new semaphore

  /** A worker goroutine, by what it does next. A semaphore is named by its index in `sems`. */
  datatype Worker =
    | Idle
    | Taken(id: Id)                                           // about to acquire the global semaphore
    | Admitted(id: Id)                                        // about to call GetJob
    | Seeking(job: Job, domain: string, at: Search)           // inside getDomainSemaphore
    | Waiting(job: Job, domain: string, sem: nat)             // about to acquire the domain semaphore
    | Calling(job: Job, domain: string, sem: nat)             // inside doWebhook
    | Saving(job: Job, again: bool, held: Option<nat>)        // about to call UpdateJob
    | Scheduling(job: Job, held: Option<nat>)                 // about to call AddToSchedule
    | Dropping(id: Id, held: Option<nat>)                     // about to call DeleteJob
    | Unwinding(sem: nat)                                     // about to release the domain semaphore
    | Leaving                                                 // about to release the global semaphore
    | Exited

  datatype Sem = Sem(domain: string, used: nat)

  /** Semaphores and the lock around `domainSems`: `sems` are the channels made so far, `registry` the map. */
  datatype Sync = Sync(admitted: nat, readers: nat, writing: bool, registry: map<string, nat>, sems: seq<Sem>)

  const FreshSync := Sync(0, 0, false, map[], [])

  /** The main goroutine's next action. The context is cancelled from `Stopping` on. */
  datatype Phase =
    | Serving
    | Stopping            // about to call sched.Stop
    | AwaitingScheduler   // in sched.Wait
    | ClosingStop         // about to close the executor's stopCh
    | ClosingQueue        // about to close jobQueue
    | AwaitingWorkers     // in exec.Wait
    | Finished
  {
    predicate StopClosed() { ClosingQueue? || AwaitingWorkers? || Finished? }

    predicate QueueClosed() { AwaitingWorkers? || Finished? }
  }

  /** `born` (each job as created) and `log` (webhook requests and outcomes) are history, not part of the program. */
  datatype State = State(
    store: Store,
    sched: Scheduler,
    queue: seq<Id>,
    workers: seq<Worker>,
    sync: Sync,
    phase: Phase,
    born: map<Id, NewJob>,
    log: seq<EventOk>)

  function IdleWorkers(c: Config): seq<Worker> {
    seq(c.maxInflight, i => Idle)
  }

  function Init(c: Config): State {
    State(EmptyStore, Polling, [], IdleWorkers(c), FreshSync, Serving, map[], [])
  }

  // ----- labels

  datatype Act =
    | Take
    | Admit
    | Load(net: Net, draw: DrawOk)
    | RLock
    | Look
    | Announce
    | Lock
    | Recheck
    | Publish
    | Acquire
    | Return(outcome: Outcome, draw: DrawOk)
    | Save(net: Net)
    | Reschedule(net: Net)
    | Discard(net: Net)
    | Unwind
    | Release
    | Quit

  datatype Label =
    | ApiCreate(job: Job, net: Net)
    | ApiDelete(id: Id, net: Net)
    | Fetch(nowMs: int, ids: seq<Id>)
    | Claim(net: Net)
    | Enqueue
    | GiveUp
    | EndBatch
    | LeaveLoop
    | Work(i: nat, act: Act)
    | Cancel
    | Advance
    | Crash

  // ----- enabledness

  predicate ActEnabled(c: Config, s: State, w: Worker, a: Act) {
    match a
    case Take => w.Idle? && s.queue != []
    case Admit => w.Taken? && s.sync.admitted < c.maxInflight
    case Load(net, draw) => w.Admitted? && (w.id in s.store.jobs ==> Runnable(s.store.jobs[w.id]))
    case RLock => w.Seeking? && w.at.AtEntry? && !s.sync.writing
    case Look => w.Seeking? && w.at.Reading? && 0 < s.sync.readers
    case Announce => w.Seeking? && w.at.Missed? && !s.sync.writing
    case Lock => w.Seeking? && w.at.Locking? && s.sync.readers == 0
    case Recheck => w.Seeking? && w.at.Writing?
    case Publish => w.Seeking? && w.at.Creating?
    case Acquire => w.Waiting? && w.sem < |s.sync.sems| && s.sync.sems[w.sem].used < c.maxPerDomain
    case Return(outcome, draw) => w.Calling? && Runnable(w.job) && outcome.Typed() && !outcome.BadUrl?
    case Save(net) => w.Saving?
    case Reschedule(net) => w.Scheduling?
    case Discard(net) => w.Dropping?
    case Unwind => w.Unwinding? && w.sem < |s.sync.sems| && 0 < s.sync.sems[w.sem].used
    case Release => w.Leaving? && 0 < s.sync.admitted
    case Quit => s.phase != Serving && (w.Idle? || w.Taken? || w.Waiting?)
  }

  ghost predicate Enabled(c: Config, s: State, l: Label) {
    match l
    case ApiCreate(job, net) => Newborn(job) && job.id !in s.born
    case ApiDelete(id, net) => true
    case Fetch(nowMs, ids) =>
      s.sched.Polling? && s.phase == Serving && Int64(nowMs)
      && IsDueBatch(s.store.due, Binary64.OfInt(nowMs), c.batch, ids)
    case Claim(net) => s.sched.Draining? && s.sched.tail != []
    case Enqueue => s.sched.Handing? && |s.queue| < c.QueueCapacity()
    case GiveUp => s.sched.Handing? && s.phase.StopClosed()
    case EndBatch => s.sched == Draining([])
    case LeaveLoop => s.sched.Polling? && s.phase != Serving
    case Work(i, a) => i < |s.workers| && ActEnabled(c, s, s.workers[i], a)
    case Cancel => s.phase == Serving
    case Advance =>
      (s.phase.AwaitingScheduler? ==> s.sched.Stopped?)
      && (s.phase.AwaitingWorkers? ==> forall i | 0 <= i < |s.workers| :: s.workers[i].Exited?)
      && !s.phase.Serving? && !s.phase.Finished?
    case Crash => true
  }

  // ----- effects, component by component

  /** Where a worker goes once its last store call is made. */
  function Finish(held: Option<nat>): Worker {
    match held
    case None => Leaving
    case Some(sem) => Unwinding(sem)
  }

  function Carry(id: Id, v: Verdict, held: Option<nat>): Worker {
    match v
    case Remove => Dropping(id, held)
    case Park(job) => Saving(job, false, held)
    case Again(job) => Saving(job, true, held)
  }

  function WorkerAfter(c: Config, s: State, w: Worker, a: Act): Worker
    requires ActEnabled(c, s, w, a)
  {
    match a
    case Take => Taken(s.queue[0])
    case Admit => Admitted(w.id)
    case Load(net, draw) =>
      if !net.Ok() || w.id !in s.store.jobs then Leaving
      else
        var job := s.store.jobs[w.id];
        (match c.domain(job.url)
         case None => Carry(job.id, Settle(job, BadUrl, draw), None)
         case Some(domain) => Seeking(job, domain, AtEntry))
    case RLock => w.(at := Reading)
    case Look =>
      if w.domain in s.sync.registry then Waiting(w.job, w.domain, s.sync.registry[w.domain]) else w.(at := Missed)
    case Announce => w.(at := Locking)
    case Lock => w.(at := Writing)
    case Recheck =>
      if w.domain in s.sync.registry then Waiting(w.job, w.domain, s.sync.registry[w.domain]) else w.(at := Creating)
    case Publish => Waiting(w.job, w.domain, |s.sync.sems|)
    case Acquire => Calling(w.job, w.domain, w.sem)
    case Return(outcome, draw) => Carry(w.job.id, Settle(w.job, outcome, draw), Some(w.sem))
    case Save(net) => if net.Ok() && w.again then Scheduling(w.job, w.held) else Finish(w.held)
    case Reschedule(net) => Finish(w.held)
    case Discard(net) => Finish(w.held)
    case Unwind => Leaving
    case Release => Idle
    case Quit => if w.Waiting? then Leaving else if w.Taken? then Idle else Exited
  }

  function SyncAct(c: Config, s: State, w: Worker, a: Act): Sync
    requires ActEnabled(c, s, w, a)
  {
    var y := s.sync;
    match a
    case Admit => y.(admitted := y.admitted + 1)
    case RLock => y.(readers := y.readers + 1)
    case Look => y.(readers := y.readers - 1)
    case Announce => y.(writing := true)
    case Recheck => if w.domain in y.registry then y.(writing := false) else y
    case Publish =>
      y.(writing := false, registry := y.registry[w.domain := |y.sems|], sems := y.sems + [Sem(w.domain, 0)])
    case Acquire => y.(sems := y.sems[w.sem := y.sems[w.sem].(used := y.sems[w.sem].used + 1)])
    case Unwind => y.(sems := y.sems[w.sem := y.sems[w.sem].(used := y.sems[w.sem].used - 1)])
    case Release => y.(admitted := y.admitted - 1)
    case _ => y
  }

  /** The store call a label makes, when it takes effect. */
  function OpOf(c: Config, s: State, l: Label): Option<Op> {
    match l
    case ApiCreate(job, net) => if net.Effect() then Some(Create(job)) else None
    case ApiDelete(id, net) => if net.Effect() then Some(Drop(id)) else None
    case Claim(net) =>
      if net.Effect() && s.sched.Draining? && s.sched.tail != [] then Some(Unschedule(s.sched.tail[0])) else None
    case Work(i, a) =>
      if i >= |s.workers| then None
      else
        var w := s.workers[i];
        (match a
         case Save(net) => if net.Effect() && w.Saving? then Some(Put(w.job)) else None
         case Reschedule(net) => if net.Effect() && w.Scheduling? then Some(Schedule(w.job.id, w.job.dueAtMs)) else None
         case Discard(net) => if net.Effect() && w.Dropping? then Some(Drop(w.id)) else None
         case _ => None)
    case _ => None
  }

  /** What a label adds to the history. */
  function EventOf(c: Config, s: State, l: Label): Option<EventOk> {
    if l.Work? && l.i < |s.workers| then
      var w := s.workers[l.i];
      match l.act
      case Load(net, draw) =>
        if net.Ok() && w.Admitted? && w.id in s.store.jobs && c.domain(s.store.jobs[w.id].url).None?
        then Some(Ended(s.store.jobs[w.id].id, BadUrl, draw)) else None
      case Acquire => if w.Waiting? then Some(Called(w.job.id, w.job.attempt)) else None
      case Return(outcome, draw) => if w.Calling? && outcome.Typed() then Some(Ended(w.job.id, outcome, draw)) else None
      case _ => None
    else None
  }

  /** An execution of the job ends with this label. */
  predicate Ends(c: Config, s: State, l: Label, id: Id) {
    var e := EventOf(c, s, l);
    e.Some? && e.value.Ended? && e.value.id == id
  }

  function LogAfter(c: Config, s: State, l: Label): seq<EventOk> {
    match EventOf(c, s, l)
    case None => s.log
    case Some(e) => s.log + [e]
  }

  function SchedulerAfter(s: State, l: Label): Scheduler {
    match l
    case Fetch(nowMs, ids) => Draining(ids)
    case Claim(net) =>
      if s.sched.Draining? && s.sched.tail != [] then
        if net.Ok() then Handing(s.sched.tail[0], s.sched.tail[1..]) else Draining(s.sched.tail[1..])
      else s.sched
    case Enqueue => if s.sched.Handing? then Draining(s.sched.tail) else s.sched
    case GiveUp => if s.sched.Handing? then Draining(s.sched.tail) else s.sched
    case EndBatch => Polling
    case LeaveLoop => Stopped
    case Crash => Polling
    case _ => s.sched
  }

  function QueueAfter(s: State, l: Label): seq<Id> {
    match l
    case Enqueue => if s.sched.Handing? then s.queue + [s.sched.id] else s.queue
    case Work(i, Take) => if s.queue != [] then s.queue[1..] else s.queue
    case Crash => []
    case _ => s.queue
  }

  function PhaseAfter(s: State, l: Label): Phase {
    match l
    case Cancel => Stopping
    case Advance =>
      (match s.phase
       case Stopping => AwaitingScheduler
       case AwaitingScheduler => ClosingStop
       case ClosingStop => ClosingQueue
       case ClosingQueue => AwaitingWorkers
       case AwaitingWorkers => Finished
       case other => other)
    case Crash => Serving
    case _ => s.phase
  }

  function StoreAfter(c: Config, s: State, l: Label): Store {
    match OpOf(c, s, l)
    case None => s.store
    case Some(op) => Exec(s.store, op)
  }

  ghost function Apply(c: Config, s: State, l: Label): State
    requires Enabled(c, s, l)
  {
    State(
      StoreAfter(c, s, l),
      SchedulerAfter(s, l),
      QueueAfter(s, l),
      if l.Work? then s.workers[l.i := WorkerAfter(c, s, s.workers[l.i], l.act)]
      else if l.Crash? then IdleWorkers(c)
      else s.workers,
      if l.Work? then SyncAct(c, s, s.workers[l.i], l.act) else if l.Crash? then FreshSync else s.sync,
      PhaseAfter(s, l),
      if l.ApiCreate? && l.net.Effect() then s.born[l.job.id := l.job] else s.born,
      LogAfter(c, s, l))
  }

  // ----- runs

  ghost predicate Valid(c: Config, s: State, ls: seq<Label>)
    decreases |ls|
  {
    ls == [] || (Enabled(c, s, ls[0]) && Valid(c, Apply(c, s, ls[0]), ls[1..]))
  }

  ghost function Run(c: Config, s: State, ls: seq<Label>): State
    requires Valid(c, s, ls)
    decreases |ls|
  {
    if ls == [] then s else Run(c, Apply(c, s, ls[0]), ls[1..])
  }
}
