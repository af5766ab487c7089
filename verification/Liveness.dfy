/** Deadlock freedom, draining and shutdown. */
module Liveness {
  import opened Jobs
  import opened Lifecycle
  import opened StoreModel
  import opened Protocol
  import opened Pool
  import opened Claims
  import opened Records
  import opened Limits
  import opened Safety
  import opened Runs

  // ----- a measure

  function SearchRank(at: Search): nat {
    match at
    case AtEntry => 13
    case Reading => 12
    case Missed => 11
    case Locking => 10
    case Writing => 9
    case Creating => 8
  }

  function Rank(w: Worker): nat {
    match w
    case Exited => 0
    case Idle => 1
    case Leaving => 2
    case Unwinding(_) => 3
    case Scheduling(_, _) => 4
    case Dropping(_, _) => 4
    case Saving(_, _, _) => 5
    case Calling(_, _, _) => 6
    case Waiting(_, _, _) => 7
    case Seeking(_, _, at) => SearchRank(at)
    case Admitted(_) => 14
    case Taken(_) => 15
  }

  function PoolRank(ws: seq<Worker>): nat {
    if ws == [] then 0 else PoolRank(ws[..|ws| - 1]) + Rank(ws[|ws| - 1])
  }

  function SchedulerRank(d: Scheduler): nat {
    match d
    case Stopped => 0
    case Polling => 1
    case Draining(tail) => 2 + 17 * |tail|
    case Handing(_, tail) => 18 + 17 * |tail|
  }

  function PhaseRank(p: Phase): nat {
    match p
    case Finished => 0
    case AwaitingWorkers => 1
    case ClosingQueue => 2
    case ClosingStop => 3
    case AwaitingScheduler => 4
    case Stopping => 5
    case Serving => 6
  }

  function Weight(s: State): nat {
    PhaseRank(s.phase) + SchedulerRank(s.sched) + 15 * |s.queue| + PoolRank(s.workers)
  }

  lemma {:induction false} PoolRankUpdate(ws: seq<Worker>, i: nat, w: Worker)
    requires i < |ws|
    ensures PoolRank(ws[i := w]) + Rank(ws[i]) == PoolRank(ws) + Rank(w)
  {
    var n := |ws| - 1;
    if i == n {
      assert ws[i := w][..n] == ws[..n];
    } else {
      PoolRankUpdate(ws[..n], i, w);
      assert ws[i := w][..n] == ws[..n][i := w];
    }
  }

  /** The actions of the process itself once no new batch is fetched: not the API, not a poll, not the signal. */
  predicate Internal(l: Label) {
    l.Claim? || l.Enqueue? || l.GiveUp? || l.EndBatch? || l.LeaveLoop? || l.Work? || l.Advance?
  }

  lemma RankDrops(c: Config, s: State, w: Worker, a: Act)
    requires ActEnabled(c, s, w, a)
    ensures !a.Take? ==> Rank(WorkerAfter(c, s, w, a)) < Rank(w)
    ensures a.Take? ==> Rank(WorkerAfter(c, s, w, a)) == Rank(w) + 14
  {
  }

  /** Every internal action lowers the measure. */
  lemma WeightDrops(c: Config, s: State, l: Label)
    requires Enabled(c, s, l) && Internal(l)
    ensures Weight(Apply(c, s, l)) < Weight(s)
  {
    if l.Work? {
      RankDrops(c, s, s.workers[l.i], l.act);
      PoolRankUpdate(s.workers, l.i, WorkerAfter(c, s, s.workers[l.i], l.act));
    }
  }

  ghost predicate AllInternal(ls: seq<Label>) {
    forall k | 0 <= k < |ls| :: Internal(ls[k])
  }

  lemma {:induction false} InternalRunsEnd(c: Config, s: State, ls: seq<Label>)
    requires Valid(c, s, ls) && AllInternal(ls)
    ensures |ls| + Weight(Run(c, s, ls)) <= Weight(s)
    decreases |ls|
  {
    if ls != [] {
      WeightDrops(c, s, ls[0]);
      assert forall k | 0 <= k < |ls| - 1 :: ls[1..][k] == ls[k + 1];
      InternalRunsEnd(c, Apply(c, s, ls[0]), ls[1..]);
    }
  }

  // ----- some worker can always act

  predicate Busy(w: Worker) {
    !w.Idle? && !w.Exited?
  }

  const NO_DRAW: DrawOk := Draw(0, 0, 0)

  /** The action a busy worker is at, with a webhook that answers 500 and a store call that goes as `net` says. */
  function NextAct(w: Worker, net: Net): Act {
    match w
    case Taken(_) => Admit
    case Admitted(_) => Load(net, NO_DRAW)
    case Seeking(_, _, AtEntry) => RLock
    case Seeking(_, _, Reading) => Look
    case Seeking(_, _, Missed) => Announce
    case Seeking(_, _, Locking) => Lock
    case Seeking(_, _, Writing) => Recheck
    case Seeking(_, _, Creating) => Publish
    case Waiting(_, _, _) => Acquire
    case Calling(_, _, _) => Return(Response(500), NO_DRAW)
    case Saving(_, _, _) => Save(net)
    case Scheduling(_, _) => Reschedule(net)
    case Dropping(_, _) => Discard(net)
    case Unwinding(_) => Unwind
    case Leaving => Release
    case Idle => Take
    case Exited => Take
  }

  ghost predicate CanGo(c: Config, s: State, j: nat) {
    j < |s.workers| && Busy(s.workers[j]) && forall net :: ActEnabled(c, s, s.workers[j], NextAct(s.workers[j], net))
  }

  /** What makes a worker wait: the lock, or a full domain semaphore. */
  predicate MayWait(w: Worker) {
    w.Waiting? || (w.Seeking? && (w.at.AtEntry? || w.at.Missed? || w.at.Locking?))
  }

  /** The records of a job about to be loaded or settled can be settled. */
  lemma RecordsRunnable(c: Config, s: State, j: nat)
    requires RecordsInv(c, s) && j < |s.workers|
    ensures var w := s.workers[j];
      (w.Admitted? && w.id in s.store.jobs ==> Runnable(s.store.jobs[w.id])) && (w.Calling? ==> Runnable(w.job))
  {
    assert WorkerOk(c, BooksOf(s), s.workers[j]);
  }

  lemma HolderCounted(c: Config, s: State, j: nat)
    requires LimitsInv(c, s) && j < |s.workers|
    ensures var w := s.workers[j];
      && (w.Seeking? && w.at.Reading? ==> 0 < s.sync.readers)
      && (w.Unwinding? ==> w.sem < |s.sync.sems| && 0 < s.sync.sems[w.sem].used)
      && (w.Leaving? ==> 0 < s.sync.admitted)
  {
    var w := s.workers[j];
    assert WorkerFits(s.sync, w);
    if w.Seeking? && w.at.Reading? { CountOne(s.workers, j, Reader); }
    if w.Unwinding? { CountOne(s.workers, j, Holder(w.sem)); }
    if w.Leaving? { CountOne(s.workers, j, Inside); }
  }

  lemma NextActEnabled(c: Config, s: State, w: Worker)
    requires Busy(w) && !MayWait(w)
    requires w.Taken? ==> s.sync.admitted < c.maxInflight
    requires (w.Admitted? && w.id in s.store.jobs ==> Runnable(s.store.jobs[w.id])) && (w.Calling? ==> Runnable(w.job))
    requires w.Seeking? && w.at.Reading? ==> 0 < s.sync.readers
    requires w.Unwinding? ==> w.sem < |s.sync.sems| && 0 < s.sync.sems[w.sem].used
    requires w.Leaving? ==> 0 < s.sync.admitted
    ensures forall net :: ActEnabled(c, s, w, NextAct(w, net))
  {
  }

  lemma NonWaitersGo(c: Config, s: State, j: nat)
    requires Inv(c, s) && j < |s.workers| && Busy(s.workers[j]) && !MayWait(s.workers[j])
    ensures CanGo(c, s, j)
  {
    RecordsRunnable(c, s, j);
    HolderCounted(c, s, j);
    if s.workers[j].Taken? { GlobalNeverBlocks(c, s, j); }
    NextActEnabled(c, s, s.workers[j]);
  }

  /** Whoever has asked for the write lock can go on, or is waiting for a reader who can. */
  lemma WriterGoes(c: Config, s: State) returns (j: nat)
    requires Inv(c, s) && s.sync.writing
    ensures CanGo(c, s, j) && s.workers[j].Seeking?
  {
    j := CountSome(s.workers, Writer);
    if s.workers[j].at.Locking? {
      if s.sync.readers > 0 {
        j := CountSome(s.workers, Reader);
        NonWaitersGo(c, s, j);
      }
    } else {
      NonWaitersGo(c, s, j);
    }
  }

  /** A full semaphore has a holder, who never waits. */
  lemma HolderGoes(c: Config, s: State, sem: nat) returns (j: nat)
    requires Inv(c, s) && c.Valid() && sem < |s.sync.sems| && s.sync.sems[sem].used >= c.maxPerDomain
    ensures CanGo(c, s, j)
  {
    j := CountSome(s.workers, Holder(sem));
    NonWaitersGo(c, s, j);
  }

  /** If some worker is busy, it or the one it waits for can act. */
  lemma SomebodyGoes(c: Config, s: State, i: nat) returns (j: nat)
    requires Inv(c, s) && c.Valid() && i < |s.workers| && Busy(s.workers[i])
    ensures CanGo(c, s, j)
    ensures s.workers[i].Saving? || s.workers[i].Calling? ==> j == i
  {
    var w := s.workers[i];
    assert WorkerFits(s.sync, w);
    j := i;
    if !MayWait(w) {
      NonWaitersGo(c, s, i);
    } else if w.Waiting? {
      if s.sync.sems[w.sem].used >= c.maxPerDomain {
        j := HolderGoes(c, s, w.sem);
      }
    } else if w.at.Locking? {
      CountOne(s.workers, i, Writer);
      j := WriterGoes(c, s);
    } else if s.sync.writing {
      j := WriterGoes(c, s);
    }
  }

  ghost predicate AtRest(s: State) {
    s.queue == [] && forall i | 0 <= i < |s.workers| :: s.workers[i].Idle?
  }

  lemma UnrestHasWork(c: Config, s: State) returns (i: nat, a: Act)
    requires Inv(c, s) && c.Valid() && s.phase == Serving && !AtRest(s)
    ensures Enabled(c, s, Work(i, a)) && !a.Quit?
  {
    if k :| 0 <= k < |s.workers| && Busy(s.workers[k]) {
      i := SomebodyGoes(c, s, k);
      a := NextAct(s.workers[i], Done);
    } else {
      i, a := 0, Take;
      assert !Busy(s.workers[0]);
    }
  }

  /** While the process serves, the pool is at rest exactly when no worker can act: there is no deadlock. */
  lemma DeadlockFree(c: Config, s: State)
    requires Reachable(c, s) && c.Valid() && s.phase == Serving
    ensures AtRest(s) <==> forall i: nat, a: Act :: !Enabled(c, s, Work(i, a))
  {
    ReachableInv(c, s);
    if !AtRest(s) {
      var i, a := UnrestHasWork(c, s);
      assert Enabled(c, s, Work(i, a));
    }
  }

  lemma NextLowersRank(c: Config, s: State, j: nat, net: Net)
    requires CanGo(c, s, j)
    ensures var a := NextAct(s.workers[j], net);
      && ActEnabled(c, s, s.workers[j], a) && !a.Take? && !a.Quit?
      && PoolRank(s.workers[j := WorkerAfter(c, s, s.workers[j], a)]) < PoolRank(s.workers)
  {
    var w' := WorkerAfter(c, s, s.workers[j], NextAct(s.workers[j], net));
    RankDrops(c, s, s.workers[j], NextAct(s.workers[j], net));
    PoolRankUpdate(s.workers, j, w');
  }

  // ----- rest

  lemma RestHalts(c: Config, s: State)
    requires s.phase == Serving && AtRest(s) && s.sched == Polling
    ensures Halted(c, s)
  {
  }

  lemma SchedulerGoes(c: Config, s: State) returns (l: Label)
    requires c.Valid() && s.phase == Serving && s.queue == [] && s.sched != Polling && !s.sched.Stopped?
    ensures Internal(l) && Enabled(c, s, l)
  {
    l := match s.sched
      case Draining(tail) => if tail == [] then EndBatch else Claim(Undone)
      case _ => Enqueue;
  }

  /** While the process serves, nothing but a poll or a client can act exactly when the pool is at rest and the
      scheduler waits for its next tick. */
  lemma ServingRest(c: Config, s: State)
    requires Reachable(c, s) && c.Valid() && s.phase == Serving
    ensures Halted(c, s) <==> AtRest(s) && s.sched == Polling
  {
    ReachableInv(c, s);
    if !AtRest(s) {
      var i, a := UnrestHasWork(c, s);
      assert Internal(Work(i, a));
    } else if s.sched != Polling {
      var l := SchedulerGoes(c, s);
    } else {
      RestHalts(c, s);
    }
  }

  lemma {:induction false} ServingStays(c: Config, s: State, ls: seq<Label>)
    requires Valid(c, s, ls) && AllInternal(ls) && s.phase == Serving
    ensures Run(c, s, ls).phase == Serving
    decreases |ls|
  {
    if ls != [] {
      assert Apply(c, s, ls[0]).phase == Serving;
      assert forall k | 0 <= k < |ls| - 1 :: ls[1..][k] == ls[k + 1];
      ServingStays(c, Apply(c, s, ls[0]), ls[1..]);
    }
  }

  /** Without new batches the process comes to rest, whatever the interleaving: a run of its own actions is at most as
      long as the measure says, and exactly if it has emptied queue and batch and left every worker idle can it not go
      on. */
  lemma InternalRunsRest(c: Config, s: State, ls: seq<Label>)
    requires Reachable(c, s) && c.Valid() && s.phase == Serving && Valid(c, s, ls) && AllInternal(ls)
    ensures |ls| <= Weight(s)
    ensures Halted(c, Run(c, s, ls)) <==> AtRest(Run(c, s, ls)) && Run(c, s, ls).sched == Polling
  {
    InternalRunsEnd(c, s, ls);
    ServingStays(c, s, ls);
    ReachableRun(c, s, ls);
    ServingRest(c, Run(c, s, ls));
  }

  // ----- shutdown

  /** The scheduler is blocked in Dispatch on a full queue, and all workers have left. */
  ghost predicate Stuck(c: Config, s: State) {
    && s.phase.AwaitingScheduler?
    && s.sched.Handing? && |s.queue| == c.QueueCapacity()
    && forall i | 0 <= i < |s.workers| :: s.workers[i].Exited?
  }

  ghost predicate Halted(c: Config, s: State) {
    forall l | Internal(l) :: !Enabled(c, s, l)
  }

  lemma SomeWorkerLabel(c: Config, s: State, i: nat) returns (l: Label)
    requires Inv(c, s) && c.Valid() && s.phase != Serving && i < |s.workers| && !s.workers[i].Exited?
    ensures Internal(l) && Enabled(c, s, l)
  {
    if s.workers[i].Idle? {
      l := Work(i, Quit);
    } else {
      var j := SomebodyGoes(c, s, i);
      l := Work(j, NextAct(s.workers[j], Done));
    }
  }

  /** After the signal, as long as main has not finished and the scheduler is not stuck, something can act. */
  lemma ShutdownProgress(c: Config, s: State) returns (l: Label)
    requires Inv(c, s) && c.Valid() && s.phase != Serving && s.phase != Finished && !Stuck(c, s)
    ensures Internal(l) && Enabled(c, s, l)
  {
    l := Advance;
    if s.phase.AwaitingScheduler? {
      match s.sched
      case Stopped =>
      case Polling => l := LeaveLoop;
      case Draining(tail) => l := if tail == [] then EndBatch else Claim(Undone);
      case Handing(_, _) =>
        if |s.queue| < c.QueueCapacity() {
          l := Enqueue;
        } else {
          var i :| 0 <= i < |s.workers| && !s.workers[i].Exited?;
          l := SomeWorkerLabel(c, s, i);
        }
    } else if s.phase.AwaitingWorkers? {
      if i :| 0 <= i < |s.workers| && !s.workers[i].Exited? {
        l := SomeWorkerLabel(c, s, i);
      }
    }
  }

  lemma FinishedHalts(c: Config, s: State)
    requires PhaseInv(s) && s.phase == Finished
    ensures Halted(c, s)
  {
  }

  lemma StuckHalts(c: Config, s: State)
    requires Stuck(c, s)
    ensures Halted(c, s)
  {
  }

  /** After the signal the process comes to rest exactly when main has finished, or in the one stuck state. */
  lemma ShutdownOutcome(c: Config, s: State)
    requires Reachable(c, s) && c.Valid() && s.phase != Serving
    ensures Halted(c, s) <==> s.phase == Finished || Stuck(c, s)
  {
    ReachableInv(c, s);
    if s.phase == Finished {
      FinishedHalts(c, s);
    } else if Stuck(c, s) {
      StuckHalts(c, s);
    } else {
      var l := ShutdownProgress(c, s);
    }
  }

  /** The job queue is closed only after the scheduler is gone: no run ever sends on the closed channel, and
      Dispatch's other branch is never taken. */
  lemma NoSendOnClosedQueue(c: Config, s: State)
    requires Reachable(c, s)
    ensures s.phase.QueueClosed() ==> !Enabled(c, s, Enqueue)
    ensures !Enabled(c, s, GiveUp)
  {
    ReachableInv(c, s);
  }
}
