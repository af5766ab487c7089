/** Exactly when a DELETE is final, and exactly what a crash loses. */
module Outcomes {
  import opened Jobs
  import opened Lifecycle
  import opened StoreModel
  import opened Protocol
  import opened Pool
  import opened Claims
  import opened Records
  import opened Limits
  import opened Safety
  import opened Finality
  import opened Losses
  import opened Liveness
  import opened Runs
  import Binary64

  // ----- deletion

  lemma CopyStays(c: Config, s: State, w: Worker, id: Id)
    requires MayWrite(w, id) && !w.Saving? && ActEnabled(c, s, w, NextAct(w, Done))
    ensures MayWrite(WorkerAfter(c, s, w, NextAct(w, Done)), id)
  {
    if w.Calling? {
      CarryHolds(w.job, Response(500), NO_DRAW, Some(w.sem));
      SettleKeeps(w.job, Response(500), NO_DRAW);
    }
  }

  /** Somebody acts, and the worker with the copy still has it. */
  lemma NearerToSaving(c: Config, s: State, i: nat, id: Id) returns (l: Label)
    requires Inv(c, s) && c.Valid() && i < |s.workers| && MayWrite(s.workers[i], id) && !s.workers[i].Saving?
    ensures Enabled(c, s, l) && Inv(c, Apply(c, s, l))
    ensures var t := Apply(c, s, l);
      && |t.workers| == |s.workers| && MayWrite(t.workers[i], id)
      && PoolRank(t.workers) < PoolRank(s.workers) && t.phase == s.phase
  {
    var j := SomebodyGoes(c, s, i);
    l := Work(j, NextAct(s.workers[j], Done));
    NextLowersRank(c, s, j, Done);
    if j == i { CopyStays(c, s, s.workers[i], id); }
    InvStep(c, s, l);
  }

  lemma WritesBack(c: Config, s: State, i: nat, id: Id) returns (ls: seq<Label>)
    requires s.phase == Serving && i < |s.workers| && s.workers[i].Saving? && MayWrite(s.workers[i], id)
    ensures Valid(c, s, ls) && AllHeed(c, s, ls) && id in Run(c, s, ls).store.jobs
  {
    ls := [Work(i, Save(Done))];
    OneLabel(c, s, ls[0]);
  }

  /** While the process serves, a worker with a copy can come to write it back. */
  lemma {:induction false} CanWriteBack(c: Config, s: State, i: nat, id: Id) returns (ls: seq<Label>)
    requires Inv(c, s) && c.Valid() && s.phase == Serving && i < |s.workers| && MayWrite(s.workers[i], id)
    ensures Valid(c, s, ls) && AllHeed(c, s, ls) && id in Run(c, s, ls).store.jobs
    decreases PoolRank(s.workers)
  {
    if s.workers[i].Saving? {
      ls := WritesBack(c, s, i, id);
    } else {
      var l := NearerToSaving(c, s, i, id);
      var rest := CanWriteBack(c, Apply(c, s, l), i, id);
      ls := [l] + rest;
      RunCons(c, s, l, rest);
      HeedCons(c, s, l, rest);
    }
  }

  /** No record, and nobody who can bring it back on a context that may be cancelled. */
  ghost predicate Silent(s: State, id: Id) {
    id in s.born && id !in s.store.jobs
    && (s.phase != Serving || forall i | 0 <= i < |s.workers| :: !MayWrite(s.workers[i], id))
  }

  lemma SilentStep(c: Config, s: State, l: Label, id: Id)
    requires Inv(c, s) && Enabled(c, s, l) && Heeds(s, l) && Silent(s, id)
    ensures Silent(Apply(c, s, l), id)
  {
    RecordsIds(c, s);
    if s.phase == Serving {
      GoneStep(c, s, l, id);
    }
  }

  lemma {:induction false} SilentRun(c: Config, s: State, ls: seq<Label>, id: Id)
    requires Inv(c, s) && Valid(c, s, ls) && AllHeed(c, s, ls) && Silent(s, id)
    ensures Silent(Run(c, s, ls), id)
    decreases |ls|
  {
    if ls != [] {
      InvStep(c, s, ls[0]);
      SilentStep(c, s, ls[0], id);
      SilentRun(c, Apply(c, s, ls[0]), ls[1..], id);
    }
  }

  lemma DeletedSilent(c: Config, s: State, id: Id)
    requires Reachable(c, s) && id in s.born
    requires s.phase != Serving || forall i | 0 <= i < |s.workers| :: !MayWrite(s.workers[i], id)
    ensures Inv(c, Apply(c, s, ApiDelete(id, Done))) && Silent(Apply(c, s, ApiDelete(id, Done)), id)
  {
    ReachableInv(c, s);
    InvStep(c, s, ApiDelete(id, Done));
    SilentNow(c, s, id);
  }

  lemma SilentNow(c: Config, s: State, id: Id)
    requires id in s.born && (s.phase != Serving || forall i | 0 <= i < |s.workers| :: !MayWrite(s.workers[i], id))
    ensures Silent(Apply(c, s, ApiDelete(id, Done)), id)
  {
  }

  lemma DeletedGone(c: Config, s: State, id: Id)
    requires Reachable(c, s) && id in s.born && forall i | 0 <= i < |s.workers| :: !MayWrite(s.workers[i], id)
    ensures Inv(c, Apply(c, s, ApiDelete(id, Done))) && Gone(Apply(c, s, ApiDelete(id, Done)), id)
  {
    ReachableInv(c, s);
    InvStep(c, s, ApiDelete(id, Done));
    GoneNow(c, s, id);
  }

  lemma GoneNow(c: Config, s: State, id: Id)
    requires id in s.born && forall i | 0 <= i < |s.workers| :: !MayWrite(s.workers[i], id)
    ensures Gone(Apply(c, s, ApiDelete(id, Done)), id)
  {
  }

  lemma DeletedCanReturn(c: Config, s: State, id: Id, i: nat) returns (ls: seq<Label>)
    requires Reachable(c, s) && c.Valid() && s.phase == Serving && i < |s.workers| && MayWrite(s.workers[i], id)
    ensures var t := Apply(c, s, ApiDelete(id, Done));
      Valid(c, t, ls) && AllHeed(c, t, ls) && id in Run(c, t, ls).store.jobs
  {
    ReachableInv(c, s);
    InvStep(c, s, ApiDelete(id, Done));
    ls := CanWriteBack(c, Apply(c, s, ApiDelete(id, Done)), i, id);
  }

  /** A DELETE is final (the record never comes back, whatever happens next) exactly when, as it commits, the signal has
      come, so that updates are refused, or no worker holds a loaded copy of the job that it may still write back. */
  lemma DeleteFinalIff(c: Config, s: State, id: Id)
    requires Reachable(c, s) && c.Valid() && id in s.born
    ensures var t := Apply(c, s, ApiDelete(id, Done));
      (forall ls | Valid(c, t, ls) && AllHeed(c, t, ls) :: id !in Run(c, t, ls).store.jobs)
      <==> s.phase != Serving || (forall i | 0 <= i < |s.workers| :: !MayWrite(s.workers[i], id))
  {
    if i :| 0 <= i < |s.workers| && s.phase == Serving && MayWrite(s.workers[i], id) {
      var ls := DeletedCanReturn(c, s, id, i);
    } else {
      DeletedSilent(c, s, id);
      var t := Apply(c, s, ApiDelete(id, Done));
      forall ls | Valid(c, t, ls) && AllHeed(c, t, ls)
        ensures id !in Run(c, t, ls).store.jobs
      {
        SilentRun(c, t, ls, id);
      }
    }
  }

  /** After a DELETE that finds no such worker, in any run, refused calls or not: no record comes back, and no
      request is sent for the job, even if its ID is still in the batch, the scheduler's hand, the queue, or with a
      worker that has not loaded it, or is put into the schedule once more. */
  lemma DeletedIsSilent(c: Config, s: State, id: Id, ls: seq<Label>)
    requires Reachable(c, s) && id in s.born && forall i | 0 <= i < |s.workers| :: !MayWrite(s.workers[i], id)
    requires Valid(c, Apply(c, s, ApiDelete(id, Done)), ls)
    ensures Sent(Run(c, Apply(c, s, ApiDelete(id, Done)), ls).log, id) == Sent(s.log, id)
    ensures id !in Run(c, Apply(c, s, ApiDelete(id, Done)), ls).store.jobs
  {
    DeletedGone(c, s, id);
    GoneForever(c, Apply(c, s, ApiDelete(id, Done)), ls, id);
  }

  // ----- crashes

  function WorkerIds(ws: seq<Worker>): set<Id> {
    if ws == [] then {}
    else WorkerIds(ws[..|ws| - 1]) + (if Holds(ws[|ws| - 1]).Some? then {Holds(ws[|ws| - 1]).value} else {})
  }

  function QueueIds(q: seq<Id>): set<Id> {
    if q == [] then {} else QueueIds(q[..|q| - 1]) + {q[|q| - 1]}
  }

  function ClaimedIds(s: State): set<Id> {
    (if s.sched.Handing? then {s.sched.id} else {}) + QueueIds(s.queue) + WorkerIds(s.workers)
  }

  lemma {:induction false} WorkerIdsBound(ws: seq<Worker>, id: Id)
    ensures |WorkerIds(ws)| <= |ws|
    ensures Count(ws, Claimer(id)) > 0 <==> id in WorkerIds(ws)
  {
    if ws != [] {
      WorkerIdsBound(ws[..|ws| - 1], id);
    }
  }

  lemma {:induction false} QueueIdsBound(q: seq<Id>, id: Id)
    ensures |QueueIds(q)| <= |q|
    ensures Occurs(q, id) > 0 <==> id in QueueIds(q)
  {
    if q != [] {
      QueueIdsBound(q[..|q| - 1], id);
    }
  }

  lemma ClaimedIdsBound(c: Config, s: State, id: Id)
    requires LimitsInv(c, s)
    ensures |ClaimedIds(s)| <= 3 * c.maxInflight + 1
    ensures Live(s, id) > 0 <==> id in ClaimedIds(s)
  {
    QueueIdsBound(s.queue, id);
    WorkerIdsBound(s.workers, id);
  }

  ghost function LostJobs(s: State): set<Id> {
    set id | id in s.store.jobs && Lost(s, id)
  }

  lemma CrashLosesIt(c: Config, s: State, id: Id)
    requires FaultFreeReachable(c, s) && Inv(c, s)
    ensures var t := Apply(c, s, Crash);
      (id in LostJobs(t) <==> id in ClaimedIds(s) && Pending(s, id)) && (id in LostJobs(t) ==> Dead(t, id))
  {
    RecordsIds(c, s);
    ClaimedIdsBound(c, s, id);
    LiveAfter(c, s, Crash, id);
    if Pending(s, id) {
      NothingLost(c, s, id);
      assert StoredOk(BooksOf(s), id);
    }
  }

  lemma BatchStaysScheduled(c: Config, s: State, id: Id)
    requires RecordsInv(c, s) && id in Tail(s.sched) && id in s.store.jobs
    ensures id in s.store.due
  {
    var k :| 0 <= k < |Tail(s.sched)| && Tail(s.sched)[k] == id;
  }

  /** A crash in a fault-free run loses exactly the pending jobs claimed at that instant, for good; those still in the
      fetched batch stay scheduled. There are at most 3 * MaxInflight + 1 of them. */
  lemma CrashLosesTheClaimed(c: Config, s: State)
    requires FaultFreeReachable(c, s)
    ensures var t := Apply(c, s, Crash);
      && LostJobs(t) == (set id | id in ClaimedIds(s) && Pending(s, id))
      && |LostJobs(t)| <= 3 * c.maxInflight + 1
      && (forall id | id in LostJobs(t) :: Dead(t, id))
      && (forall id | id in Tail(s.sched) && id in s.store.jobs :: id in t.store.due)
  {
    FaultFreeInv(c, s);
    var t := Apply(c, s, Crash);
    forall id
      ensures id in LostJobs(t) <==> id in ClaimedIds(s) && Pending(s, id)
      ensures id in LostJobs(t) ==> Dead(t, id)
    {
      CrashLosesIt(c, s, id);
    }
    ClaimedIdsBound(c, s, "");
    SubsetSize(LostJobs(t), ClaimedIds(s));
    forall id | id in Tail(s.sched) && id in s.store.jobs
      ensures id in t.store.due
    {
      BatchStaysScheduled(c, s, id);
    }
  }

  lemma FaultFreeInv(c: Config, s: State)
    requires FaultFreeReachable(c, s)
    ensures Inv(c, s)
  {
    var ls :| Valid(c, Init(c), ls) && AllFaultFree(ls) && Run(c, Init(c), ls) == s;
    InvInit(c);
    InvRun(c, Init(c), ls);
  }

  lemma {:induction false} SubsetSize(a: set<Id>, b: set<Id>)
    requires a <= b
    ensures |a| <= |b|
  {
    if a != {} {
      var x :| x in a;
      SubsetSize(a - {x}, b - {x});
    }
  }
}
