/** Reachable states in which the record of the last error differs from what one might expect. */
module Witnesses {
  import opened Jobs
  import opened Lifecycle
  import opened StoreModel
  import opened Protocol
  import opened Pool
  import opened Claims
  import opened Records
  import opened Limits
  import opened Safety
  import opened Runs
  import opened Executors
  import opened RedisStores
  import opened Refinements
  import opened ErrorRecords
  import Decimal
  import Binary64

  // ----- running one job

  lemma ReachableStep(c: Config, s: State, l: Label)
    requires Reachable(c, s) && Enabled(c, s, l)
    ensures Reachable(c, Apply(c, s, l))
  {
    OneLabel(c, s, l);
    ReachableRun(c, s, [l]);
  }

  lemma ReachableLeads(c: Config, s: State, ls: seq<Label>, ops: seq<Op>, t: State)
    requires Reachable(c, s) && Leads(c, s, ls, ops, t)
    ensures Reachable(c, t)
  {
    ReachableRun(c, s, ls);
  }

  /** Nothing is going on, and this job alone is scheduled. */
  ghost predicate Resting(c: Config, s: State, id: Id) {
    && Reachable(c, s) && s.phase == Serving && s.sched == Polling && s.queue == []
    && (forall i | 0 <= i < |s.workers| :: s.workers[i].Idle?)
    && s.store.due.Keys == {id} && id in s.store.jobs
  }

  /** The first worker has taken the job, and nothing else is going on. */
  ghost predicate Picked(c: Config, s: State, id: Id) {
    && Reachable(c, s) && s.phase == Serving && s.sched == Polling && s.queue == []
    && 0 < |s.workers| && s.workers[0] == Taken(id)
    && (forall i | 0 < i < |s.workers| :: s.workers[i].Idle?)
    && s.store.due == map[] && id in s.store.jobs
  }

  lemma SoleDue(c: Config, s: State, id: Id)
    requires Resting(c, s, id) && c.Valid()
    ensures Enabled(c, s, Fetch(INT64_MAX, [id]))
  {
    IndexAgreement(c, s, id);
    ReachableInv(c, s);
    assert StoredOk(BooksOf(s), id);
    Binary64.OfIntMonotone(s.store.jobs[id].dueAtMs, INT64_MAX);
  }

  /** A poll finds the job and the first worker takes it. */
  lemma Pick(c: Config, s: State, id: Id) returns (t: State)
    requires Resting(c, s, id) && c.Valid()
    ensures Picked(c, t, id) && t.store.jobs == s.store.jobs && t.log == s.log && t.born == s.born
  {
    ReachableInv(c, s);
    SoleDue(c, s, id);
    ReachableStep(c, s, Fetch(INT64_MAX, [id]));
    t := Apply(c, s, Fetch(INT64_MAX, [id]));
    t := HandToWorker(c, t, id);
  }

  lemma HandToWorker(c: Config, s: State, id: Id) returns (t: State)
    requires c.Valid() && Reachable(c, s) && s.phase == Serving && s.sched == Draining([id]) && s.queue == []
    requires 0 < |s.workers| && forall i | 0 <= i < |s.workers| :: s.workers[i].Idle?
    requires s.store.due.Keys == {id} && id in s.store.jobs
    ensures Picked(c, t, id) && t.store.jobs == s.store.jobs && t.log == s.log && t.born == s.born
  {
    ReachableStep(c, s, Claim(Done));
    t := Apply(c, s, Claim(Done));
    t := QueueAndTake(c, t, id);
  }

  lemma QueueAndTake(c: Config, s: State, id: Id) returns (t: State)
    requires c.Valid() && Reachable(c, s) && s.phase == Serving && s.sched == Handing(id, []) && s.queue == []
    requires 0 < |s.workers| && forall i | 0 <= i < |s.workers| :: s.workers[i].Idle?
    requires s.store.due == map[] && id in s.store.jobs
    ensures Picked(c, t, id) && t.store.jobs == s.store.jobs && t.log == s.log && t.born == s.born
  {
    ReachableStep(c, s, Enqueue);
    t := Apply(c, s, Enqueue);
    ReachableStep(c, t, EndBatch);
    t := Apply(c, t, EndBatch);
    ReachableStep(c, t, Work(0, Take));
    t := Apply(c, t, Work(0, Take));
  }

  /** A pool in which nobody is past the global semaphore leaves lock and semaphores free. */
  lemma EarlyPoolIsFree(c: Config, y: Sync, ws: seq<Worker>)
    requires SyncOk(c, y, ws) && 0 < c.maxPerDomain
    requires forall i | 0 <= i < |ws| :: ws[i].Idle? || ws[i].Taken?
    ensures LockFree(y) && forall k | 0 <= k < |y.sems| :: y.sems[k].used < c.maxPerDomain
  {
    CountNone(ws, Reader);
    CountNone(ws, Writer);
    forall k | 0 <= k < |y.sems|
      ensures y.sems[k].used < c.maxPerDomain
    {
      CountNone(ws, Holder(k));
    }
  }

  lemma PickedIsRoomy(c: Config, s: State, id: Id)
    requires Picked(c, s, id) && c.Valid()
    ensures s.sync.admitted < c.maxInflight && Roomy(c, s.sync) && Runnable(s.store.jobs[id])
  {
    ReachableInv(c, s);
    EarlyPoolIsFree(c, s.sync, s.workers);
    ReadyToExecute(c, s, 0, id);
  }

  /** An execution without store errors, at time zero. */
  function PlainEnv(o: Outcome): Env {
    Env(Done, Draw(0, 0, 0), o, Done, Done, false, false)
  }

  lemma SavedAndScheduled(st: Store, id: Id, j: Job)
    requires st.due == map[] && id in st.jobs && j.id == id
    ensures var t := ExecAll(st, OpsOf(id, Again(j), Done, Done));
      t.due.Keys == {id} && t.jobs == st.jobs[id := Overlay(st.jobs[id], j)]
  {
    var ops := OpsOf(id, Again(j), Done, Done);
    assert ops == [Put(j), Schedule(id, j.dueAtMs)];
    assert ops[1..] == [Schedule(id, j.dueAtMs)] && ops[1..][1..] == [];
    var saved := Exec(st, Put(j));
    assert ExecAll(st, ops) == ExecAll(saved, ops[1..]);
    assert ExecAll(saved, ops[1..]) == Exec(saved, Schedule(id, j.dueAtMs));
  }

  /** From rest to rest: the job is fetched, sent, and scheduled again. */
  lemma Round(c: Config, s: State, id: Id, o: Outcome) returns (t: State)
    requires Resting(c, s, id) && c.Valid() && o.Typed() && !o.BadUrl? && Runnable(s.store.jobs[id])
    requires s.store.jobs[id].id == id && c.domain(s.store.jobs[id].url).Some?
    requires Settle(s.store.jobs[id], o, Draw(0, 0, 0)).Again?
    ensures Resting(c, t, id) && t.born == s.born
    ensures var j := s.store.jobs[id];
      && t.store.jobs[id] == Overlay(j, After(j, o, Draw(0, 0, 0)))
      && t.log == s.log + [Called(id, j.attempt), Ended(id, o, Draw(0, 0, 0))]
  {
    var u := Pick(c, s, id);
    t := RunPicked(c, u, id, o);
  }

  lemma RunPicked(c: Config, u: State, id: Id, o: Outcome) returns (t: State)
    requires Picked(c, u, id) && c.Valid() && o.Typed() && !o.BadUrl? && Runnable(u.store.jobs[id])
    requires u.store.jobs[id].id == id && c.domain(u.store.jobs[id].url).Some?
    requires Settle(u.store.jobs[id], o, Draw(0, 0, 0)).Again?
    ensures Resting(c, t, id) && t.born == u.born
    ensures var j := u.store.jobs[id];
      && t.store.jobs[id] == Overlay(j, After(j, o, Draw(0, 0, 0)))
      && t.log == u.log + [Called(id, j.attempt), Ended(id, o, Draw(0, 0, 0))]
  {
    PickedIsRoomy(c, u, id);
    var ls;
    ls, t := ExecutionFollowsProtocol(c, u, 0, id, PlainEnv(o));
    StoreAlong(c, u, ls);
    SettledId(u.store.jobs[id], o, Draw(0, 0, 0));
    SavedAndScheduled(u.store, id, After(u.store.jobs[id], o, Draw(0, 0, 0)));
    ReachableRun(c, u, ls);
  }

  lemma SettledId(j: Job, o: Outcome, d: DrawOk)
    requires Runnable(j)
    ensures After(j, o, d).id == j.id
  {
  }

  // ----- a record that outlives a success

  const JOB_ID: Id := "r"

  /** A recurring job with three attempts. */
  const SAMPLE: NewJob :=
    Job(JOB_ID, RECURRING, 0, 1, 0, 3, 1, "u", "POST", None, None, 1, 0, 0, "", 0, PENDING)

  const ZERO: DrawOk := Draw(0, 0, 0)

  lemma CreateSample(c: Config) returns (s: State)
    ensures Resting(c, s, JOB_ID) && s.store.jobs[JOB_ID] == SAMPLE && s.log == []
  {
    assert Valid(c, Init(c), []) && Run(c, Init(c), []) == Init(c);
    ReachableStep(c, Init(c), ApiCreate(SAMPLE, Done));
    s := Apply(c, Init(c), ApiCreate(SAMPLE, Done));
  }

  /** What the record holds after a response 500. */
  const AFTER_500: Note := Note("HTTP " + Decimal.FormatInt(500), 500)

  lemma SampleFails()
    ensures Settle(SAMPLE, Response(500), ZERO).Again?
    ensures NoteOf(After(SAMPLE, Response(500), ZERO)) == AFTER_500
    ensures SameFixed(After(SAMPLE, Response(500), ZERO), SAMPLE)
    ensures Runnable(After(SAMPLE, Response(500), ZERO)) && After(SAMPLE, Response(500), ZERO).attempt == 1
  {
    SettleKeeps(SAMPLE, Response(500), ZERO);
  }

  /** The job has failed once and is scheduled for its retry. */
  lemma FailedOnce(c: Config) returns (s: State)
    requires c.Valid() && c.domain("u").Some?
    ensures Resting(c, s, JOB_ID) && SameFixed(s.store.jobs[JOB_ID], SAMPLE) && Runnable(s.store.jobs[JOB_ID])
    ensures s.store.jobs[JOB_ID].attempt == 1 && NoteOf(s.store.jobs[JOB_ID]) == AFTER_500
    ensures LastCode(s.log, JOB_ID) == 500
  {
    SampleFails();
    var s0 := CreateSample(c);
    s := Round(c, s0, JOB_ID, Response(500));
    OverlaySameFixed(SAMPLE, After(SAMPLE, Response(500), ZERO));
    assert s.log[|s.log| - 1] == Ended(JOB_ID, Response(500), ZERO);
  }

  /** The record of the last error survives a success: a job that has failed and then succeeded is scheduled, starts its
      attempts anew, and still shows the failure. */
  lemma StaleAfterSuccess(c: Config) returns (s: State)
    requires c.Valid() && c.domain("u").Some?
    ensures Reachable(c, s) && JOB_ID in s.store.jobs && JOB_ID in s.store.due
    ensures LastOutcome(s.log, JOB_ID) == Some(Response(200)) && s.store.jobs[JOB_ID].attempt == 0
    ensures NoteOf(s.store.jobs[JOB_ID]) == AFTER_500
  {
    var s1 := FailedOnce(c);
    assert ONE_SHOT != RECURRING;
    s := Round(c, s1, JOB_ID, Response(200));
    assert s.log[|s.log| - 1] == Ended(JOB_ID, Response(200), ZERO);
  }

  // ----- a DELETE that was undone

  /** The job's second request is under way. */
  lemma SecondCall(c: Config) returns (s: State, j: Job, domain: string, sem: nat)
    requires c.Valid() && c.domain("u").Some?
    ensures Reachable(c, s) && 0 < |s.workers| && s.workers[0] == Calling(j, domain, sem)
    ensures j.id == JOB_ID && Runnable(j) && j.attempt == 1 && j.maxAttempts == 3
    ensures LastCode(s.log, JOB_ID) == 500
  {
    var s1 := FailedOnce(c);
    j := s1.store.jobs[JOB_ID];
    var s2 := Pick(c, s1, JOB_ID);
    domain := c.domain("u").value;
    var s3 := LoadPicked(c, s2, JOB_ID, domain);
    s, sem := CallFrom(c, s3, j, domain);
    NotesAppend(s3.log, Called(JOB_ID, 1), JOB_ID);
  }

  lemma LoadPicked(c: Config, s: State, id: Id, domain: string) returns (t: State)
    requires Picked(c, s, id) && c.Valid() && c.domain(s.store.jobs[id].url) == Some(domain)
    ensures Reachable(c, t) && 0 < |t.workers| && t.workers[0] == Seeking(s.store.jobs[id], domain, AtEntry)
    ensures Roomy(c, t.sync) && t.log == s.log
  {
    PickedIsRoomy(c, s, id);
    var ls;
    ls, t := Enter(c, s, 0, id, Done, ZERO);
    ReachableLeads(c, s, ls, [], t);
  }

  lemma CallFrom(c: Config, s: State, j: Job, domain: string) returns (t: State, sem: nat)
    requires Reachable(c, s) && 0 < |s.workers| && s.workers[0] == Seeking(j, domain, AtEntry) && Roomy(c, s.sync)
    ensures Reachable(c, t) && 0 < |t.workers| && t.workers[0] == Calling(j, domain, sem)
    ensures t.log == s.log + [Called(j.id, j.attempt)]
  {
    var ls, u := Seek(c, s, 0, j, domain);
    ReachableLeads(c, s, ls, [], u);
    sem := SemFor(s.sync, domain);
    t := Send(c, u, 0, u.workers[0]);
    ReachableLeads(c, u, [Work(0, Acquire)], [], t);
  }

  /** After a DELETE the worker brings the record back with its own outcome alone. */
  lemma AnswerAfterDelete(c: Config, s: State, j: Job, domain: string, sem: nat) returns (t: State)
    requires Reachable(c, s) && 0 < |s.workers| && s.workers[0] == Calling(j, domain, sem) && Runnable(j)
    requires j.id !in s.store.jobs && j.attempt == 1 && j.maxAttempts == 3
    ensures Reachable(c, t) && j.id in t.store.jobs && j.id in t.store.due
    ensures NoteOf(t.store.jobs[j.id]) == Note("reset", 0)
    ensures t.log == s.log + [Ended(j.id, Errored("reset"), ZERO)]
  {
    var env := PlainEnv(Errored("reset"));
    var u := Answer(c, s, 0, s.workers[0], env);
    ReachableLeads(c, s, [Work(0, Return(env.outcome, env.draw))], [], u);
    var ls;
    ls, t := Conclude(c, u, 0, j.id, Settle(j, env.outcome, env.draw), Some(sem), Done, Done);
    ReachableLeads(c, u, ls, OpsOf(j.id, Settle(j, env.outcome, env.draw), Done, Done), t);
    StoreAlong(c, u, ls);
    SettledId(j, env.outcome, env.draw);
    NewlySaved(u.store, After(j, env.outcome, env.draw));
  }

  lemma NewlySaved(st: Store, j: Job)
    requires j.id !in st.jobs
    ensures var t := ExecAll(st, OpsOf(j.id, Again(j), Done, Done));
      j.id in t.due && j.id in t.jobs && t.jobs[j.id] == j
  {
    var ops := OpsOf(j.id, Again(j), Done, Done);
    assert ops == [Put(j), Schedule(j.id, j.dueAtMs)];
    assert ops[1..] == [Schedule(j.id, j.dueAtMs)] && ops[1..][1..] == [];
    var saved := Exec(st, Put(j));
    assert ExecAll(st, ops) == ExecAll(saved, ops[1..]);
    assert ExecAll(saved, ops[1..]) == Exec(saved, Schedule(j.id, j.dueAtMs));
  }

  /** A DELETE that is undone wipes the record of earlier errors: the job runs on, but its last status code is gone. */
  lemma UndoneDeleteForgets(c: Config) returns (s: State)
    requires c.Valid() && c.domain("u").Some?
    ensures Reachable(c, s) && JOB_ID in s.store.jobs && JOB_ID in s.store.due
    ensures s.store.jobs[JOB_ID].lastHttpCode == 0 && LastCode(s.log, JOB_ID) == 500
  {
    var s1, j, domain, sem := SecondCall(c);
    ReachableStep(c, s1, ApiDelete(JOB_ID, Done));
    var s2 := Apply(c, s1, ApiDelete(JOB_ID, Done));
    s := AnswerAfterDelete(c, s2, j, domain, sem);
    NotesAppend(s2.log, Ended(JOB_ID, Errored("reset"), ZERO), JOB_ID);
  }
}
