/**
 What the stored records, the workers' copies of them and the history of webhook requests have to do with
 each other: every job that can still run is the fold of its own outcomes.
 */
module Records {
  import opened Jobs
  import opened Lifecycle
  import opened StoreModel
  import opened Protocol
  import opened Pool
  import opened Claims
  import Binary64

  /** The parts of the state the invariant speaks of. */
  datatype Books = Books(jobs: map<Id, Job>, born: map<Id, NewJob>, log: seq<EventOk>)

  function BooksOf(s: State): Books {
    Books(s.store.jobs, s.born, s.log)
  }

  function TriesExpected(c: Config, j: Job, n: nat): seq<int> {
    Iota(if c.domain(j.url).Some? then n else 0)
  }

  /** A record of a job that may run now: it is the fold of the job's outcomes, it is pending with attempts left,
      and its attempt number is the number of requests already sent. */
  predicate Fit(c: Config, b: Books, j: Job) {
    && j.id in b.born
    && Core(j) == Core(Folded(b.born[j.id], b.log))
    && Runnable(j)
    && j.status == PENDING
    && 0 <= j.attempt < j.maxAttempts
    && Tries(b.born[j.id], b.log) == TriesExpected(c, j, j.attempt)
  }

  /** What holds of an ID before a worker loads its record. */
  predicate Pre(c: Config, b: Books, id: Id) {
    id in b.born && (id in b.jobs ==> Fit(c, b, b.jobs[id]))
  }

  /** A worker's copy agrees with the record it was loaded from, unless that has been deleted. */
  predicate CopyOk(c: Config, b: Books, j: Job, domain: string) {
    Fit(c, b, j) && c.domain(j.url) == Some(domain) && (j.id in b.jobs ==> b.jobs[j.id] == j)
  }

  predicate CallingOk(c: Config, b: Books, j: Job, domain: string) {
    && j.id in b.born
    && Core(j) == Core(Folded(b.born[j.id], b.log))
    && Runnable(j)
    && j.status == PENDING
    && 0 <= j.attempt < j.maxAttempts
    && c.domain(j.url) == Some(domain)
    && Tries(b.born[j.id], b.log) == Iota(j.attempt + 1)
    && (j.id in b.jobs ==> b.jobs[j.id] == j)
  }

  predicate SavingOk(c: Config, b: Books, j: Job, again: bool) {
    && j.id in b.born
    && Core(j) == Core(Folded(b.born[j.id], b.log))
    && Runnable(j)
    && (again ==> Fit(c, b, j))
    && (!again ==> j.status == FAILED)
    && (j.id in b.jobs ==> b.jobs[j.id].status == PENDING)
  }

  predicate WorkerOk(c: Config, b: Books, w: Worker) {
    match w
    case Taken(id) => Pre(c, b, id)
    case Admitted(id) => Pre(c, b, id)
    case Seeking(job, domain, _) => CopyOk(c, b, job, domain)
    case Waiting(job, domain, _) => CopyOk(c, b, job, domain)
    case Calling(job, domain, _) => CallingOk(c, b, job, domain)
    case Saving(job, again, _) => SavingOk(c, b, job, again)
    case Scheduling(job, _) => Fit(c, b, job) && (job.id in b.jobs ==> Core(b.jobs[job.id]) == Core(job))
    case Dropping(id, _) =>
      && id in b.born && b.born[id].jobType == ONE_SHOT && (id in b.jobs ==> b.jobs[id].status == PENDING)
      && LastOutcome(b.log, id).Some? && LastOutcome(b.log, id).value.IsSuccess()
    case Unwinding(_) => true
    case Leaving => true
    case Idle => true
    case Exited => true
  }

  predicate StoredOk(b: Books, id: Id)
    requires id in b.jobs
  {
    id in b.born && SameFixed(b.jobs[id], b.born[id]) && Runnable(b.jobs[id])
  }

  /** The requests sent for a job, since its last success if it recurs, are numbered 0, 1, 2, ... below its limit. */
  predicate TriesOk(born: NewJob, log: seq<EventOk>) {
    var tries := Tries(born, log);
    tries == Iota(|tries|) && |tries| <= born.maxAttempts
  }

  ghost predicate BooksOk(b: Books) {
    && (forall id | id in b.born :: b.born[id].id == id && TriesOk(b.born[id], b.log))
    && (forall id | id in b.jobs :: StoredOk(b, id))
    && (forall k | 0 <= k < |b.log| :: b.log[k].id in b.born)
  }

  ghost predicate DueOk(c: Config, b: Books, due: map<Id, int>) {
    forall id | id in due :: Pre(c, b, id) && (id in b.jobs ==> due[id] == Binary64.OfInt(b.jobs[id].dueAtMs))
  }

  ghost predicate SchedulerOk(c: Config, b: Books, due: map<Id, int>, d: Scheduler) {
    && (forall k | 0 <= k < |Tail(d)| :: Tail(d)[k] in b.born && (Tail(d)[k] in b.jobs ==> Tail(d)[k] in due))
    && (d.Handing? ==> Pre(c, b, d.id))
  }

  ghost predicate RecordsInv(c: Config, s: State) {
    var b := BooksOf(s);
    && BooksOk(b)
    && DueOk(c, b, s.store.due)
    && SchedulerOk(c, b, s.store.due, s.sched)
    && (forall k | 0 <= k < |s.queue| :: Pre(c, b, s.queue[k]))
    && (forall i | 0 <= i < |s.workers| :: WorkerOk(c, b, s.workers[i]))
  }

  lemma RecordsIds(c: Config, s: State)
    requires RecordsInv(c, s)
    ensures IdsMatch(s.store)
    ensures forall id :: Live(s, id) > 0 || id in Tail(s.sched) ==> id in s.born
  {
    forall id | id in s.store.jobs
      ensures s.store.jobs[id].id == id
    {
      assert StoredOk(BooksOf(s), id);
    }
    forall id | Live(s, id) > 0
      ensures id in s.born
    {
      OccursIn(s.queue, id);
      if Count(s.workers, Claimer(id)) > 0 {
        var i := CountSome(s.workers, Claimer(id));
        assert WorkerOk(c, BooksOf(s), s.workers[i]);
      }
    }
  }

  // ----- changes that concern one job

  /** From `b` to `d`, only the job `x` is concerned. */
  ghost predicate OnlyAbout(b: Books, d: Books, x: Id) {
    && (forall id | id in b.born :: id in d.born && (id != x ==> d.born[id] == b.born[id]))
    && (forall id | id != x :: (id in b.jobs <==> id in d.jobs) && (id in b.jobs ==> d.jobs[id] == b.jobs[id]))
    && (d.log == b.log || (|d.log| == |b.log| + 1 && d.log[..|b.log|] == b.log && d.log[|b.log|].id == x))
  }

  lemma HistoryFrame(b: Books, d: Books, x: Id, id: Id)
    requires OnlyAbout(b, d, x) && id != x && id in b.born && b.born[id].id == id
    ensures Folded(d.born[id], d.log) == Folded(b.born[id], b.log)
    ensures Tries(d.born[id], d.log) == Tries(b.born[id], b.log)
    ensures LastOutcome(d.log, id) == LastOutcome(b.log, id)
  {
    if d.log != b.log {
      assert d.log == b.log + [d.log[|b.log|]];
      AppendEvent(b.born[id], b.log, d.log[|b.log|]);
    }
  }

  lemma FitFrame(c: Config, b: Books, d: Books, x: Id, j: Job)
    requires BooksOk(b) && OnlyAbout(b, d, x) && j.id != x && j.id in b.born
    ensures Fit(c, b, j) == Fit(c, d, j)
  {
    HistoryFrame(b, d, x, j.id);
  }

  lemma PreFrame(c: Config, b: Books, d: Books, x: Id, id: Id)
    requires BooksOk(b) && OnlyAbout(b, d, x) && id != x && Pre(c, b, id)
    ensures Pre(c, d, id)
  {
    if id in b.jobs {
      assert StoredOk(b, id);
      FitFrame(c, b, d, x, b.jobs[id]);
    }
  }

  lemma CopyFrame(c: Config, b: Books, d: Books, x: Id, j: Job, domain: string)
    requires BooksOk(b) && OnlyAbout(b, d, x) && j.id != x && j.id in b.born
    ensures CopyOk(c, b, j, domain) == CopyOk(c, d, j, domain)
  {
    FitFrame(c, b, d, x, j);
  }

  lemma CallingFrame(c: Config, b: Books, d: Books, x: Id, j: Job, domain: string)
    requires BooksOk(b) && OnlyAbout(b, d, x) && j.id != x && j.id in b.born
    ensures CallingOk(c, b, j, domain) == CallingOk(c, d, j, domain)
  {
    HistoryFrame(b, d, x, j.id);
  }

  lemma SavingFrame(c: Config, b: Books, d: Books, x: Id, j: Job, again: bool)
    requires BooksOk(b) && OnlyAbout(b, d, x) && j.id != x && j.id in b.born
    ensures SavingOk(c, b, j, again) == SavingOk(c, d, j, again)
  {
    FitFrame(c, b, d, x, j);
    HistoryFrame(b, d, x, j.id);
  }

  lemma SchedulingFrame(c: Config, b: Books, d: Books, x: Id, j: Job, held: Option<nat>)
    requires BooksOk(b) && OnlyAbout(b, d, x) && j.id != x && WorkerOk(c, b, Scheduling(j, held))
    ensures WorkerOk(c, d, Scheduling(j, held))
  {
    FitFrame(c, b, d, x, j);
  }

  lemma EarlyFrame(c: Config, b: Books, d: Books, x: Id, w: Worker)
    requires w.Taken? || w.Admitted? || w.Seeking? || w.Waiting?
    requires BooksOk(b) && OnlyAbout(b, d, x) && Holds(w) != Some(x) && WorkerOk(c, b, w)
    ensures WorkerOk(c, d, w)
  {
    if w.Taken? || w.Admitted? {
      PreFrame(c, b, d, x, w.id);
    } else {
      CopyFrame(c, b, d, x, w.job, w.domain);
    }
  }

  lemma LateFrame(c: Config, b: Books, d: Books, x: Id, w: Worker)
    requires w.Calling? || w.Saving? || w.Scheduling? || w.Dropping?
    requires BooksOk(b) && OnlyAbout(b, d, x) && Holds(w) != Some(x) && WorkerOk(c, b, w)
    ensures WorkerOk(c, d, w)
  {
    if w.Calling? {
      CallingFrame(c, b, d, x, w.job, w.domain);
    } else if w.Saving? {
      SavingFrame(c, b, d, x, w.job, w.again);
    } else if w.Scheduling? {
      SchedulingFrame(c, b, d, x, w.job, w.held);
    } else {
      HistoryFrame(b, d, x, w.id);
    }
  }

  lemma WorkerFrame(c: Config, b: Books, d: Books, x: Id, w: Worker)
    requires BooksOk(b) && OnlyAbout(b, d, x) && Holds(w) != Some(x) && WorkerOk(c, b, w)
    ensures WorkerOk(c, d, w)
  {
    if w.Taken? || w.Admitted? || w.Seeking? || w.Waiting? {
      EarlyFrame(c, b, d, x, w);
    } else if w.Calling? || w.Saving? || w.Scheduling? || w.Dropping? {
      LateFrame(c, b, d, x, w);
    }
  }
}
