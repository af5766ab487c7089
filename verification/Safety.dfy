/** The combined invariant, kept by every label, faults and shutdown included, and what it means for whole runs. */
module Safety {
  import opened Jobs
  import opened Lifecycle
  import opened StoreModel
  import opened Protocol
  import opened Pool
  import opened Claims
  import opened Records
  import opened RecordsProofs
  import opened Limits
  import opened Runs
  import Binary64

  /** How far the shutdown has come. The scheduler is gone before the executor's channels are closed. */
  ghost predicate PhaseInv(s: State) {
    && (s.phase == Serving ==> !s.sched.Stopped? && forall i | 0 <= i < |s.workers| :: !s.workers[i].Exited?)
    && (s.phase.ClosingStop? || s.phase.StopClosed() ==> s.sched.Stopped?)
    && (s.phase.Finished? ==> forall i | 0 <= i < |s.workers| :: s.workers[i].Exited?)
  }

  ghost predicate Inv(c: Config, s: State) {
    ClaimsInv(s) && RecordsInv(c, s) && LimitsInv(c, s) && PhaseInv(s)
  }

  lemma PhaseStep(c: Config, s: State, l: Label)
    requires PhaseInv(s) && Enabled(c, s, l)
    ensures PhaseInv(Apply(c, s, l))
  {
  }

  lemma InvInit(c: Config)
    ensures Inv(c, Init(c))
  {
    var s := Init(c);
    FreshSyncOk(c);
    forall id
      ensures Live(s, id) == 0
    {
      CountNone(s.workers, Claimer(id));
    }
  }

  lemma InvStep(c: Config, s: State, l: Label)
    requires Inv(c, s) && Enabled(c, s, l)
    ensures Inv(c, Apply(c, s, l))
  {
    RecordsIds(c, s);
    if l.ApiCreate? {
      Unborn(c, s, l.job.id);
    }
    ClaimsStep(c, s, l);
    RecordsStep(c, s, l);
    LimitsStep(c, s, l);
    PhaseStep(c, s, l);
  }

  lemma {:induction false} InvRun(c: Config, s: State, ls: seq<Label>)
    requires Inv(c, s) && Valid(c, s, ls)
    ensures Inv(c, Run(c, s, ls))
    decreases |ls|
  {
    if ls != [] {
      InvStep(c, s, ls[0]);
      InvRun(c, Apply(c, s, ls[0]), ls[1..]);
    }
  }

  /** A state some run from the start leads to: any interleaving, any faults, crashes and shutdowns. */
  ghost predicate Reachable(c: Config, s: State) {
    exists ls :: Valid(c, Init(c), ls) && Run(c, Init(c), ls) == s
  }

  lemma ReachableInv(c: Config, s: State)
    requires Reachable(c, s)
    ensures Inv(c, s)
  {
    var ls :| Valid(c, Init(c), ls) && Run(c, Init(c), ls) == s;
    InvInit(c);
    InvRun(c, Init(c), ls);
  }

  lemma ReachableRun(c: Config, s: State, ls: seq<Label>)
    requires Reachable(c, s) && Valid(c, s, ls)
    ensures Reachable(c, Run(c, s, ls))
  {
    var first :| Valid(c, Init(c), first) && Run(c, Init(c), first) == s;
    RunConcat(c, Init(c), first, ls);
  }

  // ----- claims

  /** In every reachable state an ID has at most one claim, a claimed ID is neither scheduled nor left in the
      batch, and no two webhook requests for one job overlap. */
  lemma ClaimUniqueness(c: Config, s: State, id: Id)
    requires Reachable(c, s)
    ensures Live(s, id) <= 1
    ensures Live(s, id) == 1 ==> id !in s.store.due && id !in Tail(s.sched)
    ensures forall i, j |
              0 <= i < |s.workers| && 0 <= j < |s.workers| && s.workers[i].Calling? && s.workers[j].Calling? ::
              s.workers[i].job.id == s.workers[j].job.id ==> i == j
  {
    ReachableInv(c, s);
    forall i, j | 0 <= i < |s.workers| && 0 <= j < |s.workers| && s.workers[i].Calling? && s.workers[j].Calling?
      ensures s.workers[i].job.id == s.workers[j].job.id ==> i == j
    {
      SoleClaim(s, i, s.workers[i].job.id);
    }
  }

  // ----- attempts

  /** However the process crashes and whatever store calls fail, the requests sent for a job since its last
      success (for a one-shot job: ever) carry the attempt numbers 0, 1, 2, ... in this order, each once, and
      there are at most MaxAttempts of them. */
  lemma AtMostOncePerAttempt(c: Config, s: State, id: Id)
    requires Reachable(c, s) && id in s.born
    ensures var tries := Tries(s.born[id], s.log);
      && |tries| <= s.born[id].maxAttempts && (forall k | 0 <= k < |tries| :: tries[k] == k)
      && (s.born[id].jobType == ONE_SHOT ==> Sent(s.log, id) == |tries|)
  {
    ReachableInv(c, s);
    assert TriesOk(BooksOf(s).born[id], BooksOf(s).log);
    if s.born[id].jobType == ONE_SHOT {
      OneShotTriesAreAll(s.born[id], s.log);
    }
  }

  lemma {:induction false} OneShotTriesAreAll(born: NewJob, log: seq<EventOk>)
    requires born.jobType == ONE_SHOT
    ensures |Tries(born, log)| == Sent(log, born.id)
  {
    if log != [] {
      OneShotTriesAreAll(born, log[..|log| - 1]);
    }
  }

  /** A worker that has the ID of a job and has not sent its request yet. */
  predicate Unsent(w: Worker, id: Id) {
    (w.Taken? || w.Admitted? || w.Seeking? || w.Waiting?) && Holds(w) == Some(id)
  }

  /** Scheduled, or claimed for an execution whose request is still to be sent: the job can still run. */
  ghost predicate CanRun(s: State, id: Id) {
    || id in s.store.due || InHand(s.sched, id) == 1 || id in s.queue
    || exists i :: 0 <= i < |s.workers| && Unsent(s.workers[i], id)
  }

  lemma CanRunIsFit(c: Config, s: State, id: Id)
    requires RecordsInv(c, s) && CanRun(s, id)
    ensures Pre(c, BooksOf(s), id)
  {
    var b := BooksOf(s);
    if id in s.queue {
      var k :| 0 <= k < |s.queue| && s.queue[k] == id;
      assert Pre(c, b, s.queue[k]);
    } else if i :| 0 <= i < |s.workers| && Unsent(s.workers[i], id) {
      assert WorkerOk(c, b, s.workers[i]);
    }
  }

  /** The record of a job that can still run is the fold of the outcomes of its job, up to the record of the last error:
      the interleaved, faulty system and the sequential one agree on it. */
  lemma RecordIsFold(c: Config, s: State, id: Id)
    requires Reachable(c, s) && id in s.store.jobs && CanRun(s, id)
    ensures id in s.born && Core(s.store.jobs[id]) == Core(Folded(s.born[id], s.log))
    ensures s.store.jobs[id].status == PENDING && s.store.jobs[id].attempt < s.born[id].maxAttempts
    ensures c.domain(s.born[id].url).Some? ==> |Tries(s.born[id], s.log)| == s.store.jobs[id].attempt
  {
    ReachableInv(c, s);
    assert StoredOk(BooksOf(s), id);
    CanRunIsFit(c, s, id);
  }

  // ----- concurrency

  /** In every reachable state at most MaxPerDomain requests to a domain and MaxInflight requests in all are under way,
      and a worker that has taken a job is let in at once. */
  lemma ConcurrencyLimits(c: Config, s: State, domain: string)
    requires Reachable(c, s)
    ensures |s.workers| == c.maxInflight && |s.queue| <= 2 * c.maxInflight
    ensures CallsTo(s, domain) <= c.maxPerDomain && Calls(s) <= c.maxInflight
    ensures forall i | 0 <= i < |s.workers| && s.workers[i].Taken? :: Enabled(c, s, Work(i, Admit))
  {
    ReachableInv(c, s);
    LimitsHold(c, s, domain);
    forall i | 0 <= i < |s.workers| && s.workers[i].Taken?
      ensures Enabled(c, s, Work(i, Admit))
    {
      GlobalNeverBlocks(c, s, i);
    }
  }

  // ----- the index

  /** A job that is both stored and scheduled has the score of its stored due time, and is pending. */
  lemma IndexAgreement(c: Config, s: State, id: Id)
    requires Reachable(c, s) && id in s.store.jobs && id in s.store.due
    ensures s.store.due[id] == Binary64.OfInt(s.store.jobs[id].dueAtMs)
    ensures s.store.jobs[id].status != FAILED
  {
    ReachableInv(c, s);
    assert Pre(c, BooksOf(s), id);
  }

  // ----- jobs that never run again

  /** Created once, and now neither scheduled nor claimed nor about to be claimed. */
  ghost predicate Dead(s: State, id: Id) {
    id in s.born && id !in s.store.due && Live(s, id) == 0 && id !in Tail(s.sched)
  }

  /** The number of webhook requests sent for a job. */
  function Sent(log: seq<EventOk>, id: Id): nat {
    if log == [] then 0
    else Sent(log[..|log| - 1], id) + One(log[|log| - 1].Called? && log[|log| - 1].id == id)
  }

  lemma SentAppend(log: seq<EventOk>, e: EventOk, id: Id)
    ensures Sent(log + [e], id) == Sent(log, id) + One(e.Called? && e.id == id)
  {
    assert (log + [e])[..|log|] == log;
  }

  lemma StaysDead(c: Config, s: State, l: Label, id: Id)
    requires ClaimsInv(s) && IdsMatch(s.store) && Enabled(c, s, l) && Dead(s, id)
    ensures Dead(Apply(c, s, l), id)
    ensures l.Work? ==> Holds(s.workers[l.i]) != Some(id)
  {
    LiveAfter(c, s, l, id);
    TailAfter(c, s, l);
    DueAfter(c, s, l, id);
    if l.Work? && Holds(s.workers[l.i]) == Some(id) {
      CountOne(s.workers, l.i, Claimer(id));
    }
  }

  lemma NothingSent(c: Config, s: State, l: Label, id: Id)
    requires Enabled(c, s, l) && (l.Work? ==> Holds(s.workers[l.i]) != Some(id))
    ensures Sent(Apply(c, s, l).log, id) == Sent(s.log, id)
  {
    match EventOf(c, s, l)
    case None =>
    case Some(e) => SentAppend(s.log, e, id);
  }

  lemma DeadStep(c: Config, s: State, l: Label, id: Id)
    requires Inv(c, s) && Enabled(c, s, l) && Dead(s, id)
    ensures Dead(Apply(c, s, l), id) && Sent(Apply(c, s, l).log, id) == Sent(s.log, id)
  {
    RecordsIds(c, s);
    StaysDead(c, s, l, id);
    NothingSent(c, s, l, id);
  }

  lemma {:induction false} DeadForever(c: Config, s: State, ls: seq<Label>, id: Id)
    requires Inv(c, s) && Valid(c, s, ls) && Dead(s, id)
    ensures Dead(Run(c, s, ls), id) && Sent(Run(c, s, ls).log, id) == Sent(s.log, id)
    decreases |ls|
  {
    if ls != [] {
      InvStep(c, s, ls[0]);
      DeadStep(c, s, ls[0], id);
      DeadForever(c, Apply(c, s, ls[0]), ls[1..], id);
    }
  }
}
