/** Due times over a job's life: retries, and the phase of a recurring job. */
module Timings {
  import opened Jobs
  import opened Lifecycle
  import opened StoreModel
  import opened Protocol
  import opened Records
  import opened Safety
  import opened Util
  import Binary64

  // ----- retries

  /** The job an execution ends on: in play, and the fold of its outcomes so far. */
  ghost predicate Settling(c: Config, s: State, j: Job, id: Id) {
    && j.id == id && id in s.born && Runnable(j) && SameFixed(j, s.born[id])
    && Core(j) == Core(Folded(s.born[id], s.log))
    && j.status == PENDING && 0 <= j.attempt < j.maxAttempts
    && (c.domain(j.url).Some? ==> |Tries(s.born[id], s.log)| == j.attempt + 1)
  }

  lemma EndsOn(c: Config, s: State, l: Label, id: Id) returns (j: Job, held: Option<nat>)
    requires RecordsInv(c, s) && Enabled(c, s, l) && Ends(c, s, l, id)
    ensures Settling(c, s, j, id) && l.Work?
    ensures var e := EventOf(c, s, l).value;
      Apply(c, s, l).workers[l.i] == Carry(id, Settle(j, e.outcome, e.draw), held)
  {
    var w := s.workers[l.i];
    assert WorkerOk(c, BooksOf(s), w);
    if l.act.Load? {
      j, held := s.store.jobs[w.id], None;
      assert StoredOk(BooksOf(s), w.id);
    } else {
      j, held := w.job, Some(w.sem);
      assert SameFixed(Core(j), s.born[id]);
    }
  }

  /** A job to be run again comes due within the window its number of executions prescribes: after the k-th,
      min(base * 2^(k-1), 10 minutes) from now and up to 250 ms more, in int64 arithmetic. */
  predicate InWindow(born: NewJob, k: int, nowMs: int, w: Worker)
    requires Int64(nowMs)
  {
    w.Saving? && w.again ==>
      && 1 <= k < born.maxAttempts && Int64(w.job.dueAtMs)
      && var exact, wait := born.backoffBaseMs * Binary64.Pow2(k - 1), Sub64(w.job.dueAtMs, nowMs);
        if exact >= 600000 then 600000 <= wait <= 600250 else exact <= wait <= exact + 250
  }

  lemma WindowOfVerdict(born: NewJob, j: Job, o: Outcome, d: DrawOk, held: Option<nat>)
    requires Runnable(j) && SameFixed(j, born) && 0 <= j.attempt < j.maxAttempts && !o.IsSuccess()
    ensures InWindow(born, j.attempt + 1, d.nowMs, Carry(j.id, Settle(j, o, d), held))
  {
    RetryDue(j, o, d);
  }

  lemma RetryDue(j: Job, o: Outcome, d: DrawOk)
    requires Runnable(j) && !o.IsSuccess() && 0 <= j.attempt < j.maxAttempts
    ensures Settle(j, o, d).Again? ==>
              && After(j, o, d).attempt == j.attempt + 1 < j.maxAttempts
              && Int64(After(j, o, d).dueAtMs)
              && Sub64(After(j, o, d).dueAtMs, d.nowMs) == ExactBackoff(j.attempt + 1, j.backoffBaseMs) + d.jitterMs
  {
  }

  /** When an execution fails, by its URL, its request or its response, and is to be retried, the job comes due
      within the window for the number of its executions since the last success; that is the number of requests, if
      the URL has a domain. */
  lemma RetryWindow(c: Config, s: State, l: Label, id: Id)
    requires Reachable(c, s) && Enabled(c, s, l) && Ends(c, s, l, id) && !EventOf(c, s, l).value.outcome.IsSuccess()
    ensures l.Work? && id in s.born
    ensures var born, d := s.born[id], EventOf(c, s, l).value.draw;
      var k := Folded(born, s.log).attempt + 1;
      && InWindow(born, k, d.nowMs, Apply(c, s, l).workers[l.i])
      && (c.domain(born.url).Some? ==> k == |Tries(born, s.log)|)
  {
    ReachableInv(c, s);
    var j, held := EndsOn(c, s, l, id);
    assert Core(j).attempt == Core(Folded(s.born[id], s.log)).attempt;
    WindowOfVerdict(s.born[id], j, EventOf(c, s, l).value.outcome, EventOf(c, s, l).value.draw, held);
  }

  // ----- the waits of a life

  /** The time from an execution that is to be retried to the due time of the retry. */
  function WaitAfter(j: Job, o: Outcome, d: DrawOk): int
    requires Runnable(j)
  {
    if !o.IsSuccess() && Settle(j, o, d).Again? then Sub64(After(j, o, d).dueAtMs, d.nowMs) else 0
  }

  /** All the waits before retries in the history of a job. */
  function Waits(born: NewJob, log: seq<EventOk>): int {
    if log == [] then 0
    else
      var rest, e := log[..|log| - 1], log[|log| - 1];
      Waits(born, rest)
      + (if e.Ended? && e.id == born.id then WaitAfter(Folded(born, rest), e.outcome, e.draw) else 0)
  }

  ghost predicate WaitsWithin(n: int, born: NewJob, waits: int) {
    && 0 <= n < born.maxAttempts
    && TotalBackoff(n, born.backoffBaseMs) <= waits <= TotalBackoff(n, born.backoffBaseMs) + 250 * n
  }

  /** While a one-shot job is pending, its waits are those of its retries. */
  lemma {:induction false} WaitsWhilePending(born: NewJob, log: seq<EventOk>)
    requires born.jobType == ONE_SHOT && Folded(born, log).status == PENDING
    ensures WaitsWithin(Folded(born, log).attempt, born, Waits(born, log))
  {
    if log != [] {
      var rest, e := log[..|log| - 1], log[|log| - 1];
      var j := Folded(born, rest);
      if e.Ended? && e.id == born.id {
        FailedStays(j, e.outcome, e.draw);
        WaitsWhilePending(born, rest);
        OneMoreWait(born, j, e.outcome, e.draw, Waits(born, rest));
      } else {
        WaitsWhilePending(born, rest);
      }
    }
  }

  lemma OneMoreWait(born: NewJob, j: Job, o: Outcome, d: DrawOk, waits: int)
    requires Runnable(j) && SameFixed(j, born) && born.jobType == ONE_SHOT && After(j, o, d).status == PENDING
    requires WaitsWithin(j.attempt, born, waits)
    ensures WaitsWithin(After(j, o, d).attempt, born, waits + WaitAfter(j, o, d))
  {
    FailedStays(j, o, d);
    if !o.IsSuccess() { RetryDue(j, o, d); }
  }

  lemma FailedStays(j: Job, o: Outcome, d: DrawOk)
    requires Runnable(j) && j.jobType == ONE_SHOT && After(j, o, d).status == PENDING
    ensures j.status == PENDING && (!o.IsSuccess() ==> Settle(j, o, d).Again?)
  {
    assert PENDING != FAILED;
  }

  /** A one-shot job that can still run and whose record counts n attempts has waited for its n retries at least the
      sum of the base delays, and at most 250 ms more for each. */
  lemma RetryWaits(c: Config, s: State, id: Id)
    requires Reachable(c, s) && id in s.store.jobs && CanRun(s, id)
    ensures id in s.born
    ensures s.born[id].jobType == ONE_SHOT ==>
              WaitsWithin(s.store.jobs[id].attempt, s.born[id], Waits(s.born[id], s.log))
  {
    RecordIsFold(c, s, id);
    var j, k := s.store.jobs[id], Folded(s.born[id], s.log);
    assert Core(j).attempt == Core(k).attempt && Core(j).status == Core(k).status;
    if s.born[id].jobType == ONE_SHOT {
      WaitsWhilePending(s.born[id], s.log);
    }
  }

  // ----- over a whole life

  ghost predicate LifeBounded(born: NewJob, log: seq<EventOk>) {
    0 <= Waits(born, log) <= 600250 * (born.maxAttempts - 1)
  }

  lemma CappedWaits(n: int, born: NewJob, waits: int)
    requires WaitsWithin(n, born, waits)
    ensures 0 <= waits <= 600250 * n
    ensures 600250 * n <= 600250 * (born.maxAttempts - 1)
  {
    RetryHorizon(n, born.backoffBaseMs);
  }

  /** The next outcome of a pending job keeps the bound for its whole life. */
  lemma NextOutcomeBounded(born: NewJob, log: seq<EventOk>, o: Outcome, d: DrawOk)
    requires born.jobType == ONE_SHOT && Folded(born, log).status == PENDING && o.Typed()
    ensures LifeBounded(born, log + [Ended(born.id, o, d)])
  {
    assert (log + [Ended(born.id, o, d)])[..|log|] == log;
    WaitsWhilePending(born, log);
    CappedNext(born, Folded(born, log), o, d, Waits(born, log));
  }

  lemma CappedNext(born: NewJob, j: Job, o: Outcome, d: DrawOk, waits: int)
    requires Runnable(j) && SameFixed(j, born) && born.jobType == ONE_SHOT && j.status == PENDING
    requires WaitsWithin(j.attempt, born, waits)
    ensures 0 <= waits + WaitAfter(j, o, d) <= 600250 * (born.maxAttempts - 1)
  {
    CappedWaits(j.attempt, born, waits);
    if !o.IsSuccess() && Settle(j, o, d).Again? {
      OneMoreWait(born, j, o, d, waits);
      CappedWaits(j.attempt + 1, born, waits + WaitAfter(j, o, d));
      RetryDue(j, o, d);
    }
  }

  lemma LifeStep(c: Config, s: State, l: Label, id: Id)
    requires RecordsInv(c, s) && Enabled(c, s, l) && id in s.born && s.born[id].jobType == ONE_SHOT
    requires LifeBounded(s.born[id], s.log)
    ensures var t := Apply(c, s, l); id in t.born && t.born[id] == s.born[id] && LifeBounded(t.born[id], t.log)
  {
    if Ends(c, s, l, id) {
      var j, _ := EndsOn(c, s, l, id);
      assert Core(j).status == Core(Folded(s.born[id], s.log)).status;
      NextOutcomeBounded(s.born[id], s.log, EventOf(c, s, l).value.outcome, EventOf(c, s, l).value.draw);
    } else {
      WaitsUnmoved(c, s, l, id);
    }
  }

  lemma WaitsUnmoved(c: Config, s: State, l: Label, id: Id)
    requires Enabled(c, s, l) && id in s.born && s.born[id].id == id && !Ends(c, s, l, id)
    ensures Waits(s.born[id], Apply(c, s, l).log) == Waits(s.born[id], s.log)
    ensures id in Apply(c, s, l).born && Apply(c, s, l).born[id] == s.born[id]
  {
    match EventOf(c, s, l)
    case None =>
    case Some(e) => assert (s.log + [e])[..|s.log|] == s.log;
  }

  lemma {:induction false} UnbornWaits(born: NewJob, log: seq<EventOk>)
    requires forall e | e in log :: e.id != born.id
    ensures Waits(born, log) == 0
  {
    if log != [] {
      UnbornWaits(born, log[..|log| - 1]);
    }
  }

  ghost predicate BoundedIfBorn(s: State, id: Id) {
    id in s.born && s.born[id].jobType == ONE_SHOT ==> LifeBounded(s.born[id], s.log)
  }

  lemma BoundedStep(c: Config, s: State, l: Label, id: Id)
    requires RecordsInv(c, s) && Enabled(c, s, l) && BoundedIfBorn(s, id)
    ensures BoundedIfBorn(Apply(c, s, l), id)
  {
    if id in s.born {
      if s.born[id].jobType == ONE_SHOT { LifeStep(c, s, l, id); }
    } else if id in Apply(c, s, l).born {
      BornUnwaiting(c, s, l, id);
    }
  }

  lemma {:induction false} LivesBounded(c: Config, s: State, ls: seq<Label>, id: Id)
    requires Inv(c, s) && Valid(c, s, ls) && BoundedIfBorn(s, id)
    ensures BoundedIfBorn(Run(c, s, ls), id)
    decreases |ls|
  {
    if ls != [] {
      InvStep(c, s, ls[0]);
      BoundedStep(c, s, ls[0], id);
      LivesBounded(c, Apply(c, s, ls[0]), ls[1..], id);
    }
  }

  lemma BornUnwaiting(c: Config, s: State, l: Label, id: Id)
    requires RecordsInv(c, s) && Enabled(c, s, l) && id !in s.born && id in Apply(c, s, l).born
    ensures LifeBounded(Apply(c, s, l).born[id], Apply(c, s, l).log)
  {
    forall e | e in s.log
      ensures e.id != id
    {
      var k :| 0 <= k < |s.log| && s.log[k] == e;
      assert BooksOf(s).log[k].id in s.born;
    }
    UnbornWaits(l.job, s.log);
  }

  /** Whatever happens in a run, all the waits of a one-shot job together, whether it still runs, has failed, is
      deleted or is lost, come to at most 600250 ms for each attempt but the first. */
  lemma LifetimeWait(c: Config, s: State, id: Id)
    requires Reachable(c, s) && id in s.born && s.born[id].jobType == ONE_SHOT
    ensures LifeBounded(s.born[id], s.log)
  {
    var ls :| Valid(c, Init(c), ls) && Run(c, Init(c), ls) == s;
    InvInit(c);
    LivesBounded(c, Init(c), ls, id);
  }

  // ----- the phase of a recurring job

  /** The due time a phase started from, and the successes since. */
  datatype Anchor = Anchor(t0: int, successes: nat)

  /** A success prolongs the phase; a retry starts a new one. */
  function AnchorAfter(a: Anchor, j: Job, o: Outcome, d: DrawOk): Anchor
    requires Runnable(j)
  {
    if o.IsSuccess() then a.(successes := a.successes + 1)
    else if Settle(j, o, d).Again? then Anchor(After(j, o, d).dueAtMs, 0)
    else a
  }

  /** The current phase: from the start of the job, or from its latest retry. */
  function Phase(born: NewJob, log: seq<EventOk>): Anchor {
    if log == [] then Anchor(born.dueAtMs, 0)
    else
      var rest, e := log[..|log| - 1], log[|log| - 1];
      var before := Phase(born, rest);
      if e.Ended? && e.id == born.id then AnchorAfter(before, Folded(born, rest), e.outcome, e.draw) else before
  }

  const TWO_64: int := 0x1_0000_0000_0000_0000

  /** The due time of a recurring job is t0 + n * interval, taken modulo 2^64 as int64 addition does. */
  ghost predicate InPhase(born: NewJob, a: Anchor, due: int, wraps: nat) {
    && Int64(a.t0)
    && due == a.t0 + a.successes * born.intervalMs - wraps * TWO_64
    && (Int64(a.t0 + a.successes * born.intervalMs) ==> wraps == 0)
  }

  lemma {:induction false} PhaseHolds(born: NewJob, log: seq<EventOk>) returns (wraps: nat)
    requires born.jobType == RECURRING
    ensures InPhase(born, Phase(born, log), Folded(born, log).dueAtMs, wraps)
  {
    wraps := 0;
    if log != [] {
      var rest, e := log[..|log| - 1], log[|log| - 1];
      wraps := PhaseHolds(born, rest);
      if e.Ended? && e.id == born.id {
        wraps := PhaseStep(born, Phase(born, rest), Folded(born, rest), e.outcome, e.draw, wraps);
      }
    }
  }

  lemma PhaseStep(born: NewJob, a: Anchor, j: Job, o: Outcome, d: DrawOk, wraps: nat) returns (wraps': nat)
    requires born.jobType == RECURRING && Runnable(j) && SameFixed(j, born) && InPhase(born, a, j.dueAtMs, wraps)
    ensures InPhase(born, AnchorAfter(a, j, o, d), After(j, o, d).dueAtMs, wraps')
  {
    DueOfOutcome(j, o, d);
    wraps' := wraps;
    if o.IsSuccess() {
      assert ONE_SHOT != RECURRING;
      NextPhase(a, born.intervalMs);
      wraps' := AddWraps(j.dueAtMs, a.t0 + a.successes * born.intervalMs, born.intervalMs, wraps);
    } else if Settle(j, o, d).Again? {
      wraps' := 0;
    }
  }

  lemma NextPhase(a: Anchor, interval: nat)
    requires Int64(a.t0)
    ensures a.t0 + (a.successes + 1) * interval == a.t0 + a.successes * interval + interval
    ensures a.t0 + a.successes * interval >= INT64_MIN
  {
    assert a.successes * interval >= 0;
  }

  lemma AddWraps(due: int, x: int, interval: int, wraps: nat) returns (wraps': nat)
    requires Int64(due) && Int64(interval) && 0 < interval && x >= INT64_MIN
    requires due == x - wraps * TWO_64 && (Int64(x) ==> wraps == 0)
    ensures Add64(due, interval) == x + interval - wraps' * TWO_64
    ensures Int64(x + interval) ==> wraps' == 0
  {
    wraps' := if due + interval > INT64_MAX then wraps + 1 else wraps;
  }

  lemma DueOfOutcome(j: Job, o: Outcome, d: DrawOk)
    requires Runnable(j)
    ensures o.IsSuccess() && j.jobType != ONE_SHOT ==> After(j, o, d).dueAtMs == Add64(j.dueAtMs, j.intervalMs)
    ensures Settle(j, o, d).Park? ==> After(j, o, d).dueAtMs == j.dueAtMs
    ensures Int64(After(j, o, d).dueAtMs)
  {
  }

  lemma PhaseOfRecord(born: NewJob, log: seq<EventOk>, j: Job)
    requires born.jobType == RECURRING && Core(j) == Core(Folded(born, log))
    ensures var a := Phase(born, log);
      Int64(a.t0 + a.successes * born.intervalMs) ==> j.dueAtMs == a.t0 + a.successes * born.intervalMs
  {
    var wraps := PhaseHolds(born, log);
    assert Core(j).dueAtMs == Core(Folded(born, log)).dueAtMs;
  }

  /** In every run, the stored due time of a scheduled recurring job is t0 + n * interval, as long as that is an
      int64. */
  lemma RecurringPhase(c: Config, s: State, id: Id)
    requires Reachable(c, s) && id in s.store.jobs && id in s.store.due
    ensures id in s.born
    ensures var a := Phase(s.born[id], s.log);
      s.born[id].jobType == RECURRING && Int64(a.t0 + a.successes * s.born[id].intervalMs) ==>
        s.store.jobs[id].dueAtMs == a.t0 + a.successes * s.born[id].intervalMs
  {
    RecordIsFold(c, s, id);
    if s.born[id].jobType == RECURRING {
      PhaseOfRecord(s.born[id], s.log, s.store.jobs[id]);
    }
  }
}
