/** Over whole runs: how a recurring job that keeps succeeding catches up with the clock, request by request. */
module CatchingUp {
  import opened Jobs
  import opened Lifecycle
  import opened StoreModel
  import opened Protocol
  import opened Pool
  import opened Claims
  import opened Records
  import opened Safety
  import opened Finality
  import opened DueIndex
  import opened Runs
  import Binary64

  // ----- fetched, but not answered

  /** A worker on its way to the answer of a request. */
  predicate Underway(w: Worker, id: Id) {
    (w.Taken? || w.Admitted? || w.Seeking? || w.Waiting? || w.Calling?) && Holds(w) == Some(id)
  }

  /** Only a new poll can lead to the next request for the job. */
  ghost predicate NotUnderway(s: State, id: Id) {
    && id !in Tail(s.sched) && InHand(s.sched, id) == 0 && id !in s.queue
    && forall i | 0 <= i < |s.workers| :: !Underway(s.workers[i], id)
  }

  lemma UnderwayAfter(c: Config, s: State, w: Worker, a: Act, id: Id)
    requires ActEnabled(c, s, w, a) && IdsMatch(s.store) && !Underway(w, id)
    ensures Underway(WorkerAfter(c, s, w, a), id) ==> a.Take? && s.queue[0] == id
  {
  }

  lemma NotUnderwayAfter(c: Config, s: State, l: Label, id: Id)
    requires Enabled(c, s, l) && IdsMatch(s.store) && NotUnderway(s, id) && (l.Fetch? ==> id !in l.ids)
    ensures NotUnderway(Apply(c, s, l), id)
  {
    if l.Work? {
      UnderwayAfter(c, s, s.workers[l.i], l.act, id);
    }
  }

  lemma AnsweredNotUnderway(c: Config, s: State, i: nat, o: Outcome, d: DrawOk)
    requires ClaimsInv(s) && Enabled(c, s, Work(i, Return(o, d)))
    ensures NotUnderway(Apply(c, s, Work(i, Return(o, d))), s.workers[i].job.id) && !NotUnderway(s, s.workers[i].job.id)
  {
    SoleClaim(s, i, s.workers[i].job.id);
    assert Underway(s.workers[i], s.workers[i].job.id);
  }

  // ----- counting answers

  function Current(s: State, id: Id): Job
    requires id in s.born
  {
    Folded(s.born[id], s.log)
  }

  /** The requests answered so far, up to a constant: those sent, less those still to be accounted for by an attempt. */
  function Answered(s: State, id: Id): int
    requires id in s.born
  {
    Sent(s.log, id) - |Tries(s.born[id], s.log)| + Current(s, id).attempt
  }

  /** While a job is scheduled, the requests answered are the requests sent. */
  lemma AnsweredWhenScheduled(c: Config, s: State, id: Id)
    requires Reachable(c, s) && id in s.store.jobs && id in s.store.due
    ensures id in s.born && Current(s, id).dueAtMs == s.store.jobs[id].dueAtMs
    ensures c.domain(s.born[id].url).Some? ==> Answered(s, id) == Sent(s.log, id)
  {
    RecordIsFold(c, s, id);
    assert Core(s.store.jobs[id]).attempt == Core(Current(s, id)).attempt;
    assert Core(s.store.jobs[id]).dueAtMs == Core(Current(s, id)).dueAtMs;
  }

  lemma NothingEnds(c: Config, s: State, l: Label, id: Id)
    requires Enabled(c, s, l) && id in s.born && s.born[id].id == id && !Ends(c, s, l, id)
    ensures var t := Apply(c, s, l);
      id in t.born && Answered(t, id) == Answered(s, id) && Current(t, id) == Current(s, id)
  {
    match EventOf(c, s, l)
    case None =>
    case Some(e) =>
      SentAppend(s.log, e, id);
      AppendEvent(s.born[id], s.log, e);
  }

  /** One more answer on the books: a success closes the series of attempts and prolongs the phase by one interval. */
  lemma SuccessOnBooks(c: Config, b: Books, j: Job, domain: string, o: Outcome, d: DrawOk)
    requires BooksOk(b) && CallingOk(c, b, j, domain) && j.jobType == RECURRING && o.IsSuccess() && o.Typed()
    ensures var born, log := b.born[j.id], b.log + [Ended(j.id, o, d)];
      && Folded(born, log).attempt == 0 && Tries(born, log) == []
      && Folded(born, log).dueAtMs == Add64(Folded(born, b.log).dueAtMs, born.intervalMs)
      && |Tries(born, b.log)| == Folded(born, b.log).attempt + 1
  {
    assert ONE_SHOT != RECURRING;
    var born := b.born[j.id];
    AppendEvent(born, b.log, Ended(j.id, o, d));
    assert Core(j).attempt == Core(Folded(born, b.log)).attempt;
  }

  /** A success is the answer to a request under way. */
  lemma SuccessAnswers(c: Config, s: State, l: Label, id: Id)
    requires RecordsInv(c, s) && Enabled(c, s, l) && Ends(c, s, l, id) && EventOf(c, s, l).value.outcome.IsSuccess()
    ensures l.Work? && l.act.Return? && s.workers[l.i].Calling? && s.workers[l.i].job.id == id
        && l.act.outcome.IsSuccess()
    ensures CallingOk(c, BooksOf(s), s.workers[l.i].job, s.workers[l.i].domain)
    ensures Apply(c, s, l).log == s.log + [Ended(id, l.act.outcome, l.act.draw)] && Apply(c, s, l).born == s.born
  {
    assert WorkerOk(c, BooksOf(s), s.workers[l.i]);
  }

  lemma SuccessEnds(c: Config, s: State, l: Label, id: Id)
    requires Inv(c, s) && Enabled(c, s, l) && id in s.born && s.born[id].jobType == RECURRING
    requires Ends(c, s, l, id) && EventOf(c, s, l).value.outcome.IsSuccess()
    ensures var t := Apply(c, s, l);
      && NotUnderway(t, id) && !NotUnderway(s, id) && id in t.born && t.born[id] == s.born[id]
      && Answered(t, id) == Answered(s, id) + 1
      && Current(t, id).dueAtMs == Add64(Current(s, id).dueAtMs, s.born[id].intervalMs)
  {
    SuccessAnswers(c, s, l, id);
    var w := s.workers[l.i];
    AnsweredNotUnderway(c, s, l.i, l.act.outcome, l.act.draw);
    SuccessOnBooks(c, BooksOf(s), w.job, w.domain, l.act.outcome, l.act.draw);
    SentAppend(s.log, Ended(id, l.act.outcome, l.act.draw), id);
  }

  // ----- runs

  /** The clock reads at most `now` and no execution of the job fails. */
  ghost predicate Fair(c: Config, s: State, l: Label, id: Id, now: int) {
    && (l.Fetch? ==> 0 <= l.nowMs <= now)
    && (Ends(c, s, l, id) ==> EventOf(c, s, l).value.outcome.IsSuccess())
  }

  ghost predicate AllFair(c: Config, s: State, ls: seq<Label>, id: Id, now: int)
    requires Valid(c, s, ls)
    decreases |ls|
  {
    ls == [] || (Fair(c, s, ls[0], id, now) && AllFair(c, Apply(c, s, ls[0]), ls[1..], id, now))
  }

  /** The job was due at `due` when `base` requests had been answered: one interval has passed for each answer since,
      the last of them begun by `now`, and a request is on its way only if its time has come. */
  ghost predicate OnTrack(s: State, id: Id, due: int, base: int, now: int) {
    && id in s.born && s.born[id].jobType == RECURRING && now + s.born[id].intervalMs <= INT64_MAX
    && var n, p := Answered(s, id) - base, s.born[id].intervalMs;
      && 0 <= n && Current(s, id).dueAtMs == due + n * p
      && (0 < n ==> due + (n - 1) * p <= now)
      && (Current(s, id).dueAtMs <= now || NotUnderway(s, id))
  }

  /** A stored job is fetched only when its time has come. */
  lemma FetchedInTime(c: Config, s: State, l: Label, id: Id, now: int)
    requires Inv(c, s) && Enabled(c, s, l) && l.Fetch? && 0 <= l.nowMs <= now < Binary64.TWO_53
    requires id in l.ids && id in s.store.jobs
    ensures id in s.born && Current(s, id).dueAtMs <= now
  {
    assert Pre(c, BooksOf(s), id);
    assert Core(s.store.jobs[id]).dueAtMs == Core(Current(s, id)).dueAtMs;
    assert StoredOk(BooksOf(s), id);
    ScoresExact(l.nowMs, s.store.jobs[id].dueAtMs);
  }

  lemma TrackQuiet(c: Config, s: State, l: Label, id: Id, now: int)
    requires Inv(c, s) && Enabled(c, s, l) && Fair(c, s, l, id, now) && now < Binary64.TWO_53
    requires id in s.born && (Current(s, id).dueAtMs <= now || NotUnderway(s, id)) && !Ends(c, s, l, id)
    requires l.Fetch? && id in l.ids ==> id in s.store.jobs
    ensures Current(s, id).dueAtMs <= now || NotUnderway(Apply(c, s, l), id)
  {
    RecordsIds(c, s);
    if Current(s, id).dueAtMs > now {
      if l.Fetch? && id in l.ids { FetchedInTime(c, s, l, id, now); }
      NotUnderwayAfter(c, s, l, id);
    }
  }

  lemma TrackStep(c: Config, s: State, l: Label, id: Id, due: int, base: int, now: int)
    requires Inv(c, s) && Enabled(c, s, l) && Fair(c, s, l, id, now) && OnTrack(s, id, due, base, now)
    requires now < Binary64.TWO_53 && (l.Fetch? && id in l.ids ==> id in s.store.jobs)
    ensures OnTrack(Apply(c, s, l), id, due, base, now)
  {
    if Ends(c, s, l, id) {
      SuccessEnds(c, s, l, id);
      TrackSuccess(s, Apply(c, s, l), id, due, base, now);
    } else {
      NothingEnds(c, s, l, id);
      TrackQuiet(c, s, l, id, now);
      SameBirth(c, s, l, id);
      TrackSame(s, Apply(c, s, l), id, due, base, now);
    }
  }

  lemma TrackSuccess(s: State, t: State, id: Id, due: int, base: int, now: int)
    requires OnTrack(s, id, due, base, now) && id in t.born && t.born[id] == s.born[id]
    requires NotUnderway(t, id) && !NotUnderway(s, id) && Answered(t, id) == Answered(s, id) + 1
    requires Current(t, id).dueAtMs == Add64(Current(s, id).dueAtMs, s.born[id].intervalMs)
    ensures OnTrack(t, id, due, base, now)
  {
    Distribute(Answered(s, id) - base, s.born[id].intervalMs);
  }

  lemma TrackSame(s: State, t: State, id: Id, due: int, base: int, now: int)
    requires OnTrack(s, id, due, base, now) && id in t.born && t.born[id] == s.born[id]
    requires Answered(t, id) == Answered(s, id) && Current(t, id) == Current(s, id)
    requires Current(s, id).dueAtMs <= now || NotUnderway(t, id)
    ensures OnTrack(t, id, due, base, now)
  {
  }

  lemma Distribute(n: int, p: int)
    ensures (n + 1) * p == n * p + p
  {
  }

  lemma {:induction false} TrackRun(c: Config, s: State, ls: seq<Label>, id: Id, due: int, base: int, now: int)
    requires Inv(c, s) && Valid(c, s, ls) && AllFair(c, s, ls, id, now) && OnTrack(s, id, due, base, now)
    requires now < Binary64.TWO_53 && id in Run(c, s, ls).store.jobs
    ensures OnTrack(Run(c, s, ls), id, due, base, now)
    decreases |ls|
  {
    if ls != [] {
      var l := ls[0];
      if l.Fetch? && id in l.ids && id !in s.store.jobs {
        OrphanIsGone(c, s, l, id);
        GoneForever(c, s, ls, id);
      } else {
        InvStep(c, s, l);
        TrackStep(c, s, l, id, due, base, now);
        TrackRun(c, Apply(c, s, l), ls[1..], id, due, base, now);
      }
    }
  }

  /** An ID scheduled without a record is that of a job deleted for good. */
  lemma OrphanIsGone(c: Config, s: State, l: Label, id: Id)
    requires Inv(c, s) && Enabled(c, s, l) && l.Fetch? && id in l.ids && id !in s.store.jobs
    ensures Gone(s, id)
  {
    assert Pre(c, BooksOf(s), id);
    forall i | 0 <= i < |s.workers|
      ensures !MayWrite(s.workers[i], id)
    {
      if MayWrite(s.workers[i], id) { SoleClaim(s, i, id); }
    }
  }

  // ----- catching up

  lemma Quotient(x: nat, p: nat, n: nat)
    requires 0 < p && (n == 0 || (n - 1) * p <= x)
    ensures n <= x / p + 1
    ensures x < n * p <==> n == x / p + 1
  {
    Binary64.DivMod(x, p);
    var q := x / p;
    if n >= q + 2 { Binary64.MulMonotone(q + 1, n - 1, p); }
    if n <= q { Binary64.MulMonotone(n, q, p); }
  }

  lemma SameBirth(c: Config, s: State, l: Label, id: Id)
    requires Enabled(c, s, l) && id in s.born
    ensures id in Apply(c, s, l).born && Apply(c, s, l).born[id] == s.born[id]
  {
  }

  lemma {:induction false} BornOnce(c: Config, s: State, ls: seq<Label>, id: Id)
    requires Valid(c, s, ls) && id in s.born
    ensures id in Run(c, s, ls).born && Run(c, s, ls).born[id] == s.born[id]
    decreases |ls|
  {
    if ls != [] {
      SameBirth(c, s, ls[0], id);
      BornOnce(c, Apply(c, s, ls[0]), ls[1..], id);
    }
  }

  /** A recurring job is overdue, the clock stays at or below `now`, and its executions succeed. Whenever in such a run
      (whatever else happens in it) the job is scheduled, one interval has passed for each request sent for it; there
      have been at most floor((now - due) / interval) + 1, and exactly that many once its due time has passed `now`. */
  lemma CatchUp(c: Config, s: State, ls: seq<Label>, id: Id, now: int)
    requires Reachable(c, s) && Valid(c, s, ls) && AllFair(c, s, ls, id, now)
    requires id in s.store.jobs && id in s.store.due && s.store.jobs[id].dueAtMs <= now < 9007199254740992
    requires id in s.born && s.born[id].jobType == RECURRING && c.domain(s.born[id].url).Some?
    requires now + s.born[id].intervalMs <= INT64_MAX
    requires var t := Run(c, s, ls); id in t.store.jobs && id in t.store.due
    ensures CaughtUp(s.store.jobs[id].dueAtMs, Run(c, s, ls).store.jobs[id].dueAtMs, s.born[id].intervalMs,
                     Sent(Run(c, s, ls).log, id) - Sent(s.log, id), now)
  {
    Departure(c, s, id, now);
    TrackReachable(c, s, ls, id, s.store.jobs[id].dueAtMs, Answered(s, id), now);
    BornOnce(c, s, ls, id);
    Arrival(c, s, Run(c, s, ls), id, now);
  }

  lemma Departure(c: Config, s: State, id: Id, now: int)
    requires Reachable(c, s) && id in s.store.jobs && id in s.store.due && s.store.jobs[id].dueAtMs <= now
    requires id in s.born && s.born[id].jobType == RECURRING && now + s.born[id].intervalMs <= INT64_MAX
    ensures OnTrack(s, id, s.store.jobs[id].dueAtMs, Answered(s, id), now)
  {
    AnsweredWhenScheduled(c, s, id);
  }

  lemma Arrival(c: Config, s: State, t: State, id: Id, now: int)
    requires Reachable(c, s) && Reachable(c, t)
    requires id in s.store.jobs && id in s.store.due && id in t.store.jobs && id in t.store.due
    requires id in s.born && id in t.born && s.born[id] == t.born[id] && c.domain(s.born[id].url).Some?
    requires s.store.jobs[id].dueAtMs <= now && OnTrack(t, id, s.store.jobs[id].dueAtMs, Answered(s, id), now)
    ensures CaughtUp(s.store.jobs[id].dueAtMs, t.store.jobs[id].dueAtMs, s.born[id].intervalMs,
                     Sent(t.log, id) - Sent(s.log, id), now)
  {
    SentBetween(c, s, t, id);
    assert t.born[id].intervalMs == s.born[id].intervalMs;
    TrackedBound(t, id, s.store.jobs[id].dueAtMs, Answered(s, id), now, t.store.jobs[id].dueAtMs, s.born[id].intervalMs,
                 Sent(t.log, id) - Sent(s.log, id));
  }

  lemma SentBetween(c: Config, s: State, t: State, id: Id)
    requires Reachable(c, s) && Reachable(c, t)
    requires id in s.store.jobs && id in s.store.due && id in t.store.jobs && id in t.store.due
    requires id in s.born && id in t.born && s.born[id] == t.born[id] && c.domain(s.born[id].url).Some?
    ensures Sent(t.log, id) - Sent(s.log, id) == Answered(t, id) - Answered(s, id)
    ensures Current(t, id).dueAtMs == t.store.jobs[id].dueAtMs
  {
    AnsweredWhenScheduled(c, s, id);
    AnsweredWhenScheduled(c, t, id);
  }

  lemma TrackReachable(c: Config, s: State, ls: seq<Label>, id: Id, due: int, base: int, now: int)
    requires Reachable(c, s) && Valid(c, s, ls) && AllFair(c, s, ls, id, now) && OnTrack(s, id, due, base, now)
    requires now < Binary64.TWO_53 && id in Run(c, s, ls).store.jobs
    ensures OnTrack(Run(c, s, ls), id, due, base, now) && Reachable(c, Run(c, s, ls))
  {
    ReachableInv(c, s);
    TrackRun(c, s, ls, id, due, base, now);
    ReachableRun(c, s, ls);
  }

  /** A due time has moved on by one interval for each request, but by no more than it takes to pass `now`. */
  predicate CaughtUp(due: int, next: int, p: int, sent: int, now: int)
    requires 0 < p
  {
    && next == due + sent * p
    && 0 <= sent <= (now - due) / p + 1
    && (next > now <==> sent == (now - due) / p + 1)
  }

  lemma TrackedBound(t: State, id: Id, due: int, base: int, now: int, next: int, p: int, sent: int)
    requires id in t.born && OnTrack(t, id, due, base, now) && due <= now
    requires next == Current(t, id).dueAtMs && p == t.born[id].intervalMs && sent == Answered(t, id) - base
    ensures 0 < p && CaughtUp(due, next, p, sent, now)
  {
    Quotient(now - due, p, sent);
  }
}
