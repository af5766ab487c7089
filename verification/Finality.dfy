/** Failed jobs, deleted jobs, and how a job ceases to be pending. */
module Finality {
  import opened Jobs
  import opened Lifecycle
  import opened StoreModel
  import opened Protocol
  import opened Pool
  import opened Claims
  import opened Records
  import opened RecordsProofs
  import opened Safety

  // ----- failed jobs

  /** A stored job that is scheduled, fetched or claimed is pending. */
  lemma InPlayIsPending(c: Config, s: State, id: Id)
    requires Inv(c, s) && id in s.store.jobs
    ensures id in s.store.due || Live(s, id) > 0 || id in Tail(s.sched) ==> s.store.jobs[id].status == PENDING
  {
    var b := BooksOf(s);
    OccursIn(s.queue, id);
    if Count(s.workers, Claimer(id)) > 0 {
      var i := CountSome(s.workers, Claimer(id));
      assert WorkerOk(c, b, s.workers[i]);
    }
  }

  lemma FailedIsDead(c: Config, s: State, id: Id)
    requires Inv(c, s) && id in s.store.jobs && s.store.jobs[id].status == FAILED
    ensures Dead(s, id)
  {
    InPlayIsPending(c, s, id);
    assert StoredOk(BooksOf(s), id);
  }

  /** A job once stored as failed, one-shot or recurring, is never scheduled and never sent again. */
  lemma FailedForever(c: Config, s: State, ls: seq<Label>, id: Id)
    requires Reachable(c, s) && id in s.store.jobs && s.store.jobs[id].status == FAILED && Valid(c, s, ls)
    ensures id !in Run(c, s, ls).store.due && Sent(Run(c, s, ls).log, id) == Sent(s.log, id)
  {
    ReachableInv(c, s);
    FailedIsDead(c, s, id);
    DeadForever(c, s, ls, id);
  }

  /** The record of a failed job is the fold of all its outcomes. */
  ghost predicate FailedFold(s: State, id: Id) {
    id in s.store.jobs && s.store.jobs[id].status == FAILED ==>
      id in s.born && Core(s.store.jobs[id]) == Core(Folded(s.born[id], s.log))
  }

  lemma FailedStaysFold(c: Config, s: State, l: Label, id: Id)
    requires Enabled(c, s, l) && FailedFold(s, id) && Dead(s, id) && s.born[id].id == id && IdsMatch(s.store)
    requires id in s.store.jobs && s.store.jobs[id].status == FAILED
    requires l.Work? ==> Holds(s.workers[l.i]) != Some(id)
    ensures FailedFold(Apply(c, s, l), id)
  {
    match EventOf(c, s, l)
    case None =>
    case Some(e) => AppendEvent(s.born[id], s.log, e);
  }

  /** A job becomes a failed one by an update. */
  lemma BecomesFailed(c: Config, s: State, l: Label, id: Id)
    requires Enabled(c, s, l) && (id in s.store.jobs ==> s.store.jobs[id].status != FAILED)
    requires id in Apply(c, s, l).store.jobs && Apply(c, s, l).store.jobs[id].status == FAILED
    ensures l.Work? && l.act.Save? && l.act.net.Effect() && s.workers[l.i].Saving? && s.workers[l.i].job.id == id
  {
    assert PENDING != FAILED;
  }

  lemma SavedParts(c: Config, s: State, i: nat, net: Net)
    requires Enabled(c, s, Work(i, Save(net))) && net.Effect()
    ensures var t := Apply(c, s, Work(i, Save(net)));
      t.store.jobs == Write(s.store.jobs, s.workers[i].job) && t.born == s.born && t.log == s.log
  {
  }

  lemma SavedCore(c: Config, b: Books, w: Worker)
    requires BooksOk(b) && WorkerOk(c, b, w) && w.Saving?
    ensures w.job.id in b.born && Core(Write(b.jobs, w.job)[w.job.id]) == Core(Folded(b.born[w.job.id], b.log))
  {
    RecordSaved(c, b, w.job, w.again);
  }

  lemma SavedFold(c: Config, s: State, i: nat, net: Net)
    requires RecordsInv(c, s) && Enabled(c, s, Work(i, Save(net))) && net.Effect()
    ensures FailedFold(Apply(c, s, Work(i, Save(net))), s.workers[i].job.id)
  {
    SavedParts(c, s, i, net);
    SavedCore(c, BooksOf(s), s.workers[i]);
  }

  lemma FailedFoldStep(c: Config, s: State, l: Label, id: Id)
    requires Inv(c, s) && Enabled(c, s, l) && FailedFold(s, id)
    ensures FailedFold(Apply(c, s, l), id)
  {
    if id in s.store.jobs && s.store.jobs[id].status == FAILED {
      FailedIsDead(c, s, id);
      RecordsIds(c, s);
      StaysDead(c, s, l, id);
      FailedStaysFold(c, s, l, id);
    } else if id in Apply(c, s, l).store.jobs && Apply(c, s, l).store.jobs[id].status == FAILED {
      BecomesFailed(c, s, l, id);
      SavedFold(c, s, l.i, l.act.net);
    }
  }

  lemma {:induction false} FailedFoldRun(c: Config, s: State, ls: seq<Label>, id: Id)
    requires Inv(c, s) && Valid(c, s, ls) && FailedFold(s, id)
    ensures FailedFold(Run(c, s, ls), id)
    decreases |ls|
  {
    if ls != [] {
      InvStep(c, s, ls[0]);
      FailedFoldStep(c, s, ls[0], id);
      FailedFoldRun(c, Apply(c, s, ls[0]), ls[1..], id);
    }
  }

  /** A job that is stored as failed has the record one gets by applying its outcomes one after the other. */
  lemma FailedRecordIsFold(c: Config, s: State, id: Id)
    requires Reachable(c, s) && id in s.store.jobs && s.store.jobs[id].status == FAILED
    ensures id in s.born && Core(s.store.jobs[id]) == Core(Folded(s.born[id], s.log))
  {
    var ls :| Valid(c, Init(c), ls) && Run(c, Init(c), ls) == s;
    InvInit(c);
    FailedFoldRun(c, Init(c), ls, id);
  }

  // ----- deleted jobs

  /** A worker holds a loaded copy that it may still write back. */
  predicate MayWrite(w: Worker, id: Id) {
    (w.Seeking? || w.Waiting? || w.Calling? || w.Saving?) && w.job.id == id
  }

  ghost predicate Gone(s: State, id: Id) {
    id in s.born && id !in s.store.jobs && forall i | 0 <= i < |s.workers| :: !MayWrite(s.workers[i], id)
  }

  lemma MayWriteAfter(c: Config, s: State, w: Worker, a: Act, id: Id)
    requires ActEnabled(c, s, w, a) && IdsMatch(s.store) && !MayWrite(w, id)
    ensures MayWrite(WorkerAfter(c, s, w, a), id) ==> a.Load? && id in s.store.jobs
  {
    match a
    case Load(net, draw) =>
      if w.id in s.store.jobs { CarryHolds(s.store.jobs[w.id], BadUrl, draw, None); }
    case Return(outcome, draw) => CarryHolds(w.job, outcome, draw, Some(w.sem));
    case _ =>
  }

  lemma GoneAfterWork(c: Config, s: State, i: nat, a: Act, id: Id)
    requires Enabled(c, s, Work(i, a)) && IdsMatch(s.store) && Gone(s, id)
    ensures Gone(Apply(c, s, Work(i, a)), id)
    ensures Sent(Apply(c, s, Work(i, a)).log, id) == Sent(s.log, id)
  {
    MayWriteAfter(c, s, s.workers[i], a, id);
    match EventOf(c, s, Work(i, a))
    case None =>
    case Some(e) => SentAppend(s.log, e, id);
  }

  lemma GoneStep(c: Config, s: State, l: Label, id: Id)
    requires Enabled(c, s, l) && IdsMatch(s.store) && Gone(s, id)
    ensures Gone(Apply(c, s, l), id) && Sent(Apply(c, s, l).log, id) == Sent(s.log, id)
  {
    if l.Work? {
      GoneAfterWork(c, s, l.i, l.act, id);
    }
  }

  lemma {:induction false} GoneForever(c: Config, s: State, ls: seq<Label>, id: Id)
    requires Inv(c, s) && Valid(c, s, ls) && Gone(s, id)
    ensures Gone(Run(c, s, ls), id) && Sent(Run(c, s, ls).log, id) == Sent(s.log, id)
    decreases |ls|
  {
    if ls != [] {
      RecordsIds(c, s);
      InvStep(c, s, ls[0]);
      GoneStep(c, s, ls[0], id);
      GoneForever(c, Apply(c, s, ls[0]), ls[1..], id);
    }
  }

  // ----- pending jobs

  ghost predicate Pending(s: State, id: Id) {
    id in s.store.jobs && s.store.jobs[id].status == PENDING
  }

  /** A pending job ceases to be one only by a DELETE, by the removal of a one-shot job after its success, or by
      being stored as failed. */
  lemma HowPendingEnds(c: Config, s: State, l: Label, id: Id)
    requires Reachable(c, s) && Enabled(c, s, l) && Pending(s, id) && !Pending(Apply(c, s, l), id)
    ensures id in s.born
    ensures (l.ApiDelete? && l.id == id) || (l.Work? && PendingEndsAtWork(c, s, l.i, l.act, id))
  {
    ReachableInv(c, s);
    assert StoredOk(BooksOf(s), id);
    if l.Work? {
      WorkEndsPending(c, s, l.i, l.act, id);
    } else {
      OthersEndPending(c, s, l, id);
    }
  }

  lemma OthersEndPending(c: Config, s: State, l: Label, id: Id)
    requires Enabled(c, s, l) && !l.Work? && Pending(s, id) && !Pending(Apply(c, s, l), id) && id in s.born
    ensures l.ApiDelete? && l.id == id
  {
  }

  ghost predicate PendingEndsAtWork(c: Config, s: State, i: nat, a: Act, id: Id)
    requires Enabled(c, s, Work(i, a)) && id in s.born
  {
    || (a.Discard? && s.workers[i].id == id && s.born[id].jobType == ONE_SHOT
        && LastOutcome(s.log, id).Some? && LastOutcome(s.log, id).value.IsSuccess())
    || (a.Save? && s.workers[i].job.id == id && !s.workers[i].again
        && id in Apply(c, s, Work(i, a)).store.jobs && Apply(c, s, Work(i, a)).store.jobs[id].status == FAILED)
  }

  lemma WorkEndsPending(c: Config, s: State, i: nat, a: Act, id: Id)
    requires Enabled(c, s, Work(i, a)) && Pending(s, id) && !Pending(Apply(c, s, Work(i, a)), id)
    requires id in s.born && WorkerOk(c, BooksOf(s), s.workers[i])
    ensures PendingEndsAtWork(c, s, i, a, id)
  {
  }
}
