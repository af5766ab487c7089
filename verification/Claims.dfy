/**
 Claim uniqueness: from its removal from the schedule to the last store call made on its behalf, a job ID has
 one holder, and meanwhile it is not scheduled.
 */
module Claims {
  import opened Jobs
  import opened Lifecycle
  import opened StoreModel
  import opened Protocol
  import opened Pool

  function Tail(d: Scheduler): seq<Id> {
    match d
    case Draining(tail) => tail
    case Handing(_, tail) => tail
    case _ => []
  }

  function InHand(d: Scheduler, id: Id): nat {
    One(d.Handing? && d.id == id)
  }

  /** The number of live claims on an ID: the scheduler's hand, the queue, and the workers before the end of
      their final store call. */
  function Live(s: State, id: Id): nat {
    InHand(s.sched, id) + Occurs(s.queue, id) + Count(s.workers, Claimer(id))
  }

  ghost predicate Distinct(ids: seq<Id>) {
    forall j, k | 0 <= j < k < |ids| :: ids[j] != ids[k]
  }

  ghost predicate ClaimsInv(s: State) {
    && (forall id :: Live(s, id) <= 1)
    && (forall id :: Live(s, id) > 0 ==> id !in s.store.due && id !in Tail(s.sched))
    && Distinct(Tail(s.sched))
  }

  /** A stored job carries the ID it is stored under. */
  ghost predicate IdsMatch(st: Store) {
    forall id | id in st.jobs :: st.jobs[id].id == id
  }

  /** With claims unique, nobody else in the pool, the queue or the scheduler has a worker's ID. */
  lemma SoleClaim(s: State, i: nat, id: Id)
    requires ClaimsInv(s) && i < |s.workers| && Holds(s.workers[i]) == Some(id)
    ensures Live(s, id) == 1 && id !in s.queue && InHand(s.sched, id) == 0
    ensures id !in s.store.due && id !in Tail(s.sched)
    ensures forall j | 0 <= j < |s.workers| && j != i :: Holds(s.workers[j]) != Some(id)
  {
    CountOne(s.workers, i, Claimer(id));
    OccursIn(s.queue, id);
    assert Live(s, id) <= 1;
    forall j | 0 <= j < |s.workers| && j != i
      ensures Holds(s.workers[j]) != Some(id)
    {
      if Holds(s.workers[j]) == Some(id) {
        CountTwo(s.workers, i, j, Claimer(id));
      }
    }
  }

  lemma CarryHolds(j: Job, o: Outcome, d: DrawOk, held: Option<nat>)
    requires Runnable(j)
    ensures Holds(Carry(j.id, Settle(j, o, d), held)) == Some(j.id)
  {
  }

  /** A worker that is not taking from the queue keeps its claim or gives it up; it gives it up only at a failed
      load, at its final store call, or when it quits. */
  lemma WorkerKeepsClaim(c: Config, s: State, w: Worker, a: Act)
    requires ActEnabled(c, s, w, a) && IdsMatch(s.store)
    ensures !a.Take? ==> Holds(WorkerAfter(c, s, w, a)) == Holds(w) || Holds(WorkerAfter(c, s, w, a)) == None
    ensures a.Take? ==> Holds(WorkerAfter(c, s, w, a)) == Some(s.queue[0]) && Holds(w) == None
    ensures !a.Take? && Holds(WorkerAfter(c, s, w, a)) != Holds(w) ==>
              a.Load? || a.Save? || a.Reschedule? || a.Discard? || a.Quit?
  {
    match a
    case Load(net, draw) =>
      if w.id in s.store.jobs {
        CarryHolds(s.store.jobs[w.id], BadUrl, draw, None);
      }
    case Return(outcome, draw) => CarryHolds(w.job, outcome, draw, Some(w.sem));
    case _ =>
  }

  /** What one action of a worker does to the claims on an ID. */
  lemma LiveAfterWork(c: Config, s: State, i: nat, a: Act, id: Id)
    requires Enabled(c, s, Work(i, a)) && IdsMatch(s.store)
    ensures Live(Apply(c, s, Work(i, a)), id) <= Live(s, id)
    ensures a.Reschedule? && id == s.workers[i].job.id ==> Live(Apply(c, s, Work(i, a)), id) == Live(s, id) - 1
  {
    var w' := WorkerAfter(c, s, s.workers[i], a);
    WorkerKeepsClaim(c, s, s.workers[i], a);
    CountUpdate(s.workers, i, w', Claimer(id));
    if a.Take? {
      OccursFirst(s.queue, id);
    }
  }

  /** Claims move between holders; a successful `Claim` is the only label that makes one. */
  lemma LiveAfter(c: Config, s: State, l: Label, id: Id)
    requires Enabled(c, s, l) && IdsMatch(s.store)
    ensures Live(Apply(c, s, l), id) <= Live(s, id) + One(l.Claim? && l.net.Ok() && id == s.sched.tail[0])
    ensures l.Crash? ==> Live(Apply(c, s, l), id) == 0
  {
    if l.Work? {
      LiveAfterWork(c, s, l.i, l.act, id);
    } else if l.Crash? {
      CountNone(IdleWorkers(c), Claimer(id));
    } else if l.Enqueue? {
      OccursAppend(s.queue, s.sched.id, id);
    }
  }

  lemma {:induction false} ClaimsStep(c: Config, s: State, l: Label)
    requires Enabled(c, s, l) && IdsMatch(s.store) && ClaimsInv(s)
    requires l.ApiCreate? ==> Live(s, l.job.id) == 0 && l.job.id !in Tail(s.sched)
    ensures ClaimsInv(Apply(c, s, l))
  {
    var t := Apply(c, s, l);
    TailAfter(c, s, l);
    forall id
      ensures Live(t, id) <= 1
      ensures Live(t, id) > 0 ==> id !in t.store.due && id !in Tail(t.sched)
    {
      LiveAfter(c, s, l, id);
      DueAfter(c, s, l, id);
      assert Live(s, id) <= 1;
      if l.Work? {
        LiveAfterWork(c, s, l.i, l.act, id);
      }
    }
  }

  /** Which IDs a label can put into the schedule or leave in the batch. */
  lemma DueAfter(c: Config, s: State, l: Label, id: Id)
    requires Enabled(c, s, l)
    ensures id in Apply(c, s, l).store.due ==>
              (id in s.store.due || (l.ApiCreate? && id == l.job.id)
               || (l.Work? && l.act.Reschedule? && id == s.workers[l.i].job.id))
    ensures l.Claim? && l.net.Ok() && id == s.sched.tail[0] ==> id !in Apply(c, s, l).store.due
  {
  }

  lemma TailAfter(c: Config, s: State, l: Label)
    requires Enabled(c, s, l) && Distinct(Tail(s.sched))
    ensures Distinct(Tail(Apply(c, s, l).sched))
    ensures forall id | id in Tail(Apply(c, s, l).sched) :: id in Tail(s.sched) || (l.Fetch? && id in s.store.due)
    ensures l.Claim? ==> s.sched.tail[0] in Tail(s.sched) && s.sched.tail[0] !in Tail(Apply(c, s, l).sched)
  {
    match l
    case Fetch(nowMs, ids) => FetchDistinct(s.store.due, Binary64.OfInt(nowMs), c.batch, ids);
    case _ =>
  }

  lemma FetchDistinct(due: map<Id, int>, max: int, limit: nat, ids: seq<Id>)
    requires IsDueBatch(due, max, limit, ids)
    ensures Distinct(ids) && forall id | id in ids :: id in due
  {
    forall j, k | 0 <= j < k < |ids|
      ensures ids[j] != ids[k]
    {
      IdLessTotal(ids[j], ids[j]);
      assert Before(due, ids[j], ids[k]);
    }
  }
}
