/**
 Delivery is not at least once: exactly which steps of which runs leave a pending job behind that nothing will ever
 execute, and what follows for runs without such steps.
 */
module Losses {
  import opened Jobs
  import opened Lifecycle
  import opened StoreModel
  import opened Protocol
  import opened Pool
  import opened Claims
  import opened Records
  import opened Safety
  import opened Finality
  import opened Runs
  import Binary64

  /** A stored, pending job that is neither scheduled nor claimed. */
  ghost predicate Lost(s: State, id: Id) {
    Pending(s, id) && id !in s.store.due && Live(s, id) == 0
  }

  // ----- one step

  /** The steps that lose a job: its ZREM takes effect unheard; its load fails; its update fails, or is unheard and
      should have been followed by its rescheduling; its rescheduling or its removal fails; its holder quits on the
      signal; or the process crashes while it is claimed. */
  ghost predicate Losing(s: State, l: Label, id: Id) {
    match l
    case Claim(net) =>
      net.Unheard? && s.sched.Draining? && s.sched.tail != [] && s.sched.tail[0] == id && Pending(s, id)
    case Work(i, a) => i < |s.workers| && Holds(s.workers[i]) == Some(id) && LosingAct(s, s.workers[i], a, id)
    case Crash => Live(s, id) > 0 && Pending(s, id)
    case _ => false
  }

  ghost predicate LosingAct(s: State, w: Worker, a: Act, id: Id) {
    match a
    case Load(net, _) => !net.Ok() && Pending(s, id)
    case Save(net) => (net.Unheard? && w.Saving? && w.again) || (net.Undone? && Pending(s, id))
    case Reschedule(net) => net.Undone? && Pending(s, id)
    case Discard(net) => net.Undone? && Pending(s, id)
    case Quit => Pending(s, id)
    case _ => false
  }

  /** After the action of its holder, a job is pending but neither scheduled nor claimed by that worker. */
  ghost predicate Abandoned(c: Config, s: State, i: nat, a: Act, id: Id)
    requires Enabled(c, s, Work(i, a))
  {
    var t := Apply(c, s, Work(i, a));
    Pending(t, id) && id !in t.store.due && Holds(t.workers[i]) != Some(id)
  }

  ghost predicate Holding(c: Config, s: State, i: nat, a: Act, id: Id) {
    && Enabled(c, s, Work(i, a)) && Holds(s.workers[i]) == Some(id) && id !in s.store.due
    && WorkerOk(c, BooksOf(s), s.workers[i]) && IdsMatch(s.store)
  }

  lemma LoadLoses(c: Config, s: State, i: nat, net: Net, draw: DrawOk, id: Id)
    requires Holding(c, s, i, Load(net, draw), id)
    ensures Abandoned(c, s, i, Load(net, draw), id) <==> LosingAct(s, s.workers[i], Load(net, draw), id)
  {
    if id in s.store.jobs { CarryHolds(s.store.jobs[id], BadUrl, draw, None); }
  }

  lemma SaveLoses(c: Config, s: State, i: nat, net: Net, id: Id)
    requires Holding(c, s, i, Save(net), id)
    ensures Abandoned(c, s, i, Save(net), id) <==> LosingAct(s, s.workers[i], Save(net), id)
  {
    assert PENDING != FAILED;
    assert Write(s.store.jobs, s.workers[i].job)[id].status == s.workers[i].job.status;
  }

  lemma LastCallLoses(c: Config, s: State, i: nat, a: Act, id: Id)
    requires Holding(c, s, i, a, id) && (a.Reschedule? || a.Discard? || a.Quit?)
    ensures Abandoned(c, s, i, a, id) <==> LosingAct(s, s.workers[i], a, id)
  {
  }

  lemma OtherActKeeps(c: Config, s: State, i: nat, a: Act, id: Id)
    requires Holding(c, s, i, a, id)
    requires !a.Load? && !a.Save? && !a.Reschedule? && !a.Discard? && !a.Quit?
    ensures !Abandoned(c, s, i, a, id) && !LosingAct(s, s.workers[i], a, id)
  {
    WorkerKeepsClaim(c, s, s.workers[i], a);
  }

  lemma HolderLoses(c: Config, s: State, i: nat, a: Act, id: Id)
    requires Holding(c, s, i, a, id)
    ensures Abandoned(c, s, i, a, id) <==> LosingAct(s, s.workers[i], a, id)
  {
    match a
    case Load(net, draw) => LoadLoses(c, s, i, net, draw, id);
    case Save(net) => SaveLoses(c, s, i, net, id);
    case Reschedule(_) => LastCallLoses(c, s, i, a, id);
    case Discard(_) => LastCallLoses(c, s, i, a, id);
    case Quit => LastCallLoses(c, s, i, a, id);
    case _ => OtherActKeeps(c, s, i, a, id);
  }

  lemma OwnClaims(c: Config, s: State, i: nat, a: Act, id: Id)
    requires ClaimsInv(s) && IdsMatch(s.store) && Enabled(c, s, Work(i, a)) && Holds(s.workers[i]) == Some(id)
    ensures Live(Apply(c, s, Work(i, a)), id) == One(Holds(Apply(c, s, Work(i, a)).workers[i]) == Some(id))
  {
    SoleClaim(s, i, id);
    var w' := WorkerAfter(c, s, s.workers[i], a);
    CountUpdate(s.workers, i, w', Claimer(id));
    if a.Take? { OccursFirst(s.queue, id); }
  }

  /** What a worker does concerns the job it holds and no other. */
  lemma BystanderStore(c: Config, s: State, i: nat, a: Act, id: Id)
    requires Enabled(c, s, Work(i, a)) && Holds(s.workers[i]) != Some(id)
    ensures var t := Apply(c, s, Work(i, a));
      (Pending(t, id) <==> Pending(s, id)) && (id in t.store.due <==> id in s.store.due)
  {
  }

  lemma BystanderClaims(c: Config, s: State, i: nat, a: Act, id: Id)
    requires IdsMatch(s.store) && Enabled(c, s, Work(i, a)) && Holds(s.workers[i]) != Some(id)
    ensures Live(Apply(c, s, Work(i, a)), id) == Live(s, id)
  {
    var w' := WorkerAfter(c, s, s.workers[i], a);
    WorkerKeepsClaim(c, s, s.workers[i], a);
    CountUpdate(s.workers, i, w', Claimer(id));
    if a.Take? { OccursFirst(s.queue, id); }
  }

  lemma WorkLoses(c: Config, s: State, i: nat, a: Act, id: Id)
    requires Inv(c, s) && Enabled(c, s, Work(i, a)) && !Lost(s, id)
    ensures Lost(Apply(c, s, Work(i, a)), id) <==> Losing(s, Work(i, a), id)
  {
    RecordsIds(c, s);
    if Holds(s.workers[i]) == Some(id) {
      SoleClaim(s, i, id);
      OwnClaims(c, s, i, a, id);
      HolderLoses(c, s, i, a, id);
    } else {
      BystanderStore(c, s, i, a, id);
      BystanderClaims(c, s, i, a, id);
    }
  }

  lemma ClaimLoses(c: Config, s: State, net: Net, id: Id)
    requires Enabled(c, s, Claim(net)) && !Lost(s, id)
    requires Live(s, s.sched.tail[0]) == 0 && (s.sched.tail[0] in s.store.jobs ==> s.sched.tail[0] in s.store.due)
    ensures Lost(Apply(c, s, Claim(net)), id) <==> Losing(s, Claim(net), id)
  {
  }

  lemma NextInBatch(c: Config, s: State)
    requires RecordsInv(c, s) && ClaimsInv(s) && s.sched.Draining? && s.sched.tail != []
    ensures Live(s, s.sched.tail[0]) == 0 && (s.sched.tail[0] in s.store.jobs ==> s.sched.tail[0] in s.store.due)
  {
    assert Tail(s.sched)[0] in Tail(s.sched);
  }

  lemma CrashLoses(c: Config, s: State, id: Id)
    requires !Lost(s, id) && (Live(s, id) > 0 ==> id !in s.store.due)
    ensures Lost(Apply(c, s, Crash), id) <==> Losing(s, Crash, id)
  {
    CountNone(IdleWorkers(c), Claimer(id));
  }

  lemma OthersLoseNothing(c: Config, s: State, l: Label, id: Id)
    requires Enabled(c, s, l) && !l.Work? && !l.Claim? && !l.Crash? && !l.GiveUp? && !Lost(s, id)
    ensures !Lost(Apply(c, s, l), id) && !Losing(s, l, id)
  {
    if l.Enqueue? {
      OccursAppend(s.queue, s.sched.id, id);
    }
  }

  /** In every reachable state a label makes a job lost, which was not lost before, exactly if it is a losing step. */
  lemma LossIff(c: Config, s: State, l: Label, id: Id)
    requires Reachable(c, s) && Enabled(c, s, l) && !Lost(s, id)
    ensures Lost(Apply(c, s, l), id) <==> Losing(s, l, id)
  {
    ReachableInv(c, s);
    LossStep(c, s, l, id);
  }

  lemma LossStep(c: Config, s: State, l: Label, id: Id)
    requires Inv(c, s) && Enabled(c, s, l) && !Lost(s, id)
    ensures Lost(Apply(c, s, l), id) <==> Losing(s, l, id)
  {
    match l
    case Work(i, a) => WorkLoses(c, s, i, a, id);
    case Claim(net) =>
      NextInBatch(c, s);
      ClaimLoses(c, s, net, id);
    case Crash => CrashLoses(c, s, id);
    case GiveUp => assert false;
    case _ => OthersLoseNothing(c, s, l, id);
  }

  // ----- runs

  predicate Deletes(l: Label, id: Id) {
    l.ApiDelete? && l.id == id && l.net.Effect()
  }

  /** What is lost stays lost until it is deleted. */
  lemma StaysLost(c: Config, s: State, l: Label, id: Id)
    requires Inv(c, s) && Enabled(c, s, l) && Lost(s, id)
    ensures Lost(Apply(c, s, l), id) <==> !Deletes(l, id)
  {
    LostIsDead(c, s, id);
    DeadStep(c, s, l, id);
    if l.Work? {
      if Holds(s.workers[l.i]) == Some(id) { CountOne(s.workers, l.i, Claimer(id)); }
      BystanderStore(c, s, l.i, l.act, id);
    } else {
      PendingUnlessDeleted(c, s, l, id);
    }
  }

  lemma PendingUnlessDeleted(c: Config, s: State, l: Label, id: Id)
    requires Enabled(c, s, l) && !l.Work? && Pending(s, id) && id in s.born
    ensures Pending(Apply(c, s, l), id) <==> !Deletes(l, id)
  {
  }

  lemma LostIsDead(c: Config, s: State, id: Id)
    requires RecordsInv(c, s) && Lost(s, id)
    ensures Dead(s, id)
  {
    assert StoredOk(BooksOf(s), id);
    assert forall k | 0 <= k < |Tail(s.sched)| && Tail(s.sched)[k] in s.store.jobs :: Tail(s.sched)[k] in s.store.due;
  }

  predicate DeletedAlong(ls: seq<Label>, id: Id)
    decreases |ls|
  {
    ls != [] && (Deletes(ls[0], id) || DeletedAlong(ls[1..], id))
  }

  /** Some step of the run loses the job, and no later one deletes it. */
  ghost predicate LosesAlong(c: Config, s: State, ls: seq<Label>, id: Id)
    requires Valid(c, s, ls)
    decreases |ls|
  {
    ls != []
    && ((Losing(s, ls[0], id) && !DeletedAlong(ls[1..], id)) || LosesAlong(c, Apply(c, s, ls[0]), ls[1..], id))
  }

  lemma DeadLosesNothing(s: State, l: Label, id: Id)
    requires Dead(s, id)
    ensures !Losing(s, l, id)
  {
    if l.Work? && l.i < |s.workers| && Holds(s.workers[l.i]) == Some(id) { CountOne(s.workers, l.i, Claimer(id)); }
  }

  lemma {:induction false} DeadRunLosesNothing(c: Config, s: State, ls: seq<Label>, id: Id)
    requires Inv(c, s) && Valid(c, s, ls) && Dead(s, id)
    ensures !LosesAlong(c, s, ls, id)
    decreases |ls|
  {
    if ls != [] {
      DeadLosesNothing(s, ls[0], id);
      InvStep(c, s, ls[0]);
      DeadStep(c, s, ls[0], id);
      DeadRunLosesNothing(c, Apply(c, s, ls[0]), ls[1..], id);
    }
  }

  lemma DeletedIsGone(c: Config, s: State, l: Label, id: Id)
    requires Inv(c, s) && Enabled(c, s, l) && Lost(s, id) && Deletes(l, id)
    ensures Gone(Apply(c, s, l), id)
  {
    LostIsDead(c, s, id);
    forall i | 0 <= i < |s.workers|
      ensures !MayWrite(s.workers[i], id)
    {
      if MayWrite(s.workers[i], id) { CountOne(s.workers, i, Claimer(id)); }
    }
  }

  lemma {:induction false} LostUntilDeleted(c: Config, s: State, ls: seq<Label>, id: Id)
    requires Inv(c, s) && Valid(c, s, ls) && Lost(s, id)
    ensures Lost(Run(c, s, ls), id) <==> !DeletedAlong(ls, id)
    decreases |ls|
  {
    if ls != [] {
      InvStep(c, s, ls[0]);
      StaysLost(c, s, ls[0], id);
      if Deletes(ls[0], id) {
        DeletedIsGone(c, s, ls[0], id);
        GoneForever(c, Apply(c, s, ls[0]), ls[1..], id);
      } else {
        LostUntilDeleted(c, Apply(c, s, ls[0]), ls[1..], id);
      }
    }
  }

  lemma {:induction false} LostAlong(c: Config, s: State, ls: seq<Label>, id: Id)
    requires Inv(c, s) && Valid(c, s, ls) && !Lost(s, id)
    ensures Lost(Run(c, s, ls), id) <==> LosesAlong(c, s, ls, id)
    decreases |ls|
  {
    if ls != [] {
      var l := ls[0];
      var t := Apply(c, s, l);
      InvStep(c, s, l);
      LossStep(c, s, l, id);
      if Lost(t, id) {
        LostUntilDeleted(c, t, ls[1..], id);
        LostIsDead(c, t, id);
        DeadRunLosesNothing(c, t, ls[1..], id);
      } else {
        LostAlong(c, t, ls[1..], id);
      }
    }
  }

  /** After any run, whatever failed, crashed or shut down in it, a job is pending but will never run again exactly
      if some step of the run was a losing one for it and no later step was a DELETE of it. */
  lemma LostIff(c: Config, ls: seq<Label>, id: Id)
    requires Valid(c, Init(c), ls)
    ensures Lost(Run(c, Init(c), ls), id) <==> LosesAlong(c, Init(c), ls, id)
  {
    InvInit(c);
    LostAlong(c, Init(c), ls, id);
  }

  /** What is lost is never scheduled and never sent again. */
  lemma LostForever(c: Config, s: State, ls: seq<Label>, id: Id)
    requires Reachable(c, s) && Lost(s, id) && Valid(c, s, ls)
    ensures id !in Run(c, s, ls).store.due && Sent(Run(c, s, ls).log, id) == Sent(s.log, id)
  {
    ReachableInv(c, s);
    LostIsDead(c, s, id);
    DeadForever(c, s, ls, id);
  }

  // ----- runs without faults

  /** The labels of runs without store errors, crash or shutdown. API calls come at any time. */
  predicate FaultFree(l: Label) {
    match l
    case ApiCreate(_, net) => net.Done?
    case ApiDelete(_, net) => net.Done?
    case Claim(net) => net.Done?
    case Work(_, a) =>
      (match a
       case Load(net, _) => net.Done?
       case Save(net) => net.Done?
       case Reschedule(net) => net.Done?
       case Discard(net) => net.Done?
       case Quit => false
       case _ => true)
    case Cancel => false
    case Advance => false
    case Crash => false
    case GiveUp => false
    case LeaveLoop => false
    case _ => true
  }

  ghost predicate AllFaultFree(ls: seq<Label>) {
    forall k | 0 <= k < |ls| :: FaultFree(ls[k])
  }

  lemma {:induction false} FaultFreeLosesNothing(c: Config, s: State, ls: seq<Label>, id: Id)
    requires Valid(c, s, ls) && AllFaultFree(ls)
    ensures !LosesAlong(c, s, ls, id)
    decreases |ls|
  {
    if ls != [] {
      assert FaultFree(ls[0]);
      assert forall k | 0 <= k < |ls| - 1 :: ls[1..][k] == ls[k + 1];
      FaultFreeLosesNothing(c, Apply(c, s, ls[0]), ls[1..], id);
    }
  }

  ghost predicate FaultFreeReachable(c: Config, s: State) {
    exists ls :: Valid(c, Init(c), ls) && AllFaultFree(ls) && Run(c, Init(c), ls) == s
  }

  /** In a fault-free run every pending job is either scheduled or claimed, never both, and by one holder only. */
  lemma NothingLost(c: Config, s: State, id: Id)
    requires FaultFreeReachable(c, s) && Pending(s, id)
    ensures id in s.store.due <==> Live(s, id) == 0
    ensures Live(s, id) <= 1
    ensures Reachable(c, s)
  {
    var ls :| Valid(c, Init(c), ls) && AllFaultFree(ls) && Run(c, Init(c), ls) == s;
    InvInit(c);
    InvRun(c, Init(c), ls);
    LostIff(c, ls, id);
    FaultFreeLosesNothing(c, Init(c), ls, id);
    assert Live(s, id) <= 1;
  }

  // ----- a loss

  /** A job that is due from the beginning of time. */
  function DueJob(id: Id): NewJob {
    Job(id, ONE_SHOT, 0, 0, 0, 1, 1, "", "POST", None, None, 1, 0, 0, "", 0, PENDING)
  }

  /** The only due job is fetched, and the reply to its ZREM is lost. */
  lemma UnheardClaim(c: Config, s: State, id: Id) returns (t: State, ls: seq<Label>)
    requires 0 < c.batch && s.sched == Polling && s.phase == Serving && s.store.due == map[id := 0]
    requires Pending(s, id) && Occurs(s.queue, id) + Count(s.workers, Claimer(id)) == 0
    ensures Valid(c, s, ls) && Run(c, s, ls) == t
    ensures Lost(t, id) && t.phase == Serving && t.log == s.log
  {
    Binary64.OfIntExact(0);
    assert IsDueBatch(s.store.due, 0, c.batch, [id]);
    var u := Apply(c, s, Fetch(0, [id]));
    t := Apply(c, u, Claim(Unheard));
    OneLabel(c, u, Claim(Unheard));
    RunCons(c, s, Fetch(0, [id]), [Claim(Unheard)]);
    ls := [Fetch(0, [id])] + [Claim(Unheard)];
  }

  /** Losses happen: a job is created, and nothing else fails than the reply to its ZREM. */
  lemma LossHappens(c: Config, id: Id) returns (t: State)
    requires c.Valid()
    ensures Reachable(c, t) && Lost(t, id) && t.phase == Serving && Sent(t.log, id) == 0
  {
    Binary64.OfIntExact(0);
    var l := ApiCreate(DueJob(id), Done);
    var s := Apply(c, Init(c), l);
    CountNone(s.workers, Claimer(id));
    assert s.store.due == map[id := 0];
    var ls;
    t, ls := UnheardClaim(c, s, id);
    RunCons(c, Init(c), l, ls);
  }
}
