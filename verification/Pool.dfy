/** Counting in the worker pool and in the job queue. */
module Pool {
  import opened Jobs
  import opened Protocol

  /** The job ID a worker has a claim on, up to the end of its last store call. */
  function Holds(w: Worker): Option<Id> {
    match w
    case Idle => None
    case Taken(id) => Some(id)
    case Admitted(id) => Some(id)
    case Seeking(job, _, _) => Some(job.id)
    case Waiting(job, _, _) => Some(job.id)
    case Calling(job, _, _) => Some(job.id)
    case Saving(job, _, _) => Some(job.id)
    case Scheduling(job, _) => Some(job.id)
    case Dropping(id, _) => Some(id)
    case Unwinding(_) => None
    case Leaving => None
    case Exited => None
  }

  /** The domain semaphore a worker holds. */
  function HeldSem(w: Worker): Option<nat> {
    match w
    case Calling(_, _, sem) => Some(sem)
    case Saving(_, _, held) => held
    case Scheduling(_, held) => held
    case Dropping(_, held) => held
    case Unwinding(sem) => Some(sem)
    case _ => None
  }

  datatype Role =
    | Claimer(id: Id)         // has the claim on a job
    | Inside                  // holds the global semaphore
    | Reader                  // holds the read lock
    | Writer                  // has asked for the write lock, or holds it
    | Holder(sem: nat)        // holds a domain semaphore
    | Caller(domain: string)  // is inside doWebhook for a domain
    | AnyCaller               // is inside doWebhook

  predicate Plays(w: Worker, r: Role) {
    match r
    case Claimer(id) => Holds(w) == Some(id)
    case Inside => !w.Idle? && !w.Taken? && !w.Exited?
    case Reader => w.Seeking? && w.at.Reading?
    case Writer => w.Seeking? && (w.at.Locking? || w.at.Writing? || w.at.Creating?)
    case Holder(sem) => HeldSem(w) == Some(sem)
    case Caller(domain) => w.Calling? && w.domain == domain
    case AnyCaller => w.Calling?
  }

  function One(b: bool): nat {
    if b then 1 else 0
  }

  function Count(ws: seq<Worker>, r: Role): nat {
    if ws == [] then 0 else Count(ws[..|ws| - 1], r) + One(Plays(ws[|ws| - 1], r))
  }

  lemma {:induction false} CountUpdate(ws: seq<Worker>, i: nat, w: Worker, r: Role)
    requires i < |ws|
    ensures Count(ws[i := w], r) + One(Plays(ws[i], r)) == Count(ws, r) + One(Plays(w, r))
  {
    var n := |ws| - 1;
    if i == n {
      assert ws[i := w][..n] == ws[..n];
    } else {
      CountUpdate(ws[..n], i, w, r);
      assert ws[i := w][..n] == ws[..n][i := w];
    }
  }

  lemma CountOne(ws: seq<Worker>, i: nat, r: Role)
    requires i < |ws| && Plays(ws[i], r)
    ensures Count(ws, r) >= 1
  {
    CountUpdate(ws, i, Idle, r);
  }

  lemma CountTwo(ws: seq<Worker>, i: nat, j: nat, r: Role)
    requires i < |ws| && j < |ws| && i != j && Plays(ws[i], r) && Plays(ws[j], r)
    requires !Plays(Idle, r)
    ensures Count(ws, r) >= 2
  {
    CountUpdate(ws, i, Idle, r);
    CountOne(ws[i := Idle], j, r);
  }

  lemma {:induction false} CountSome(ws: seq<Worker>, r: Role) returns (i: nat)
    requires Count(ws, r) > 0
    ensures i < |ws| && Plays(ws[i], r)
  {
    var n := |ws| - 1;
    if Plays(ws[n], r) {
      i := n;
    } else {
      i := CountSome(ws[..n], r);
    }
  }

  lemma {:induction false} CountNone(ws: seq<Worker>, r: Role)
    requires forall i | 0 <= i < |ws| :: !Plays(ws[i], r)
    ensures Count(ws, r) == 0
  {
    if ws != [] {
      CountNone(ws[..|ws| - 1], r);
    }
  }

  lemma {:induction false} CountAtMost(ws: seq<Worker>, r: Role)
    ensures Count(ws, r) <= |ws|
    ensures (exists i :: 0 <= i < |ws| && !Plays(ws[i], r)) ==> Count(ws, r) < |ws|
  {
    if ws != [] {
      CountAtMost(ws[..|ws| - 1], r);
    }
  }

  lemma {:induction false} CountImplies(ws: seq<Worker>, r: Role, q: Role)
    requires forall i | 0 <= i < |ws| && Plays(ws[i], r) :: Plays(ws[i], q)
    ensures Count(ws, r) <= Count(ws, q)
  {
    if ws != [] {
      CountImplies(ws[..|ws| - 1], r, q);
    }
  }

  /** How often an ID stands in the queue. */
  function Occurs(q: seq<Id>, id: Id): nat {
    if q == [] then 0 else Occurs(q[..|q| - 1], id) + One(q[|q| - 1] == id)
  }

  lemma OccursAppend(q: seq<Id>, x: Id, id: Id)
    ensures Occurs(q + [x], id) == Occurs(q, id) + One(x == id)
  {
    assert (q + [x])[..|q|] == q;
  }

  lemma {:induction false} OccursFirst(q: seq<Id>, id: Id)
    requires q != []
    ensures Occurs(q, id) == One(q[0] == id) + Occurs(q[1..], id)
  {
    var n := |q| - 1;
    if n > 0 {
      OccursFirst(q[..n], id);
      assert q[..n][1..] == q[1..][..n - 1];
    }
  }

  lemma {:induction false} OccursIn(q: seq<Id>, id: Id)
    ensures id in q <==> Occurs(q, id) > 0
  {
    if q != [] {
      OccursIn(q[..|q| - 1], id);
      assert q == q[..|q| - 1] + [q[|q| - 1]];
    }
  }
}
