/** Every label keeps the records in order. */
module RecordsProofs {
  import opened Jobs
  import opened Lifecycle
  import opened StoreModel
  import opened Protocol
  import opened Pool
  import opened Claims
  import opened Records
  import Binary64

  // ----- the steps of one execution

  /** Sending the request. */
  lemma CallSent(c: Config, b: Books, j: Job, domain: string)
    requires BooksOk(b) && CopyOk(c, b, j, domain)
    ensures var d := b.(log := b.log + [Called(j.id, j.attempt)]);
      CallingOk(c, d, j, domain) && TriesOk(d.born[j.id], d.log) && OnlyAbout(b, d, j.id)
  {
    AppendEvent(b.born[j.id], b.log, Called(j.id, j.attempt));
  }

  /** The end of a request: the handler's job is the fold of the history that now includes the outcome. */
  lemma OutcomeSettled(c: Config, b: Books, j: Job, domain: string, o: Outcome, draw: DrawOk, held: Option<nat>)
    requires BooksOk(b) && CallingOk(c, b, j, domain) && o.Typed()
    ensures var d := b.(log := b.log + [Ended(j.id, o, draw)]);
      WorkerOk(c, d, Carry(j.id, Settle(j, o, draw), held)) && TriesOk(d.born[j.id], d.log) && OnlyAbout(b, d, j.id)
  {
    var born := b.born[j.id];
    AppendEvent(born, b.log, Ended(j.id, o, draw));
    SettleKeeps(j, o, draw);
    SettleIgnoresLastError(j, Folded(born, b.log), o, draw);
    AttemptAfter(j, o, draw);
  }

  /** A URL without a domain fails the execution before any request. */
  lemma BadUrlSettled(c: Config, b: Books, j: Job, draw: DrawOk)
    requires BooksOk(b) && Fit(c, b, j) && c.domain(j.url) == None && (j.id in b.jobs ==> b.jobs[j.id] == j)
    ensures var d := b.(log := b.log + [Ended(j.id, BadUrl, draw)]);
      WorkerOk(c, d, Carry(j.id, Settle(j, BadUrl, draw), None)) && TriesOk(d.born[j.id], d.log)
          && OnlyAbout(b, d, j.id)
  {
    var born := b.born[j.id];
    AppendEvent(born, b.log, Ended(j.id, BadUrl, draw));
    SettleKeeps(j, BadUrl, draw);
    SettleIgnoresLastError(j, Folded(born, b.log), BadUrl, draw);
  }

  /** A job that runs again has counted its attempt, or starts afresh after a success. */
  lemma AttemptAfter(j: Job, o: Outcome, d: DrawOk)
    requires Runnable(j) && 0 <= j.attempt < j.maxAttempts
    ensures Settle(j, o, d).Again? ==>
              After(j, o, d).attempt == if o.IsSuccess() then 0 else j.attempt + 1
    ensures Settle(j, o, d).Again? && o.IsSuccess() ==> j.jobType != ONE_SHOT
    ensures After(j, o, d).url == j.url && After(j, o, d).id == j.id
  {
  }

  /** UpdateJob. */
  lemma RecordSaved(c: Config, b: Books, j: Job, again: bool)
    requires BooksOk(b) && SavingOk(c, b, j, again)
    ensures var d := b.(jobs := Write(b.jobs, j));
      && OnlyAbout(b, d, j.id) && StoredOk(d, j.id) && Core(d.jobs[j.id]) == Core(j)
      && (again ==> Fit(c, d, j))
  {
    if j.id in b.jobs {
      assert StoredOk(b, j.id);
      OverlaySameFixed(b.jobs[j.id], j);
    }
  }

  lemma FitIgnoresLastError(c: Config, b: Books, j: Job, k: Job)
    requires Fit(c, b, j) && Core(j) == Core(k) && Int64(k.lastHttpCode)
    ensures Fit(c, b, k)
  {
  }

  lemma PreDropped(c: Config, b: Books, x: Id, id: Id)
    requires Pre(c, b, id)
    ensures Pre(c, b.(jobs := b.jobs - {x}), id)
  {
  }

  lemma WorkerDropped(c: Config, b: Books, x: Id, w: Worker)
    requires WorkerOk(c, b, w)
    ensures WorkerOk(c, b.(jobs := b.jobs - {x}), w)
  {
  }

  // ----- one action of a worker

  /** What the acting worker owes: its own new state, and the record, history and schedule entry of its job. */
  ghost predicate ActOk(c: Config, b: Books, d: Books, due: map<Id, int>, due': map<Id, int>, x: Id, w': Worker) {
    && d.born == b.born && x in d.born
    && OnlyAbout(b, d, x)
    && TriesOk(d.born[x], d.log)
    && (x in d.jobs ==> StoredOk(d, x))
    && (x in due' ==> Pre(c, d, x) && (x in d.jobs ==> due'[x] == Binary64.OfInt(d.jobs[x].dueAtMs)))
    && due' - {x} == due - {x}
    && WorkerOk(c, d, w')
  }

  ghost predicate WorkActOk(c: Config, s: State, i: nat, a: Act, x: Id)
    requires Enabled(c, s, Work(i, a))
  {
    var t := Apply(c, s, Work(i, a));
    ActOk(c, BooksOf(s), BooksOf(t), s.store.due, t.store.due, x, t.workers[i])
  }

  /** What is known of the acting worker and its job. */
  ghost predicate Acting(c: Config, s: State, i: nat, x: Id) {
    && i < |s.workers| && Holds(s.workers[i]) == Some(x)
    && BooksOk(BooksOf(s)) && WorkerOk(c, BooksOf(s), s.workers[i])
    && x in s.born && x !in s.store.due && (x in s.store.jobs ==> StoredOk(BooksOf(s), x))
  }

  lemma ActingWorker(c: Config, s: State, i: nat, x: Id)
    requires RecordsInv(c, s) && ClaimsInv(s) && i < |s.workers| && Holds(s.workers[i]) == Some(x)
    ensures Acting(c, s, i, x)
  {
    SoleClaim(s, i, x);
    RecordsIds(c, s);
  }

  lemma LoadBadUrlStep(c: Config, s: State, i: nat, a: Act, x: Id)
    requires Acting(c, s, i, x) && Enabled(c, s, Work(i, a)) && a.Load? && !IsQuiet(c, s, s.workers[i], a)
    ensures WorkActOk(c, s, i, a, x)
  {
    var b := BooksOf(s);
    BadUrlSettled(c, b, b.jobs[x], a.draw);
  }

  lemma EventBooks(c: Config, s: State, i: nat, a: Act)
    requires Enabled(c, s, Work(i, a)) && (a.Acquire? || a.Return?)
    ensures var t, w := Apply(c, s, Work(i, a)), s.workers[i];
      && t.store == s.store && t.workers[i] == WorkerAfter(c, s, w, a)
      && BooksOf(t) == BooksOf(s).(log := s.log + [if a.Acquire? then Called(w.job.id, w.job.attempt)
                                                    else Ended(w.job.id, a.outcome, a.draw)])
  {
  }

  lemma AcquireStep(c: Config, s: State, i: nat, x: Id)
    requires Acting(c, s, i, x) && Enabled(c, s, Work(i, Acquire))
    ensures WorkActOk(c, s, i, Acquire, x)
  {
    var w := s.workers[i];
    EventBooks(c, s, i, Acquire);
    CallSent(c, BooksOf(s), w.job, w.domain);
  }

  lemma ReturnStep(c: Config, s: State, i: nat, o: Outcome, draw: DrawOk, x: Id)
    requires Acting(c, s, i, x) && Enabled(c, s, Work(i, Return(o, draw)))
    ensures WorkActOk(c, s, i, Return(o, draw), x)
  {
    var w := s.workers[i];
    EventBooks(c, s, i, Return(o, draw));
    OutcomeSettled(c, BooksOf(s), w.job, w.domain, o, draw, Some(w.sem));
  }

  lemma SaveEffect(c: Config, b: Books, due: map<Id, int>, j: Job, again: bool, w': Worker)
    requires BooksOk(b) && SavingOk(c, b, j, again) && j.id !in due
    requires Holds(w') == None || (again && w'.Scheduling? && w'.job == j)
    ensures ActOk(c, b, b.(jobs := Write(b.jobs, j)), due, due, j.id, w')
  {
    RecordSaved(c, b, j, again);
  }

  lemma SaveNoEffect(c: Config, b: Books, due: map<Id, int>, j: Job, again: bool, w': Worker)
    requires BooksOk(b) && SavingOk(c, b, j, again) && j.id !in due && (j.id in b.jobs ==> StoredOk(b, j.id))
    requires Holds(w') == None
    ensures ActOk(c, b, b, due, due, j.id, w')
  {
  }

  lemma SaveBooks(c: Config, b: Books, due: map<Id, int>, w: Worker, net: Net)
    requires BooksOk(b) && WorkerOk(c, b, w) && w.Saving? && w.job.id !in due
    requires w.job.id in b.jobs ==> StoredOk(b, w.job.id)
    ensures ActOk(c, b, b.(jobs := if net.Effect() then Write(b.jobs, w.job) else b.jobs), due, due, w.job.id,
                  if net.Ok() && w.again then Scheduling(w.job, w.held) else Finish(w.held))
  {
    var w' := if net.Ok() && w.again then Scheduling(w.job, w.held) else Finish(w.held);
    if net.Effect() {
      SaveEffect(c, b, due, w.job, w.again, w');
    } else {
      SaveNoEffect(c, b, due, w.job, w.again, w');
      assert b.(jobs := b.jobs) == b;
    }
  }

  lemma SaveStep(c: Config, s: State, i: nat, net: Net, x: Id)
    requires Acting(c, s, i, x) && Enabled(c, s, Work(i, Save(net)))
    ensures WorkActOk(c, s, i, Save(net), x)
  {
    SaveBooks(c, BooksOf(s), s.store.due, s.workers[i], net);
    assert BooksOf(Apply(c, s, Work(i, Save(net)))) ==
           BooksOf(s).(jobs := if net.Effect() then Write(s.store.jobs, s.workers[i].job) else s.store.jobs);
  }

  lemma RescheduleBooks(c: Config, b: Books, due: map<Id, int>, w: Worker, net: Net)
    requires BooksOk(b) && WorkerOk(c, b, w) && w.Scheduling? && w.job.id !in due
    requires w.job.id in b.jobs ==> StoredOk(b, w.job.id)
    ensures ActOk(c, b, b, due, if net.Effect() then due[w.job.id := Binary64.OfInt(w.job.dueAtMs)] else due, w.job.id,
                  Finish(w.held))
  {
    if w.job.id in b.jobs {
      FitIgnoresLastError(c, b, w.job, b.jobs[w.job.id]);
    }
  }

  lemma RescheduleParts(c: Config, s: State, i: nat, net: Net)
    requires Enabled(c, s, Work(i, Reschedule(net)))
    ensures var t, w := Apply(c, s, Work(i, Reschedule(net))), s.workers[i];
      && BooksOf(t) == BooksOf(s) && t.workers[i] == Finish(w.held)
      && t.store.due == if net.Effect() then s.store.due[w.job.id := Binary64.OfInt(w.job.dueAtMs)] else s.store.due
  {
  }

  lemma RescheduleStep(c: Config, s: State, i: nat, net: Net, x: Id)
    requires Acting(c, s, i, x) && Enabled(c, s, Work(i, Reschedule(net)))
    ensures WorkActOk(c, s, i, Reschedule(net), x)
  {
    RescheduleBooks(c, BooksOf(s), s.store.due, s.workers[i], net);
    RescheduleParts(c, s, i, net);
  }

  lemma DiscardBooks(c: Config, b: Books, due: map<Id, int>, w: Worker, net: Net)
    requires BooksOk(b) && WorkerOk(c, b, w) && w.Dropping? && w.id !in due
    requires w.id in b.jobs ==> StoredOk(b, w.id)
    ensures ActOk(c, b, b.(jobs := if net.Effect() then b.jobs - {w.id} else b.jobs), due,
                  if net.Effect() then due - {w.id} else due, w.id, Finish(w.held))
  {
    assert due - {w.id} - {w.id} == due - {w.id};
  }

  lemma DiscardStep(c: Config, s: State, i: nat, net: Net, x: Id)
    requires Acting(c, s, i, x) && Enabled(c, s, Work(i, Discard(net)))
    ensures WorkActOk(c, s, i, Discard(net), x)
  {
    DiscardBooks(c, BooksOf(s), s.store.due, s.workers[i], net);
    assert BooksOf(Apply(c, s, Work(i, Discard(net)))) ==
           BooksOf(s).(jobs := if net.Effect() then s.store.jobs - {x} else s.store.jobs);
  }

  predicate IsQuiet(c: Config, s: State, w: Worker, a: Act) {
    match a
    case Acquire => false
    case Return(_, _) => false
    case Save(_) => false
    case Reschedule(_) => false
    case Discard(_) => false
    case Load(net, draw) =>
      !(net.Ok() && w.Admitted? && w.id in s.store.jobs && c.domain(s.store.jobs[w.id].url).None?)
    case _ => true
  }

  lemma QuietBooks(c: Config, s: State, i: nat, a: Act)
    requires Enabled(c, s, Work(i, a)) && IsQuiet(c, s, s.workers[i], a)
    ensures var t := Apply(c, s, Work(i, a)); t.store == s.store && t.born == s.born && t.log == s.log
  {
  }

  lemma QuietLoad(c: Config, s: State, w: Worker, net: Net, draw: DrawOk)
    requires ActEnabled(c, s, w, Load(net, draw)) && IsQuiet(c, s, w, Load(net, draw)) && WorkerOk(c, BooksOf(s), w)
    requires w.id in s.store.jobs ==> s.store.jobs[w.id].id == w.id
    ensures WorkerOk(c, BooksOf(s), WorkerAfter(c, s, w, Load(net, draw)))
  {
  }

  lemma QuietMove(c: Config, s: State, w: Worker, a: Act)
    requires ActEnabled(c, s, w, a) && IsQuiet(c, s, w, a) && !a.Load? && WorkerOk(c, BooksOf(s), w)
    requires a.Take? ==> Pre(c, BooksOf(s), s.queue[0])
    ensures WorkerOk(c, BooksOf(s), WorkerAfter(c, s, w, a))
  {
  }

  lemma QuietStep(c: Config, s: State, i: nat, a: Act)
    requires RecordsInv(c, s) && Enabled(c, s, Work(i, a)) && IsQuiet(c, s, s.workers[i], a)
    ensures var t := Apply(c, s, Work(i, a));
      t.store == s.store && t.born == s.born && t.log == s.log && WorkerOk(c, BooksOf(s), t.workers[i])
  {
    var w := s.workers[i];
    assert WorkerOk(c, BooksOf(s), w);
    QuietBooks(c, s, i, a);
    if a.Load? {
      RecordsIds(c, s);
      QuietLoad(c, s, w, a.net, a.draw);
    } else {
      QuietMove(c, s, w, a);
    }
  }

  lemma ActStep(c: Config, s: State, i: nat, a: Act, x: Id)
    requires Acting(c, s, i, x) && Enabled(c, s, Work(i, a)) && !IsQuiet(c, s, s.workers[i], a)
    ensures WorkActOk(c, s, i, a, x)
  {
    match a
    case Load(_, _) => LoadBadUrlStep(c, s, i, a, x);
    case Acquire => AcquireStep(c, s, i, x);
    case Return(o, draw) => ReturnStep(c, s, i, o, draw, x);
    case Save(net) => SaveStep(c, s, i, net, x);
    case Reschedule(net) => RescheduleStep(c, s, i, net, x);
    case Discard(net) => DiscardStep(c, s, i, net, x);
  }

  // ----- everybody else

  lemma BooksFrame(b: Books, d: Books, x: Id)
    requires BooksOk(b) && OnlyAbout(b, d, x)
    requires d.born.Keys == b.born.Keys + {x} && d.born[x].id == x
    requires TriesOk(d.born[x], d.log) && (x in d.jobs ==> StoredOk(d, x))
    ensures BooksOk(d)
  {
    forall id | id in d.born
      ensures d.born[id].id == id && TriesOk(d.born[id], d.log)
    {
      if id != x { HistoryFrame(b, d, x, id); }
    }
    forall id | id in d.jobs
      ensures StoredOk(d, id)
    {
      if id != x { assert StoredOk(b, id); }
    }
    forall k | 0 <= k < |d.log|
      ensures d.log[k].id in d.born
    {
      if k < |b.log| { assert d.log[k] == d.log[..|b.log|][k]; }
    }
  }

  lemma DueFrame(c: Config, b: Books, d: Books, due: map<Id, int>, due': map<Id, int>, x: Id)
    requires BooksOk(b) && DueOk(c, b, due) && OnlyAbout(b, d, x) && due' - {x} == due - {x}
    requires x in due' ==> Pre(c, d, x) && (x in d.jobs ==> due'[x] == Binary64.OfInt(d.jobs[x].dueAtMs))
    ensures DueOk(c, d, due')
  {
    forall id | id in due'
      ensures Pre(c, d, id) && (id in d.jobs ==> due'[id] == Binary64.OfInt(d.jobs[id].dueAtMs))
    {
      if id != x {
        assert id in due' - {x} && id in due && due[id] == (due' - {x})[id];
        PreFrame(c, b, d, x, id);
      }
    }
  }

  lemma SchedulerFrame(c: Config, b: Books, d: Books, due: map<Id, int>, due': map<Id, int>, x: Id, sched: Scheduler)
    requires BooksOk(b) && SchedulerOk(c, b, due, sched) && OnlyAbout(b, d, x) && due' - {x} == due - {x}
    requires x !in Tail(sched) && InHand(sched, x) == 0
    ensures SchedulerOk(c, d, due', sched)
  {
    forall k | 0 <= k < |Tail(sched)|
      ensures Tail(sched)[k] in d.born && (Tail(sched)[k] in d.jobs ==> Tail(sched)[k] in due')
    {
      var id := Tail(sched)[k];
      assert id != x;
      if id in d.jobs { assert id in due - {x}; }
    }
    if sched.Handing? {
      PreFrame(c, b, d, x, sched.id);
    }
  }

  lemma PoolFrame(c: Config, b: Books, d: Books, x: Id, queue: seq<Id>, ws: seq<Worker>, i: nat)
    requires BooksOk(b) && OnlyAbout(b, d, x) && x !in queue
    requires forall k | 0 <= k < |queue| :: Pre(c, b, queue[k])
    requires forall j | 0 <= j < |ws| :: WorkerOk(c, b, ws[j])
    requires forall j | 0 <= j < |ws| && j != i :: Holds(ws[j]) != Some(x)
    ensures forall k | 0 <= k < |queue| :: Pre(c, d, queue[k])
    ensures forall j | 0 <= j < |ws| && j != i :: WorkerOk(c, d, ws[j])
  {
    forall k | 0 <= k < |queue|
      ensures Pre(c, d, queue[k])
    {
      PreFrame(c, b, d, x, queue[k]);
    }
    forall j | 0 <= j < |ws| && j != i
      ensures WorkerOk(c, d, ws[j])
    {
      WorkerFrame(c, b, d, x, ws[j]);
    }
  }

  /** If only the job `x` is concerned, and nobody but the acting worker has it, the rest stays in order. */
  lemma RestOfRecords(c: Config, s: State, t: State, i: nat, x: Id)
    requires RecordsInv(c, s) && ClaimsInv(s) && i < |s.workers| && Holds(s.workers[i]) == Some(x)
    requires |t.workers| == |s.workers|
    requires ActOk(c, BooksOf(s), BooksOf(t), s.store.due, t.store.due, x, t.workers[i])
    requires t.sched == s.sched && t.queue == s.queue && t.workers == s.workers[i := t.workers[i]]
    ensures RecordsInv(c, t)
  {
    var b, d := BooksOf(s), BooksOf(t);
    SoleClaim(s, i, x);
    BooksFrame(b, d, x);
    DueFrame(c, b, d, s.store.due, t.store.due, x);
    SchedulerFrame(c, b, d, s.store.due, t.store.due, x, s.sched);
    PoolFrame(c, b, d, x, s.queue, s.workers, i);
  }

  lemma RecordsAfterWork(c: Config, s: State, i: nat, a: Act)
    requires RecordsInv(c, s) && ClaimsInv(s) && Enabled(c, s, Work(i, a))
    ensures RecordsInv(c, Apply(c, s, Work(i, a)))
  {
    var t := Apply(c, s, Work(i, a));
    if IsQuiet(c, s, s.workers[i], a) {
      QuietStep(c, s, i, a);
      assert forall k | 0 <= k < |t.queue| :: t.queue[k] in s.queue;
    } else {
      var x := Holds(s.workers[i]).value;
      ActingWorker(c, s, i, x);
      ActStep(c, s, i, a, x);
      RestOfRecords(c, s, t, i, x);
    }
  }

  // ----- the other participants

  lemma CreateBooks(c: Config, b: Books, due: map<Id, int>, sched: Scheduler, job: Job)
    requires BooksOk(b) && DueOk(c, b, due) && SchedulerOk(c, b, due, sched) && Newborn(job)
    requires job.id !in b.born && job.id !in b.jobs && job.id !in Tail(sched) && InHand(sched, job.id) == 0
    ensures var d := Books(b.jobs[job.id := job], b.born[job.id := job], b.log);
      var due' := due[job.id := Binary64.OfInt(job.dueAtMs)];
      OnlyAbout(b, d, job.id) && BooksOk(d) && DueOk(c, d, due') && SchedulerOk(c, d, due', sched)
  {
    var d := Books(b.jobs[job.id := job], b.born[job.id := job], b.log);
    var due' := due[job.id := Binary64.OfInt(job.dueAtMs)];
    FreshRecord(c, b, job);
    assert due' - {job.id} == due - {job.id};
    BooksFrame(b, d, job.id);
    DueFrame(c, b, d, due, due', job.id);
    SchedulerFrame(c, b, d, due, due', job.id, sched);
  }

  lemma RecordsAfterCreate(c: Config, s: State, job: Job, net: Net)
    requires RecordsInv(c, s) && Enabled(c, s, ApiCreate(job, net))
    ensures RecordsInv(c, Apply(c, s, ApiCreate(job, net)))
  {
    if net.Effect() {
      var b, t := BooksOf(s), Apply(c, s, ApiCreate(job, net));
      Unborn(c, s, job.id);
      CreateBooks(c, b, s.store.due, s.sched, job);
      assert BooksOf(t) == Books(b.jobs[job.id := job], b.born[job.id := job], b.log);
      PoolFrame(c, b, BooksOf(t), job.id, s.queue, s.workers, |s.workers|);
    }
  }

  /** Nobody has an ID that was never created. */
  lemma Unborn(c: Config, s: State, x: Id)
    requires RecordsInv(c, s) && x !in s.born
    ensures x !in s.store.jobs && x !in s.store.due && x !in s.queue && x !in Tail(s.sched) && InHand(s.sched, x) == 0
    ensures Live(s, x) == 0
    ensures forall j | 0 <= j < |s.workers| :: Holds(s.workers[j]) != Some(x)
  {
    RecordsIds(c, s);
    OccursIn(s.queue, x);
    assert forall id | id in s.store.jobs :: StoredOk(BooksOf(s), id);
    forall j | 0 <= j < |s.workers|
      ensures Holds(s.workers[j]) != Some(x)
    {
      if Holds(s.workers[j]) == Some(x) { CountOne(s.workers, j, Claimer(x)); }
    }
  }

  lemma FreshRecord(c: Config, b: Books, job: Job)
    requires BooksOk(b) && Newborn(job) && job.id !in b.born && job.id !in b.jobs
    ensures var d := Books(b.jobs[job.id := job], b.born[job.id := job], b.log);
      OnlyAbout(b, d, job.id) && StoredOk(d, job.id) && TriesOk(job, d.log) && Pre(c, d, job.id)
  {
    NoEvents(job, b.log);
  }

  lemma RecordsAfterDelete(c: Config, s: State, x: Id, net: Net)
    requires RecordsInv(c, s)
    ensures RecordsInv(c, Apply(c, s, ApiDelete(x, net)))
  {
    if net.Effect() {
      var b := BooksOf(s);
      var d := b.(jobs := b.jobs - {x});
      BooksDropped(b, x);
      assert DueOk(c, d, s.store.due - {x}) by {
        forall id | id in s.store.due && id != x ensures Pre(c, d, id) { PreDropped(c, b, x, id); }
      }
      assert forall k | 0 <= k < |s.queue| :: Pre(c, d, s.queue[k]) by {
        forall k | 0 <= k < |s.queue| ensures Pre(c, d, s.queue[k]) { PreDropped(c, b, x, s.queue[k]); }
      }
      assert forall j | 0 <= j < |s.workers| :: WorkerOk(c, d, s.workers[j]) by {
        forall j | 0 <= j < |s.workers| ensures WorkerOk(c, d, s.workers[j]) { WorkerDropped(c, b, x, s.workers[j]); }
      }
      assert BooksOf(Apply(c, s, ApiDelete(x, net))) == d;
    }
  }

  lemma BooksDropped(b: Books, x: Id)
    requires BooksOk(b)
    ensures BooksOk(b.(jobs := b.jobs - {x}))
  {
    assert forall id | id in b.jobs - {x} :: StoredOk(b, id);
  }

  lemma RecordsAfterClaim(c: Config, s: State, net: Net)
    requires RecordsInv(c, s) && Enabled(c, s, Claim(net))
    requires forall id | id in Tail(Apply(c, s, Claim(net)).sched) :: id != s.sched.tail[0]
    ensures RecordsInv(c, Apply(c, s, Claim(net)))
  {
    var t := Apply(c, s, Claim(net));
    assert BooksOf(t) == BooksOf(s);
    assert s.sched.tail[0] == Tail(s.sched)[0];
    forall k | 0 <= k < |Tail(t.sched)|
      ensures Tail(t.sched)[k] in s.born && (Tail(t.sched)[k] in s.store.jobs ==> Tail(t.sched)[k] in t.store.due)
    {
      assert Tail(t.sched)[k] == Tail(s.sched)[k + 1];
      assert Tail(t.sched)[k] in Tail(t.sched);
    }
  }

  lemma RecordsAfterFetch(c: Config, s: State, nowMs: int, ids: seq<Id>)
    requires RecordsInv(c, s) && Enabled(c, s, Fetch(nowMs, ids))
    ensures RecordsInv(c, Apply(c, s, Fetch(nowMs, ids)))
  {
    FetchDistinct(s.store.due, Binary64.OfInt(nowMs), c.batch, ids);
    assert BooksOf(Apply(c, s, Fetch(nowMs, ids))) == BooksOf(s);
  }

  lemma RecordsAfterOther(c: Config, s: State, l: Label)
    requires RecordsInv(c, s) && Enabled(c, s, l)
    requires !l.ApiCreate? && !l.ApiDelete? && !l.Work? && !l.Claim? && !l.Fetch?
    ensures RecordsInv(c, Apply(c, s, l))
  {
    var t := Apply(c, s, l);
    assert BooksOf(t) == BooksOf(s) && t.store.due == s.store.due;
    assert Tail(t.sched) == Tail(s.sched) || Tail(t.sched) == [];
  }

  lemma RecordsStep(c: Config, s: State, l: Label)
    requires RecordsInv(c, s) && ClaimsInv(s) && Enabled(c, s, l)
    ensures RecordsInv(c, Apply(c, s, l))
  {
    match l
    case ApiCreate(job, net) => RecordsAfterCreate(c, s, job, net);
    case ApiDelete(id, net) => RecordsAfterDelete(c, s, id, net);
    case Work(i, a) => RecordsAfterWork(c, s, i, a);
    case Claim(net) =>
      TailAfter(c, s, l);
      RecordsAfterClaim(c, s, net);
    case Fetch(nowMs, ids) => RecordsAfterFetch(c, s, nowMs, ids);
    case _ => RecordsAfterOther(c, s, l);
  }
}
