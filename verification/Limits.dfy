/**
 The two tiers of semaphores and the double-checked creation of the second: the counters equal the numbers of
 their holders, and a domain never has more than one semaphore.
 */
module Limits {
  import opened Jobs
  import opened Lifecycle
  import opened StoreModel
  import opened Protocol
  import opened Pool

  ghost predicate Counted(y: Sync, ws: seq<Worker>) {
    && y.admitted == Count(ws, Inside)
    && y.readers == Count(ws, Reader)
    && One(y.writing) == Count(ws, Writer)
  }

  ghost predicate SemsCounted(c: Config, y: Sync, ws: seq<Worker>) {
    forall k | 0 <= k < |y.sems| :: y.sems[k].used == Count(ws, Holder(k)) && y.sems[k].used <= c.maxPerDomain
  }

  /** The registry and the list of semaphores made so far name each other: one semaphore for each domain. */
  ghost predicate Registered(y: Sync) {
    && (forall d | d in y.registry :: y.registry[d] < |y.sems| && y.sems[y.registry[d]].domain == d)
    && (forall k | 0 <= k < |y.sems| :: y.sems[k].domain in y.registry && y.registry[y.sems[k].domain] == k)
  }

  predicate WorkerFits(y: Sync, w: Worker) {
    && (w.Waiting? || w.Calling? ==> w.sem < |y.sems| && y.sems[w.sem].domain == w.domain)
    && (HeldSem(w).Some? ==> HeldSem(w).value < |y.sems|)
    && (w.Seeking? && w.at.Creating? ==> w.domain !in y.registry)
    && (w.Seeking? && (w.at.Writing? || w.at.Creating?) ==> y.readers == 0)
  }

  ghost predicate SyncOk(c: Config, y: Sync, ws: seq<Worker>) {
    && Counted(y, ws)
    && SemsCounted(c, y, ws)
    && Registered(y)
    && forall i | 0 <= i < |ws| :: WorkerFits(y, ws[i])
  }

  ghost predicate LimitsInv(c: Config, s: State) {
    && |s.workers| == c.maxInflight
    && |s.queue| <= c.QueueCapacity()
    && SyncOk(c, s.sync, s.workers)
  }

  // ----- preservation

  /** The counters move with the roles of the acting worker. */
  lemma RolesAfter(c: Config, s: State, w: Worker, a: Act)
    requires ActEnabled(c, s, w, a)
    ensures var w', y, y' := WorkerAfter(c, s, w, a), s.sync, SyncAct(c, s, w, a);
      && y'.admitted + One(Plays(w, Inside)) == y.admitted + One(Plays(w', Inside))
      && y'.readers + One(Plays(w, Reader)) == y.readers + One(Plays(w', Reader))
  {
  }

  lemma WriterAfter(c: Config, s: State, w: Worker, a: Act)
    requires ActEnabled(c, s, w, a) && (Plays(w, Writer) ==> s.sync.writing)
    ensures One(SyncAct(c, s, w, a).writing) + One(Plays(w, Writer))
            == One(s.sync.writing) + One(Plays(WorkerAfter(c, s, w, a), Writer))
  {
  }

  lemma CountedStep(c: Config, s: State, i: nat, a: Act)
    requires LimitsInv(c, s) && i < |s.workers| && ActEnabled(c, s, s.workers[i], a)
    ensures Counted(SyncAct(c, s, s.workers[i], a), s.workers[i := WorkerAfter(c, s, s.workers[i], a)])
  {
    var w' := WorkerAfter(c, s, s.workers[i], a);
    if Plays(s.workers[i], Writer) { CountOne(s.workers, i, Writer); }
    RolesAfter(c, s, s.workers[i], a);
    WriterAfter(c, s, s.workers[i], a);
    CountUpdate(s.workers, i, w', Inside);
    CountUpdate(s.workers, i, w', Reader);
    CountUpdate(s.workers, i, w', Writer);
  }

  /** The worker an action leaves behind holds a domain semaphore exactly as the counters say. */
  lemma HeldAfter(c: Config, s: State, w: Worker, a: Act)
    requires ActEnabled(c, s, w, a)
    ensures HeldSem(WorkerAfter(c, s, w, a)) ==
            if a.Acquire? then Some(w.sem) else if a.Unwind? then None else HeldSem(w)
    ensures a.Acquire? ==> HeldSem(w) == None
    ensures a.Unwind? ==> HeldSem(w) == Some(w.sem)
  {
  }

  lemma SemsAfter(c: Config, s: State, w: Worker, a: Act)
    requires ActEnabled(c, s, w, a)
    ensures var y, y' := s.sync, SyncAct(c, s, w, a);
      && |y'.sems| == |y.sems| + One(a.Publish?)
      && (forall k | 0 <= k < |y.sems| :: y'.sems[k].domain == y.sems[k].domain)
      && (forall k | 0 <= k < |y.sems| ::
            y'.sems[k].used == y.sems[k].used + One(a.Acquire? && w.sem == k) - One(a.Unwind? && w.sem == k))
      && (a.Publish? ==> y'.sems[|y.sems|] == Sem(w.domain, 0) && y'.registry == y.registry[w.domain := |y.sems|])
      && (!a.Publish? ==> y'.registry == y.registry)
  {
  }

  lemma NobodyHoldsBeyond(y: Sync, ws: seq<Worker>)
    requires forall i | 0 <= i < |ws| :: WorkerFits(y, ws[i])
    ensures Count(ws, Holder(|y.sems|)) == 0
  {
    CountNone(ws, Holder(|y.sems|));
  }

  lemma SemsCountedStep(c: Config, s: State, i: nat, a: Act)
    requires LimitsInv(c, s) && i < |s.workers| && ActEnabled(c, s, s.workers[i], a)
    ensures SemsCounted(c, SyncAct(c, s, s.workers[i], a), s.workers[i := WorkerAfter(c, s, s.workers[i], a)])
  {
    var w, w', y' := s.workers[i], WorkerAfter(c, s, s.workers[i], a), SyncAct(c, s, s.workers[i], a);
    HeldAfter(c, s, w, a);
    SemsAfter(c, s, w, a);
    NobodyHoldsBeyond(s.sync, s.workers);
    forall k | 0 <= k < |y'.sems|
      ensures y'.sems[k].used == Count(s.workers[i := w'], Holder(k)) && y'.sems[k].used <= c.maxPerDomain
    {
      CountUpdate(s.workers, i, w', Holder(k));
    }
  }

  lemma RegisteredStep(c: Config, s: State, i: nat, a: Act)
    requires LimitsInv(c, s) && i < |s.workers| && ActEnabled(c, s, s.workers[i], a)
    ensures Registered(SyncAct(c, s, s.workers[i], a))
  {
    assert WorkerFits(s.sync, s.workers[i]);
    SemsAfter(c, s, s.workers[i], a);
  }

  /** While one worker is past asking for the write lock, no other is. */
  lemma OneWriter(c: Config, s: State, i: nat, j: nat)
    requires LimitsInv(c, s) && i < |s.workers| && j < |s.workers| && i != j
    requires Plays(s.workers[i], Writer)
    ensures !Plays(s.workers[j], Writer) && s.sync.writing
  {
    CountOne(s.workers, i, Writer);
    if Plays(s.workers[j], Writer) {
      CountTwo(s.workers, i, j, Writer);
    }
  }

  lemma WorkerFitsStep(c: Config, s: State, i: nat, a: Act, j: nat)
    requires LimitsInv(c, s) && i < |s.workers| && j < |s.workers| && ActEnabled(c, s, s.workers[i], a)
    ensures WorkerFits(SyncAct(c, s, s.workers[i], a), s.workers[i := WorkerAfter(c, s, s.workers[i], a)][j])
  {
    var w := s.workers[i];
    assert WorkerFits(s.sync, w) && WorkerFits(s.sync, s.workers[j]);
    SemsAfter(c, s, w, a);
    HeldAfter(c, s, w, a);
    if i != j && Plays(s.workers[j], Writer) {
      OneWriter(c, s, j, i);
      ReadersAfter(c, s, w, a);
    } else if i == j {
      OwnFit(c, s, w, a);
    }
  }

  lemma ReadersAfter(c: Config, s: State, w: Worker, a: Act)
    requires ActEnabled(c, s, w, a) && s.sync.writing
    ensures SyncAct(c, s, w, a).readers <= s.sync.readers
    ensures a.Publish? ==> Plays(w, Writer)
  {
  }

  lemma OwnFit(c: Config, s: State, w: Worker, a: Act)
    requires ActEnabled(c, s, w, a) && WorkerFits(s.sync, w) && Registered(s.sync)
    ensures var w', y' := WorkerAfter(c, s, w, a), SyncAct(c, s, w, a);
      && (w'.Waiting? || w'.Calling? ==> w'.sem < |y'.sems| && y'.sems[w'.sem].domain == w'.domain)
      && (w'.Seeking? && w'.at.Creating? ==> w'.domain !in y'.registry)
      && (w'.Seeking? && (w'.at.Writing? || w'.at.Creating?) ==> y'.readers == 0)
  {
  }

  lemma LimitsStep(c: Config, s: State, l: Label)
    requires LimitsInv(c, s) && Enabled(c, s, l)
    ensures LimitsInv(c, Apply(c, s, l))
  {
    if l.Work? {
      CountedStep(c, s, l.i, l.act);
      SemsCountedStep(c, s, l.i, l.act);
      RegisteredStep(c, s, l.i, l.act);
      var t := Apply(c, s, l);
      forall j | 0 <= j < |t.workers|
        ensures WorkerFits(t.sync, t.workers[j])
      {
        WorkerFitsStep(c, s, l.i, l.act, j);
      }
    } else if l.Crash? {
      FreshSyncOk(c);
    }
  }

  lemma FreshSyncOk(c: Config)
    ensures SyncOk(c, FreshSync, IdleWorkers(c))
  {
    var ws := IdleWorkers(c);
    CountNone(ws, Inside);
    CountNone(ws, Reader);
    CountNone(ws, Writer);
  }

  // ----- the limits

  function CallsTo(s: State, domain: string): nat {
    Count(s.workers, Caller(domain))
  }

  function Calls(s: State): nat {
    Count(s.workers, AnyCaller)
  }

  lemma LimitsHold(c: Config, s: State, domain: string)
    requires LimitsInv(c, s)
    ensures CallsTo(s, domain) <= c.maxPerDomain
    ensures Calls(s) <= s.sync.admitted <= c.maxInflight
  {
    CountImplies(s.workers, AnyCaller, Inside);
    CountAtMost(s.workers, Inside);
    if domain in s.sync.registry {
      forall i | 0 <= i < |s.workers| && Plays(s.workers[i], Caller(domain))
        ensures Plays(s.workers[i], Holder(s.sync.registry[domain]))
      {
        assert WorkerFits(s.sync, s.workers[i]);
      }
      CountImplies(s.workers, Caller(domain), Holder(s.sync.registry[domain]));
    } else {
      forall i | 0 <= i < |s.workers|
        ensures !Plays(s.workers[i], Caller(domain))
      {
        assert WorkerFits(s.sync, s.workers[i]);
      }
      CountNone(s.workers, Caller(domain));
    }
  }

  /** All who want a domain, or have been let in, use one and the same semaphore. */
  lemma OneSemaphorePerDomain(c: Config, s: State, i: nat, j: nat)
    requires LimitsInv(c, s) && i < |s.workers| && j < |s.workers|
    requires (s.workers[i].Waiting? || s.workers[i].Calling?) && (s.workers[j].Waiting? || s.workers[j].Calling?)
    ensures s.workers[i].domain == s.workers[j].domain <==> s.workers[i].sem == s.workers[j].sem
  {
    assert WorkerFits(s.sync, s.workers[i]) && WorkerFits(s.sync, s.workers[j]);
  }

  /** There are as many workers as global permits, so the global acquire never blocks. */
  lemma GlobalNeverBlocks(c: Config, s: State, i: nat)
    requires LimitsInv(c, s) && i < |s.workers| && s.workers[i].Taken?
    ensures Enabled(c, s, Work(i, Admit))
  {
    assert !Plays(s.workers[i], Inside);
    CountAtMost(s.workers, Inside);
  }
}
