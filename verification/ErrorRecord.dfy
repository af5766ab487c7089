/** What the stored record of the last error says about the executions of a job, in every run. */
module ErrorRecords {
  import opened Jobs
  import opened Lifecycle
  import opened StoreModel
  import opened Protocol
  import opened Pool
  import opened Claims
  import opened Records
  import opened RecordsProofs
  import opened Safety
  import opened Finality
  import opened Losses
  import Decimal

  // ----- notes

  datatype Note = Note(message: string, code: int)

  const NO_NOTE := Note("", 0)

  function NoteOf(j: Job): Note {
    Note(j.lastError, j.lastHttpCode)
  }

  /** What the handlers put on record for an outcome. */
  function Recorded(o: Outcome): Note {
    match o
    case BadUrl => Note("invalid URL", 0)
    case Errored(message) => Note(message, 0)
    case Response(code) =>
      if 200 <= code <= 299 then NO_NOTE else Note("HTTP " + Decimal.FormatInt(code), code)
  }

  /** The last message that is not empty, in a history. */
  function LastMessage(log: seq<EventOk>, id: Id): string {
    if log == [] then ""
    else
      var e := log[|log| - 1];
      if e.Ended? && e.id == id && Recorded(e.outcome).message != "" then Recorded(e.outcome).message
      else LastMessage(log[..|log| - 1], id)
  }

  /** The last status code that is not zero. */
  function LastCode(log: seq<EventOk>, id: Id): int {
    if log == [] then 0
    else
      var e := log[|log| - 1];
      if e.Ended? && e.id == id && Recorded(e.outcome).code != 0 then Recorded(e.outcome).code
      else LastCode(log[..|log| - 1], id)
  }

  function Notes(log: seq<EventOk>, id: Id): Note {
    Note(LastMessage(log, id), LastCode(log, id))
  }

  function Merge(a: Note, b: Note): Note {
    Note(if b.message != "" then b.message else a.message, if b.code != 0 then b.code else a.code)
  }

  lemma NotesAppend(log: seq<EventOk>, e: EventOk, id: Id)
    ensures Notes(log + [e], id) ==
            if e.Ended? && e.id == id then Merge(Notes(log, id), Recorded(e.outcome)) else Notes(log, id)
  {
    assert (log + [e])[..|log|] == log;
  }

  lemma {:induction false} NoNotes(log: seq<EventOk>, id: Id)
    requires forall e | e in log :: e.id != id
    ensures Notes(log, id) == NO_NOTE
  {
    if log != [] {
      NoNotes(log[..|log| - 1], id);
    }
  }

  lemma SettledNote(j: Job, o: Outcome, d: DrawOk)
    requires Runnable(j) && !Settle(j, o, d).Remove?
    ensures NoteOf(After(j, o, d)) == Recorded(o)
  {
  }

  lemma WrittenNote(jobs: map<Id, Job>, j: Job)
    ensures NoteOf(Write(jobs, j)[j.id]) == if j.id in jobs then Merge(NoteOf(jobs[j.id]), NoteOf(j)) else NoteOf(j)
  {
  }

  // ----- the holder of a job

  predicate Saves(w: Worker, id: Id) {
    w.Saving? && w.job.id == id
  }

  predicate HasCopy(w: Worker, id: Id) {
    (w.Seeking? || w.Waiting? || w.Calling?) && w.job.id == id
  }

  /** The worker that holds the job; an idle one if there is none. */
  function HolderOf(ws: seq<Worker>, id: Id): Worker {
    if ws == [] then Idle
    else if Holds(ws[|ws| - 1]) == Some(id) then ws[|ws| - 1]
    else HolderOf(ws[..|ws| - 1], id)
  }

  lemma {:induction false} HolderIs(ws: seq<Worker>, i: nat, id: Id)
    requires i < |ws| && Holds(ws[i]) == Some(id)
    requires forall j | 0 <= j < |ws| && j != i :: Holds(ws[j]) != Some(id)
    ensures HolderOf(ws, id) == ws[i]
  {
    if i < |ws| - 1 {
      HolderIs(ws[..|ws| - 1], i, id);
    }
  }

  lemma {:induction false} HolderNone(ws: seq<Worker>, id: Id)
    requires forall j | 0 <= j < |ws| :: Holds(ws[j]) != Some(id)
    ensures HolderOf(ws, id) == Idle
  {
    if ws != [] {
      HolderNone(ws[..|ws| - 1], id);
    }
  }

  lemma {:induction false} HolderBeside(ws: seq<Worker>, i: nat, w: Worker, id: Id)
    requires i < |ws| && Holds(ws[i]) != Some(id) && Holds(w) != Some(id)
    ensures HolderOf(ws[i := w], id) == HolderOf(ws, id)
  {
    var n := |ws| - 1;
    if i == n {
      assert ws[i := w][..n] == ws[..n];
    } else {
      assert ws[i := w][..n] == ws[..n][i := w];
      HolderBeside(ws[..n], i, w, id);
    }
  }

  lemma HolderMoves(s: State, i: nat, w: Worker, id: Id)
    requires ClaimsInv(s) && i < |s.workers| && Holds(s.workers[i]) == Some(id)
    ensures HolderOf(s.workers, id) == s.workers[i]
    ensures HolderOf(s.workers[i := w], id) == if Holds(w) == Some(id) then w else Idle
  {
    SoleClaim(s, i, id);
    HolderIs(s.workers, i, id);
    if Holds(w) == Some(id) {
      HolderIs(s.workers[i := w], i, id);
    } else {
      HolderNone(s.workers[i := w], id);
    }
  }

  // ----- since when a record counts

  /** The position of the end of the latest execution. */
  function LastEndedAt(log: seq<EventOk>, id: Id): (k: nat)
    ensures k <= |log|
  {
    if log == [] then 0
    else
      var e := log[|log| - 1];
      if e.Ended? && e.id == id then |log| - 1 else LastEndedAt(log[..|log| - 1], id)
  }

  lemma {:induction false} SinceLastEnded(log: seq<EventOk>, id: Id)
    requires LastOutcome(log, id).Some?
    ensures Notes(log[LastEndedAt(log, id)..], id) == Recorded(LastOutcome(log, id).value)
  {
    var n := |log| - 1;
    var e := log[n];
    if e.Ended? && e.id == id {
      assert log[n..] == [] + [e];
      NotesAppend([], e, id);
    } else {
      SinceLastEnded(log[..n], id);
      var k := LastEndedAt(log[..n], id);
      assert log[k..] == log[..n][k..] + [e];
      NotesAppend(log[..n][k..], e, id);
    }
  }

  /** A DELETE wipes the record; a worker about to save brings back only what it saves. */
  function BaseAfter(s: State, l: Label, id: Id, b: nat): nat {
    if Deletes(l, id) then (if Saves(HolderOf(s.workers, id), id) then LastEndedAt(s.log, id) else |s.log|) else b
  }

  /** The position in the history from which on the record of a job counts: the start of the run, or the last DELETE of
      the job, and then the execution that was being saved when it came. */
  ghost function Since(c: Config, s: State, ls: seq<Label>, id: Id, b: nat): nat
    requires Valid(c, s, ls)
    decreases |ls|
  {
    if ls == [] then b else Since(c, Apply(c, s, ls[0]), ls[1..], id, BaseAfter(s, ls[0], id, b))
  }

  // ----- the invariant

  function StoredNote(st: Store, id: Id): Option<Note> {
    if id in st.jobs then Some(NoteOf(st.jobs[id])) else None
  }

  /** What the stored record and the copy about to be saved say of the notes `n` of the executions that count. */
  predicate Tells(stored: Option<Note>, lost: bool, w: Worker, id: Id, n: Note) {
    match stored
    case Some(x) => lost || (if Saves(w, id) then Merge(x, NoteOf(w.job)) == n else x == n)
    case None => (Saves(w, id) ==> NoteOf(w.job) == n) && (HasCopy(w, id) ==> n == NO_NOTE)
  }

  predicate FreshNote(w: Worker, id: Id, last: Option<Outcome>) {
    Saves(w, id) ==> last.Some? && NoteOf(w.job) == Recorded(last.value)
  }

  ghost predicate Noted(s: State, id: Id, b: nat) {
    && b <= |s.log|
    && FreshNote(HolderOf(s.workers, id), id, LastOutcome(s.log, id))
    && Tells(StoredNote(s.store, id), Lost(s, id), HolderOf(s.workers, id), id, Notes(s.log[b..], id))
  }

  // ----- history

  /** What a label adds to the notes since `b`, and to the last outcome. */
  lemma NotesAfter(c: Config, s: State, l: Label, id: Id, b: nat)
    requires Enabled(c, s, l) && b <= |s.log|
    ensures var t := Apply(c, s, l);
      && b <= |t.log|
      && (if Ends(c, s, l, id)
          then var o := EventOf(c, s, l).value.outcome;
            && Notes(t.log[b..], id) == Merge(Notes(s.log[b..], id), Recorded(o))
            && LastOutcome(t.log, id) == Some(o)
          else Notes(t.log[b..], id) == Notes(s.log[b..], id) && LastOutcome(t.log, id) == LastOutcome(s.log, id))
  {
    match EventOf(c, s, l)
    case None =>
    case Some(e) =>
      assert (s.log + [e])[b..] == s.log[b..] + [e];
      assert (s.log + [e])[..|s.log|] == s.log;
      NotesAppend(s.log[b..], e, id);
  }

  // ----- the holder acts

  /** An execution ends: the handler's job carries the note of the outcome. */
  lemma EndNoted(id: Id, j: Job, o: Outcome, d: DrawOk, held: Option<nat>, stored: Option<Note>, n: Note)
    requires Runnable(j) && j.id == id && (stored.Some? ==> stored.value == n) && (stored.None? ==> n == NO_NOTE)
    ensures var w := Carry(id, Settle(j, o, d), held);
      && FreshNote(w, id, Some(o)) && Tells(stored, false, w, id, Merge(n, Recorded(o)))
  {
    if Settle(j, o, d).Remove? {
      assert Recorded(o) == NO_NOTE;
    } else {
      SettledNote(j, o, d);
    }
  }

  /** The stored jobs as a label of worker i leaves them. */
  lemma JobsAfterWork(c: Config, s: State, i: nat, a: Act, id: Id)
    requires Enabled(c, s, Work(i, a)) && Holds(s.workers[i]) == Some(id)
    ensures var w, jobs := s.workers[i], Apply(c, s, Work(i, a)).store.jobs;
      jobs == if a.Save? && a.net.Effect() then Write(s.store.jobs, w.job)
              else if a.Discard? && a.net.Effect() then s.store.jobs - {id}
              else s.store.jobs
  {
  }

  /** Where the holder goes next, if its action ends no execution. */
  lemma HolderNext(c: Config, s: State, i: nat, a: Act, id: Id)
    requires Enabled(c, s, Work(i, a)) && Holds(s.workers[i]) == Some(id) && IdsMatch(s.store)
    requires !Ends(c, s, Work(i, a), id)
    ensures var w, w' := s.workers[i], WorkerAfter(c, s, s.workers[i], a);
      !Saves(w', id) && (HasCopy(w', id) ==> HasCopy(w, id) || id in s.store.jobs) && (Saves(w, id) <==> a.Save?)
  {
  }

  /** The job that an action of the holder settles. */
  lemma EndingAct(c: Config, s: State, i: nat, a: Act, id: Id) returns (j: Job, held: Option<nat>)
    requires RecordsInv(c, s) && Enabled(c, s, Work(i, a)) && Holds(s.workers[i]) == Some(id)
    requires Ends(c, s, Work(i, a), id)
    ensures j.id == id && Runnable(j) && !Saves(s.workers[i], id) && (id !in s.store.jobs ==> HasCopy(s.workers[i], id))
    ensures var e := EventOf(c, s, Work(i, a)).value;
      WorkerAfter(c, s, s.workers[i], a) == Carry(id, Settle(j, e.outcome, e.draw), held)
    ensures Apply(c, s, Work(i, a)).store == s.store
  {
    var w := s.workers[i];
    assert WorkerOk(c, BooksOf(s), w);
    if a.Load? {
      j, held := s.store.jobs[w.id], None;
      assert StoredOk(BooksOf(s), w.id);
    } else {
      j, held := w.job, Some(w.sem);
    }
  }

  lemma HolderEnds(c: Config, s: State, i: nat, a: Act, id: Id, b: nat)
    requires Inv(c, s) && Enabled(c, s, Work(i, a)) && Holds(s.workers[i]) == Some(id) && Noted(s, id, b)
    requires Ends(c, s, Work(i, a), id)
    ensures Noted(Apply(c, s, Work(i, a)), id, b)
  {
    var j, held := EndingAct(c, s, i, a, id);
    var e := EventOf(c, s, Work(i, a)).value;
    NotesAfter(c, s, Work(i, a), id, b);
    HolderMoves(s, i, WorkerAfter(c, s, s.workers[i], a), id);
    CarryHolds(j, e.outcome, e.draw, held);
    CountOne(s.workers, i, Claimer(id));
    EndNoted(id, j, e.outcome, e.draw, held, StoredNote(s.store, id), Notes(s.log[b..], id));
  }

  /** A copy that is not written back is lost with its job. */
  lemma UnsavedIsLost(c: Config, s: State, i: nat, id: Id)
    requires Inv(c, s) && Enabled(c, s, Work(i, Save(Undone))) && Holds(s.workers[i]) == Some(id)
    ensures id in s.store.jobs ==> Lost(Apply(c, s, Work(i, Save(Undone))), id)
  {
    HeldIsNotLost(s, i, id);
    SavingIsPending(c, s, i, id);
    LossStep(c, s, Work(i, Save(Undone)), id);
  }

  lemma HeldIsNotLost(s: State, i: nat, id: Id)
    requires i < |s.workers| && Holds(s.workers[i]) == Some(id)
    ensures !Lost(s, id)
  {
    CountOne(s.workers, i, Claimer(id));
  }

  lemma SavingIsPending(c: Config, s: State, i: nat, id: Id)
    requires RecordsInv(c, s) && i < |s.workers| && Saves(s.workers[i], id)
    ensures id in s.store.jobs ==> Pending(s, id)
  {
    assert WorkerOk(c, BooksOf(s), s.workers[i]);
  }

  lemma SavedNote(c: Config, s: State, i: nat, net: Net, id: Id)
    requires Enabled(c, s, Work(i, Save(net))) && Holds(s.workers[i]) == Some(id)
    ensures var w, st := s.workers[i], Apply(c, s, Work(i, Save(net))).store;
      StoredNote(st, id) ==
        if !net.Effect() then StoredNote(s.store, id)
        else if id in s.store.jobs then Some(Merge(NoteOf(s.store.jobs[id]), NoteOf(w.job))) else Some(NoteOf(w.job))
  {
    JobsAfterWork(c, s, i, Save(net), id);
    WrittenNote(s.store.jobs, s.workers[i].job);
  }

  lemma SaveTells(stored: Option<Note>, now: Option<Note>, lost: bool, w: Worker, w': Worker, id: Id, n: Note, net: Net)
    requires Tells(stored, false, w, id, n) && Saves(w, id) && !Saves(w', id) && !HasCopy(w', id)
    requires if net.Effect()
             then now == Some(if stored.Some? then Merge(stored.value, NoteOf(w.job)) else NoteOf(w.job))
             else now == stored && (stored.Some? ==> lost)
    ensures Tells(now, lost, w', id, n)
  {
  }

  lemma MoveTells(stored: Option<Note>, now: Option<Note>, lost: bool, w: Worker, w': Worker, id: Id, n: Note)
    requires Tells(stored, false, w, id, n) && !Saves(w, id) && !Saves(w', id)
    requires now == stored || (now == None && !HasCopy(w', id))
    requires HasCopy(w', id) ==> HasCopy(w, id) || stored.Some?
    ensures Tells(now, lost, w', id, n)
  {
  }

  lemma HolderSaves(c: Config, s: State, i: nat, net: Net, id: Id, b: nat)
    requires Inv(c, s) && Enabled(c, s, Work(i, Save(net))) && Holds(s.workers[i]) == Some(id) && Noted(s, id, b)
    ensures Noted(Apply(c, s, Work(i, Save(net))), id, b)
  {
    if net.Undone? { UnsavedIsLost(c, s, i, id); }
    SaveNoted(c, s, i, net, id, b);
  }

  lemma SaveNoted(c: Config, s: State, i: nat, net: Net, id: Id, b: nat)
    requires ClaimsInv(s) && Enabled(c, s, Work(i, Save(net))) && Holds(s.workers[i]) == Some(id) && Noted(s, id, b)
    requires net.Undone? && id in s.store.jobs ==> Lost(Apply(c, s, Work(i, Save(net))), id)
    ensures Noted(Apply(c, s, Work(i, Save(net))), id, b)
  {
    var t := Apply(c, s, Work(i, Save(net)));
    var w' := WorkerAfter(c, s, s.workers[i], Save(net));
    NotesAfter(c, s, Work(i, Save(net)), id, b);
    HolderMoves(s, i, w', id);
    HeldIsNotLost(s, i, id);
    SavedNote(c, s, i, net, id);
    SaveTells(StoredNote(s.store, id), StoredNote(t.store, id), Lost(t, id), s.workers[i],
              if Holds(w') == Some(id) then w' else Idle, id, Notes(s.log[b..], id), net);
  }

  lemma MovedNote(c: Config, s: State, i: nat, a: Act, id: Id)
    requires Enabled(c, s, Work(i, a)) && Holds(s.workers[i]) == Some(id) && !a.Save?
    ensures var now := StoredNote(Apply(c, s, Work(i, a)).store, id);
      now == StoredNote(s.store, id) || (now == None && a.Discard? && !HasCopy(WorkerAfter(c, s, s.workers[i], a), id))
  {
    JobsAfterWork(c, s, i, a, id);
  }

  lemma HolderMovesOn(c: Config, s: State, i: nat, a: Act, id: Id, b: nat)
    requires ClaimsInv(s) && IdsMatch(s.store) && Noted(s, id, b)
    requires Enabled(c, s, Work(i, a)) && Holds(s.workers[i]) == Some(id) && !Ends(c, s, Work(i, a), id) && !a.Save?
    ensures Noted(Apply(c, s, Work(i, a)), id, b)
  {
    var t := Apply(c, s, Work(i, a));
    var w' := WorkerAfter(c, s, s.workers[i], a);
    NotesAfter(c, s, Work(i, a), id, b);
    HolderMoves(s, i, w', id);
    HeldIsNotLost(s, i, id);
    MovedNote(c, s, i, a, id);
    HolderNext(c, s, i, a, id);
    MoveTells(StoredNote(s.store, id), StoredNote(t.store, id), Lost(t, id), s.workers[i],
              if Holds(w') == Some(id) then w' else Idle, id, Notes(s.log[b..], id));
  }

  // ----- everybody else

  /** Another worker's action leaves the record, the history and the holder of the job alone, unless it takes the
      job. */
  lemma BesideStore(c: Config, s: State, i: nat, a: Act, id: Id)
    requires Enabled(c, s, Work(i, a)) && Holds(s.workers[i]) != Some(id)
    ensures StoredNote(Apply(c, s, Work(i, a)).store, id) == StoredNote(s.store, id)
  {
  }

  lemma BesideEnds(c: Config, s: State, i: nat, a: Act, id: Id)
    requires Enabled(c, s, Work(i, a)) && Holds(s.workers[i]) != Some(id) && IdsMatch(s.store)
    ensures !Ends(c, s, Work(i, a), id)
  {
  }

  lemma BesideHolder(c: Config, s: State, i: nat, a: Act, id: Id)
    requires ClaimsInv(s) && IdsMatch(s.store) && Enabled(c, s, Work(i, a)) && Holds(s.workers[i]) != Some(id)
    ensures var h, h' := HolderOf(s.workers, id), HolderOf(Apply(c, s, Work(i, a)).workers, id);
      h' == h || (!Saves(h', id) && !HasCopy(h', id) && h == Idle)
  {
    var w' := WorkerAfter(c, s, s.workers[i], a);
    WorkerKeepsClaim(c, s, s.workers[i], a);
    if Holds(w') == Some(id) {
      TakerIsSole(s, i, id);
      HolderNone(s.workers, id);
      HolderIs(s.workers[i := w'], i, id);
    } else {
      HolderBeside(s.workers, i, w', id);
    }
  }

  /** Nobody holds an ID that is in the queue. */
  lemma TakerIsSole(s: State, i: nat, id: Id)
    requires ClaimsInv(s) && s.queue != [] && s.queue[0] == id
    ensures forall j | 0 <= j < |s.workers| :: Holds(s.workers[j]) != Some(id)
  {
    assert id in s.queue;
    OccursIn(s.queue, id);
    assert Live(s, id) <= 1;
    forall j | 0 <= j < |s.workers|
      ensures Holds(s.workers[j]) != Some(id)
    {
      if Holds(s.workers[j]) == Some(id) { CountOne(s.workers, j, Claimer(id)); }
    }
  }

  lemma StillLost(c: Config, s: State, l: Label, id: Id)
    requires Inv(c, s) && Enabled(c, s, l) && !Deletes(l, id)
    ensures Lost(s, id) ==> Lost(Apply(c, s, l), id)
  {
    if Lost(s, id) { StaysLost(c, s, l, id); }
  }

  lemma BystanderNoted(c: Config, s: State, i: nat, a: Act, id: Id, b: nat)
    requires Inv(c, s) && Enabled(c, s, Work(i, a)) && Holds(s.workers[i]) != Some(id) && Noted(s, id, b)
    ensures Noted(Apply(c, s, Work(i, a)), id, b)
  {
    RecordsIds(c, s);
    BesideStore(c, s, i, a, id);
    BesideEnds(c, s, i, a, id);
    BesideHolder(c, s, i, a, id);
    NotesAfter(c, s, Work(i, a), id, b);
    StillLost(c, s, Work(i, a), id);
  }

  // ----- every label

  lemma WorkNoted(c: Config, s: State, i: nat, a: Act, id: Id, b: nat)
    requires Inv(c, s) && Enabled(c, s, Work(i, a)) && Noted(s, id, b)
    ensures Noted(Apply(c, s, Work(i, a)), id, b)
  {
    RecordsIds(c, s);
    if Holds(s.workers[i]) != Some(id) {
      BystanderNoted(c, s, i, a, id, b);
    } else if Ends(c, s, Work(i, a), id) {
      HolderEnds(c, s, i, a, id, b);
    } else if a.Save? {
      HolderSaves(c, s, i, a.net, id, b);
    } else {
      HolderMovesOn(c, s, i, a, id, b);
    }
  }

  /** A DELETE leaves what the holder may still save. */
  lemma DeleteNoted(c: Config, s: State, net: Net, id: Id, b: nat)
    requires Noted(s, id, b) && net.Effect()
    ensures Noted(Apply(c, s, ApiDelete(id, net)), id, BaseAfter(s, ApiDelete(id, net), id, b))
  {
    if Saves(HolderOf(s.workers, id), id) {
      SinceLastEnded(s.log, id);
    } else {
      assert s.log[|s.log|..] == [];
    }
  }

  /** A new job has no history. */
  lemma CreateNoted(c: Config, s: State, job: Job, net: Net, b: nat)
    requires RecordsInv(c, s) && Enabled(c, s, ApiCreate(job, net)) && net.Effect() && Noted(s, job.id, b)
    ensures Noted(Apply(c, s, ApiCreate(job, net)), job.id, b)
  {
    Unborn(c, s, job.id);
    HolderNone(s.workers, job.id);
    forall e | e in s.log[b..]
      ensures e.id != job.id
    {
      var k :| 0 <= k < |s.log| && s.log[k] == e;
      assert BooksOf(s).log[k].id in s.born;
    }
    NoNotes(s.log[b..], job.id);
  }

  lemma CrashNoted(c: Config, s: State, id: Id, b: nat)
    requires Inv(c, s) && Noted(s, id, b)
    ensures Noted(Apply(c, s, Crash), id, b)
  {
    HolderNone(IdleWorkers(c), id);
    StillLost(c, s, Crash, id);
    HeldIsLostByCrash(c, s, id);
  }

  lemma {:induction false} HolderIsWorker(ws: seq<Worker>, id: Id) returns (i: nat)
    requires Saves(HolderOf(ws, id), id)
    ensures i < |ws| && ws[i] == HolderOf(ws, id)
  {
    if Holds(ws[|ws| - 1]) == Some(id) {
      i := |ws| - 1;
    } else {
      i := HolderIsWorker(ws[..|ws| - 1], id);
    }
  }

  lemma HeldIsLostByCrash(c: Config, s: State, id: Id)
    requires Inv(c, s)
    ensures Saves(HolderOf(s.workers, id), id) && id in s.store.jobs ==> Lost(Apply(c, s, Crash), id)
  {
    if Saves(HolderOf(s.workers, id), id) && id in s.store.jobs {
      var i := HolderIsWorker(s.workers, id);
      CountOne(s.workers, i, Claimer(id));
      SavingIsPending(c, s, i, id);
      HeldIsNotLost(s, i, id);
      LossStep(c, s, Crash, id);
    }
  }

  /** The other labels concern neither the record nor the history nor the workers. */
  lemma OtherNoted(c: Config, s: State, l: Label, id: Id, b: nat)
    requires Inv(c, s) && Enabled(c, s, l) && Noted(s, id, b) && !l.Work? && !l.Crash? && !Deletes(l, id)
    requires l.ApiCreate? && l.net.Effect() ==> l.job.id != id
    ensures Noted(Apply(c, s, l), id, b)
  {
    StillLost(c, s, l, id);
    OtherNote(c, s, l, id);
  }

  lemma OtherNote(c: Config, s: State, l: Label, id: Id)
    requires Enabled(c, s, l) && !l.Work? && !l.Crash? && !Deletes(l, id)
    requires l.ApiCreate? && l.net.Effect() ==> l.job.id != id
    ensures var t := Apply(c, s, l);
      StoredNote(t.store, id) == StoredNote(s.store, id) && t.log == s.log && t.workers == s.workers
  {
  }

  lemma NotedStep(c: Config, s: State, l: Label, id: Id, b: nat)
    requires Inv(c, s) && Enabled(c, s, l) && Noted(s, id, b)
    ensures Noted(Apply(c, s, l), id, BaseAfter(s, l, id, b))
  {
    match l
    case Work(i, a) => WorkNoted(c, s, i, a, id, b);
    case Crash => CrashNoted(c, s, id, b);
    case ApiDelete(x, net) =>
      if Deletes(l, id) { DeleteNoted(c, s, net, id, b); } else { OtherNoted(c, s, l, id, b); }
    case ApiCreate(job, net) =>
      if net.Effect() && job.id == id { CreateNoted(c, s, job, net, b); } else { OtherNoted(c, s, l, id, b); }
    case _ => OtherNoted(c, s, l, id, b);
  }

  lemma {:induction false} NotedRun(c: Config, s: State, ls: seq<Label>, id: Id, b: nat)
    requires Inv(c, s) && Valid(c, s, ls) && Noted(s, id, b)
    ensures Noted(Run(c, s, ls), id, Since(c, s, ls, id, b))
    decreases |ls|
  {
    if ls != [] {
      InvStep(c, s, ls[0]);
      NotedStep(c, s, ls[0], id, b);
      NotedRun(c, Apply(c, s, ls[0]), ls[1..], id, BaseAfter(s, ls[0], id, b));
    }
  }

  // ----- what is on record

  /** Stored, with a future or failed, and not about to be saved. */
  ghost predicate Standing(s: State, id: Id) {
    id in s.store.jobs && !Lost(s, id) && forall i | 0 <= i < |s.workers| :: !Saves(s.workers[i], id)
  }

  /** In every run, the record of the last error of a stored job that is not lost, and not about to be saved, holds
      the last message that is not empty and the last status code that is not zero, each from whichever execution it
      was, of the executions since the last DELETE; a DELETE spares the outcome that was being saved as it came. */
  lemma ErrorsOnRecord(c: Config, ls: seq<Label>, id: Id)
    requires Valid(c, Init(c), ls) && Standing(Run(c, Init(c), ls), id)
    ensures var s, b := Run(c, Init(c), ls), Since(c, Init(c), ls, id, 0);
      && b <= |s.log|
      && s.store.jobs[id].lastError == LastMessage(s.log[b..], id)
      && s.store.jobs[id].lastHttpCode == LastCode(s.log[b..], id)
  {
    InvInit(c);
    HolderNone(Init(c).workers, id);
    NotedRun(c, Init(c), ls, id, 0);
    var s := Run(c, Init(c), ls);
    if Saves(HolderOf(s.workers, id), id) {
      var i := HolderIsWorker(s.workers, id);
    }
  }

  lemma {:induction false} SinceStart(c: Config, s: State, ls: seq<Label>, id: Id, b: nat)
    requires Valid(c, s, ls) && !DeletedAlong(ls, id)
    ensures Since(c, s, ls, id, b) == b
    decreases |ls|
  {
    if ls != [] {
      SinceStart(c, Apply(c, s, ls[0]), ls[1..], id, b);
    }
  }

  /** If no DELETE of the job takes effect in the run, these are all its executions. */
  lemma LastErrors(c: Config, ls: seq<Label>, id: Id)
    requires Valid(c, Init(c), ls) && Standing(Run(c, Init(c), ls), id) && !DeletedAlong(ls, id)
    ensures var s := Run(c, Init(c), ls);
      && s.store.jobs[id].lastError == LastMessage(s.log, id)
      && s.store.jobs[id].lastHttpCode == LastCode(s.log, id)
  {
    ErrorsOnRecord(c, ls, id);
    SinceStart(c, Init(c), ls, id, 0);
    var s := Run(c, Init(c), ls);
    assert s.log[0..] == s.log;
  }
}
