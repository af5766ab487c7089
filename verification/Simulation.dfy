/**
 In every run of the protocol, the text store reads back as the map of jobs the protocol speaks of, and on every field
 that decides behaviour as a plain map.
 */
module Simulation {
  import opened Jobs
  import opened Lifecycle
  import opened StoreModel
  import opened Protocol
  import opened Records
  import opened RecordsProofs
  import opened Safety
  import opened Codec
  import opened DueIndex
  import opened RedisStores
  import opened Runs
  import opened Executors
  import Binary64

  const EMPTY_DB := Db(map[], [])

  lemma OpsAreStorable(c: Config, s: State, l: Label)
    requires Inv(c, s) && Enabled(c, s, l)
    ensures OpOf(c, s, l).Some? ==> OpStorable(OpOf(c, s, l).value)
  {
    if l.Work? {
      assert WorkerOk(c, BooksOf(s), s.workers[l.i]);
    }
  }

  lemma DbAlong(c: Config, text: TextCodec, s: State, db: Db, l: Label, ls: seq<Label>)
    requires Enabled(c, s, l) && Valid(c, Apply(c, s, l), ls)
    ensures ExecDbAll(text, db, OpList(OpOf(c, s, l)) + OpsAlong(c, Apply(c, s, l), ls)) ==
            ExecDbAll(text, ExecDbAll(text, db, OpList(OpOf(c, s, l))), OpsAlong(c, Apply(c, s, l), ls))
  {
    ExecDbAllConcat(text, db, OpList(OpOf(c, s, l)), OpsAlong(c, Apply(c, s, l), ls));
  }

  /** The store calls along a run, made on the text store, keep it in agreement with the map of jobs. */
  lemma {:induction false} CallsAgree(c: Config, text: TextCodec, s: State, db: Db, ls: seq<Label>)
    requires text.Faithful() && Inv(c, s) && Valid(c, s, ls) && Agrees(text, db, s.store)
    ensures Agrees(text, ExecDbAll(text, db, OpsAlong(c, s, ls)), Run(c, s, ls).store)
    decreases |ls|
  {
    if ls != [] {
      var l := ls[0];
      InvStep(c, s, l);
      OneCallAgrees(c, text, s, db, l);
      DbAlong(c, text, s, db, l, ls[1..]);
      CallsAgree(c, text, Apply(c, s, l), ExecDbAll(text, db, OpList(OpOf(c, s, l))), ls[1..]);
    }
  }

  lemma OneCallAgrees(c: Config, text: TextCodec, s: State, db: Db, l: Label)
    requires text.Faithful() && Inv(c, s) && Enabled(c, s, l) && Agrees(text, db, s.store)
    ensures Agrees(text, ExecDbAll(text, db, OpList(OpOf(c, s, l))), Apply(c, s, l).store)
  {
    OpsAreStorable(c, s, l);
    match OpOf(c, s, l)
    case None =>
    case Some(op) =>
      ExecAgrees(text, db, s.store, op);
      assert [op][1..] == [];
  }

  // ----- a plain map, which replaces what it is given

  function PlainExec(jobs: map<Id, Job>, op: Op): map<Id, Job> {
    match op
    case Create(job) => jobs[job.id := job]
    case Put(job) => jobs[job.id := job]
    case Drop(id) => jobs - {id}
    case _ => jobs
  }

  function PlainAll(jobs: map<Id, Job>, ops: seq<Op>): map<Id, Job>
    decreases |ops|
  {
    if ops == [] then jobs else PlainAll(PlainExec(jobs, ops[0]), ops[1..])
  }

  /** The same jobs, up to the record of the last error. */
  ghost predicate SameCores(jobs: map<Id, Job>, plain: map<Id, Job>) {
    jobs.Keys == plain.Keys && forall id | id in jobs :: Core(jobs[id]) == Core(plain[id])
  }

  /** No store call of a run finds a stored job whose fixed part differs from what it writes. */
  lemma WritesKeepFixed(c: Config, s: State, l: Label)
    requires Inv(c, s) && Enabled(c, s, l) && OpOf(c, s, l).Some?
    ensures var op := OpOf(c, s, l).value;
      (op.Create? || op.Put?) && op.job.id in s.store.jobs ==> SameFixed(s.store.jobs[op.job.id], op.job)
  {
    if l.ApiCreate? {
      Unborn(c, s, l.job.id);
    } else if l.Work? && l.act.Save? {
      var w := s.workers[l.i];
      assert WorkerOk(c, BooksOf(s), w);
      if w.job.id in s.store.jobs {
        assert StoredOk(BooksOf(s), w.job.id);
        assert SameFixed(Core(w.job), s.born[w.job.id]);
      }
    }
  }

  lemma PlainStep(jobs: map<Id, Job>, plain: map<Id, Job>, due: map<Id, int>, op: Op)
    requires SameCores(jobs, plain)
    requires (op.Create? || op.Put?) && op.job.id in jobs ==> SameFixed(jobs[op.job.id], op.job)
    ensures SameCores(Exec(Store(jobs, due), op).jobs, PlainExec(plain, op))
  {
    if (op.Create? || op.Put?) && op.job.id in jobs {
      OverlaySameFixed(jobs[op.job.id], op.job);
    }
  }

  lemma PlainLabel(c: Config, s: State, plain: map<Id, Job>, l: Label)
    requires Inv(c, s) && Enabled(c, s, l) && SameCores(s.store.jobs, plain)
    ensures SameCores(Apply(c, s, l).store.jobs, PlainAll(plain, OpList(OpOf(c, s, l))))
  {
    match OpOf(c, s, l)
    case None =>
    case Some(op) =>
      WritesKeepFixed(c, s, l);
      PlainStep(s.store.jobs, plain, s.store.due, op);
      assert [op][1..] == [];
  }

  lemma PlainCons(plain: map<Id, Job>, op: Option<Op>, rest: seq<Op>)
    ensures PlainAll(plain, OpList(op) + rest) == PlainAll(PlainAll(plain, OpList(op)), rest)
  {
    match op
    case None => assert [] + rest == rest;
    case Some(o) => assert [o][1..] == [] && ([o] + rest)[1..] == rest;
  }

  lemma {:induction false} PlainAlong(c: Config, s: State, plain: map<Id, Job>, ls: seq<Label>)
    requires Inv(c, s) && Valid(c, s, ls) && SameCores(s.store.jobs, plain)
    ensures SameCores(Run(c, s, ls).store.jobs, PlainAll(plain, OpsAlong(c, s, ls)))
    decreases |ls|
  {
    if ls != [] {
      var op := OpOf(c, s, ls[0]);
      InvStep(c, s, ls[0]);
      PlainLabel(c, s, plain, ls[0]);
      PlainAlong(c, Apply(c, s, ls[0]), PlainAll(plain, OpList(op)), ls[1..]);
      PlainCons(plain, op, OpsAlong(c, Apply(c, s, ls[0]), ls[1..]));
    }
  }

  /** After any run, faults, crashes and deletions included, reading any ID from the text store under HSET gives the
      job that a plain map, whose writes replace, has for it, on every field but the record of the last error. */
  lemma PlainSimulation(c: Config, text: TextCodec, ls: seq<Label>, id: Id)
    requires text.Faithful() && Valid(c, Init(c), ls)
    ensures var ops := OpsAlong(c, Init(c), ls);
      var read, plain := Lookup(text, ExecDbAll(text, EMPTY_DB, ops), id, Done), PlainAll(map[], ops);
      && (read.Found? <==> id in plain) && (read.NotFound? <==> id !in plain)
      && (read.Found? ==> Core(read.job) == Core(plain[id]))
  {
    InvInit(c);
    PlainAlong(c, Init(c), map[], ls);
    StoreSimulation(c, text, ls, id, 0, []);
  }

  /** After any run, faults and crashes included, reading any ID from the text store gives the job the protocol has
      for it, record of the last error and all, and a poll fetches what the protocol says it fetches. */
  lemma StoreSimulation(c: Config, text: TextCodec, ls: seq<Label>, id: Id, nowMs: int, ids: seq<Id>)
    requires text.Faithful() && Valid(c, Init(c), ls)
    ensures var db, st := ExecDbAll(text, EMPTY_DB, OpsAlong(c, Init(c), ls)), Run(c, Init(c), ls).store;
      && Lookup(text, db, id, Done) == (if id in st.jobs then Found(st.jobs[id]) else NotFound)
      && (IsDueBatch(st.due, Binary64.OfInt(nowMs), c.batch, ids)
          <==> ids == Range(db.schedule, Binary64.OfInt(nowMs), c.batch))
  {
    InvInit(c);
    CallsAgree(c, text, Init(c), EMPTY_DB, ls);
    AgreeingReads(text, ExecDbAll(text, EMPTY_DB, OpsAlong(c, Init(c), ls)), Run(c, Init(c), ls).store, id,
                  Binary64.OfInt(nowMs), c.batch, ids);
  }

  /** While the clock is below 2^53 milliseconds, a poll fetches no stored job before its due time, and it leaves out a
      job whose time has come only for a full batch of earlier ones. */
  lemma PollsAreTimely(c: Config, s: State, nowMs: int, ids: seq<Id>, id: Id)
    requires Reachable(c, s) && Enabled(c, s, Fetch(nowMs, ids))
    requires -9007199254740992 <= nowMs < 9007199254740992
    requires id in s.store.jobs && id in s.store.due
    ensures id in ids ==> s.store.jobs[id].dueAtMs <= nowMs
    ensures s.store.jobs[id].dueAtMs <= nowMs && id !in ids ==> |ids| == c.batch
  {
    ReachableInv(c, s);
    IndexAgreement(c, s, id);
    assert StoredOk(BooksOf(s), id);
    ScoresExact(nowMs, s.store.jobs[id].dueAtMs);
  }
}
