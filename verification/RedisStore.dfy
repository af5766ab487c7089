/** internal/store/redis.go: jobs as hashes of text and the schedule as a sorted set. */
module RedisStores {
  import opened Jobs
  import opened StoreModel
  import opened Codec
  import opened DueIndex
  import Binary64

  datatype Db = Db(hashes: map<Id, Fields>, schedule: seq<Entry>)

  /** The hash of an ID; an absent one is empty. */
  function HashOf(hashes: map<Id, Fields>, id: Id): Fields {
    if id in hashes then hashes[id] else map[]
  }

  /** HSET: the written fields replace the old ones, the others stay. */
  function HSet(hashes: map<Id, Fields>, id: Id, data: Fields): map<Id, Fields> {
    hashes[id := HashOf(hashes, id) + data]
  }

  /** The Redis commands of a store call, taken as one step. */
  function ExecDb(text: TextCodec, db: Db, op: Op): Db {
    match op
    case Create(job) =>
      Db(HSet(db.hashes, job.id, Encoded(text, job)), Add(db.schedule, job.id, Binary64.OfInt(job.dueAtMs)))
    case Put(job) => db.(hashes := HSet(db.hashes, job.id, Encoded(text, job)))
    case Drop(id) => Db(db.hashes - {id}, Remove(db.schedule, id))
    case Schedule(id, dueAtMs) => db.(schedule := Add(db.schedule, id, Binary64.OfInt(dueAtMs)))
    case Unschedule(id) => db.(schedule := Remove(db.schedule, id))
  }

  function ExecDbAll(text: TextCodec, db: Db, ops: seq<Op>): Db
    decreases |ops|
  {
    if ops == [] then db else ExecDbAll(text, ExecDb(text, db, ops[0]), ops[1..])
  }

  /** What GetJob answers. */
  datatype Loaded = NotFound | Unavailable | Corrupt(field: Field) | Found(job: Job)

  function Lookup(text: TextCodec, db: Db, id: Id, net: Net): Loaded {
    if !net.Ok() then Unavailable
    else if id !in db.hashes || db.hashes[id] == map[] then NotFound
    else
      match Decoded(text, db.hashes[id])
      case Invalid(field) => Corrupt(field)
      case Ok(job) => Found(job)
  }

  function Effects(net: Net, op: Op): seq<Op> {
    if net.Effect() then [op] else []
  }

  lemma AddRepresentsAll(z: seq<Entry>, id: Id, score: int)
    ensures forall due | Represents(z, due) :: Represents(Add(z, id, score), due[id := score])
  {
    forall due | Represents(z, due)
      ensures Represents(Add(z, id, score), due[id := score])
    {
      AddRepresents(z, due, id, score);
    }
  }

  lemma RemoveRepresentsAll(z: seq<Entry>, id: Id)
    ensures forall due | Represents(z, due) :: Represents(Remove(z, id), due - {id})
  {
    forall due | Represents(z, due)
      ensures Represents(Remove(z, id), due - {id})
    {
      RemoveRepresents(z, due, id);
    }
  }

  class RedisStore {
    const text: TextCodec
    var hashes: map<Id, Fields>
    var schedule: seq<Entry>
    ghost var calls: seq<Op>  // the calls that took effect, in order

    constructor (text: TextCodec)
      ensures this.text == text && Contents() == Db(map[], []) && calls == []
    {
      this.text := text;
      hashes, schedule := map[], [];
      calls := [];
    }

    function Contents(): Db
      reads this
    {
      Db(hashes, schedule)
    }

    method CreateJob(job: Job, net: Net) returns (ok: bool)
      modifies this
      ensures ok == net.Ok()
      ensures !net.Undone? ==>
                && hashes == old(hashes)[job.id := HashOf(old(hashes), job.id) + Encoded(text, job)]
                && forall due | Represents(old(schedule), due) ::
                     Represents(schedule, due[job.id := Binary64.OfInt(job.dueAtMs)])
      ensures net.Undone? ==> hashes == old(hashes) && schedule == old(schedule)
      ensures Contents() == ExecDbAll(text, old(Contents()), Effects(net, Create(job)))
      ensures calls == old(calls) + Effects(net, Create(job))
    {
      var data := SerializeJob(text, job);
      if net.Effect() {
        hashes := HSet(hashes, job.id, data);
        AddRepresentsAll(schedule, job.id, Binary64.OfInt(job.dueAtMs));
        schedule := Add(schedule, job.id, Binary64.OfInt(job.dueAtMs));
        calls := calls + [Create(job)];
      }
      ok := net.Ok();
    }

    method GetJob(id: Id, net: Net) returns (r: Loaded)
      ensures r.Unavailable? <==> !net.Done?
      ensures r.NotFound? <==> net.Done? && (id !in hashes || hashes[id] == map[])
      ensures r.Found? ==> Decoded(text, hashes[id]) == Ok(r.job)
      ensures r.Corrupt? ==> Decoded(text, hashes[id]) == Invalid(r.field)
      ensures r == Lookup(text, Contents(), id, net)
    {
      if !net.Ok() {
        return Unavailable;
      }
      var data := if id in hashes then hashes[id] else map[];
      if data == map[] {
        return NotFound;
      }
      var job := DeserializeJob(text, data);
      match job {
        case Ok(j) => r := Found(j);
        case Invalid(field) => r := Corrupt(field);
      }
    }

    method UpdateJob(job: Job, net: Net) returns (ok: bool)
      modifies this
      ensures ok == net.Ok()
      ensures hashes == if net.Undone? then old(hashes)
                        else old(hashes)[job.id := HashOf(old(hashes), job.id) + Encoded(text, job)]
      ensures schedule == old(schedule)
      ensures Contents() == ExecDbAll(text, old(Contents()), Effects(net, Put(job)))
      ensures calls == old(calls) + Effects(net, Put(job))
    {
      var data := SerializeJob(text, job);
      if net.Effect() {
        hashes := HSet(hashes, job.id, data);
        calls := calls + [Put(job)];
      }
      ok := net.Ok();
    }

    method DeleteJob(id: Id, net: Net) returns (ok: bool)
      modifies this
      ensures ok == net.Ok()
      ensures !net.Undone? ==>
                && hashes == old(hashes) - {id}
                && forall due | Represents(old(schedule), due) :: Represents(schedule, due - {id})
      ensures net.Undone? ==> hashes == old(hashes) && schedule == old(schedule)
      ensures Contents() == ExecDbAll(text, old(Contents()), Effects(net, Drop(id)))
      ensures calls == old(calls) + Effects(net, Drop(id))
    {
      if net.Effect() {
        hashes := hashes - {id};
        RemoveRepresentsAll(schedule, id);
        schedule := Remove(schedule, id);
        calls := calls + [Drop(id)];
      }
      ok := net.Ok();
    }

    /** Answers, for whatever scores the schedule stands for, with the members due at `nowMs`, in order and up to a
        limit. */
    method GetDueJobs(nowMs: int, limit: nat, net: Net) returns (r: Option<seq<Id>>)
      ensures r.Some? <==> net.Ok()
      ensures r.Some? ==> forall due | Represents(schedule, due) ::
          IsDueBatch(due, Binary64.OfInt(nowMs), limit, r.value)
      ensures r.Some? ==> r.value == Range(schedule, Binary64.OfInt(nowMs), limit)
    {
      if !net.Ok() {
        return None;
      }
      forall due | Represents(schedule, due)
        ensures IsDueBatch(due, Binary64.OfInt(nowMs), limit, Range(schedule, Binary64.OfInt(nowMs), limit))
      {
        RangeIsDueBatch(schedule, due, Binary64.OfInt(nowMs), limit);
      }
      r := Some(Range(schedule, Binary64.OfInt(nowMs), limit));
    }

    method RemoveFromSchedule(id: Id, net: Net) returns (ok: bool)
      modifies this
      ensures ok == net.Ok()
      ensures hashes == old(hashes)
      ensures if net.Undone? then schedule == old(schedule)
              else forall due | Represents(old(schedule), due) :: Represents(schedule, due - {id})
      ensures Contents() == ExecDbAll(text, old(Contents()), Effects(net, Unschedule(id)))
      ensures calls == old(calls) + Effects(net, Unschedule(id))
    {
      if net.Effect() {
        RemoveRepresentsAll(schedule, id);
        schedule := Remove(schedule, id);
        calls := calls + [Unschedule(id)];
      }
      ok := net.Ok();
    }

    method AddToSchedule(id: Id, dueAtMs: int, net: Net) returns (ok: bool)
      modifies this
      ensures ok == net.Ok()
      ensures hashes == old(hashes)
      ensures if net.Undone? then schedule == old(schedule)
              else forall due | Represents(old(schedule), due) ::
                     Represents(schedule, due[id := Binary64.OfInt(dueAtMs)])
      ensures Contents() == ExecDbAll(text, old(Contents()), Effects(net, Schedule(id, dueAtMs)))
      ensures calls == old(calls) + Effects(net, Schedule(id, dueAtMs))
    {
      if net.Effect() {
        AddRepresentsAll(schedule, id, Binary64.OfInt(dueAtMs));
        schedule := Add(schedule, id, Binary64.OfInt(dueAtMs));
        calls := calls + [Schedule(id, dueAtMs)];
      }
      ok := net.Ok();
    }
  }

  // ----- the text store simulates the map of jobs

  ghost predicate HashReads(text: TextCodec, h: Fields, j: Job) {
    h != map[] && Decoded(text, h) == Ok(j)
  }

  /** Every hash reads back as the job of the map, and the sorted set holds the scores of the map. */
  ghost predicate Agrees(text: TextCodec, db: Db, st: Store) {
    && db.hashes.Keys == st.jobs.Keys
    && (forall id | id in st.jobs :: HashReads(text, db.hashes[id], st.jobs[id]))
    && Represents(db.schedule, st.due)
  }

  predicate OpStorable(op: Op) {
    (op.Create? || op.Put?) ==> Storable(op.job)
  }

  lemma HSetReads(text: TextCodec, h: Fields, j: Job)
    requires text.Faithful() && Storable(j)
    ensures h + Encoded(text, j) != map[]
    ensures h == map[] ==> Decoded(text, h + Encoded(text, j)) == Ok(j)
    ensures Decoded(text, h).Ok? ==> Decoded(text, h + Encoded(text, j)) == Ok(Overlay(Decoded(text, h).value, j))
  {
    assert IdField in Encoded(text, j);
    assert IdField in h + Encoded(text, j);
    if h == map[] {
      assert h + Encoded(text, j) == Encoded(text, j);
      FreshReads(text, j);
    }
    if Decoded(text, h).Ok? {
      OverlayReads(text, h, Decoded(text, h).value, j);
    }
  }

  lemma WriteAgrees(text: TextCodec, db: Db, st: Store, job: Job)
    requires text.Faithful() && Agrees(text, db, st) && Storable(job)
    ensures Agrees(text, db.(hashes := HSet(db.hashes, job.id, Encoded(text, job))), st.(jobs := Write(st.jobs, job)))
  {
    WrittenReadsBack(text, db, st, job);
    var hashes, jobs := HSet(db.hashes, job.id, Encoded(text, job)), Write(st.jobs, job);
    forall id | id in jobs
      ensures HashReads(text, hashes[id], jobs[id])
    {
      if id != job.id { assert HashReads(text, db.hashes[id], st.jobs[id]); }
    }
  }

  lemma WrittenReadsBack(text: TextCodec, db: Db, st: Store, job: Job)
    requires text.Faithful() && Agrees(text, db, st) && Storable(job)
    ensures HashReads(text, HSet(db.hashes, job.id, Encoded(text, job))[job.id], Write(st.jobs, job)[job.id])
  {
    var before := if job.id in db.hashes then db.hashes[job.id] else map[];
    assert job.id in st.jobs ==> HashReads(text, before, st.jobs[job.id]);
    HSetReads(text, before, job);
  }

  /** One store call, on text and on jobs. */
  lemma ExecAgrees(text: TextCodec, db: Db, st: Store, op: Op)
    requires text.Faithful() && Agrees(text, db, st) && OpStorable(op)
    ensures Agrees(text, ExecDb(text, db, op), Exec(st, op))
  {
    match op
    case Create(job) =>
      WriteAgrees(text, db, st, job);
      AddRepresents(db.schedule, st.due, job.id, Binary64.OfInt(job.dueAtMs));
    case Put(job) => WriteAgrees(text, db, st, job);
    case Drop(id) => RemoveRepresents(db.schedule, st.due, id);
    case Schedule(id, dueAtMs) => AddRepresents(db.schedule, st.due, id, Binary64.OfInt(dueAtMs));
    case Unschedule(id) => RemoveRepresents(db.schedule, st.due, id);
  }

  /** Under agreement GetJob finds exactly the stored jobs, and a poll's answer is the one the map calls for. */
  lemma AgreeingReads(text: TextCodec, db: Db, st: Store, id: Id, max: int, limit: nat, ids: seq<Id>)
    requires Agrees(text, db, st)
    ensures Lookup(text, db, id, Done) == if id in st.jobs then Found(st.jobs[id]) else NotFound
    ensures IsDueBatch(st.due, max, limit, ids) <==> ids == Range(db.schedule, max, limit)
  {
    if id in st.jobs {
      assert HashReads(text, db.hashes[id], st.jobs[id]);
    }
    RangeIsDueBatch(db.schedule, st.due, max, limit);
    if IsDueBatch(st.due, max, limit, ids) {
      DueBatchUnique(st.due, max, limit, ids, Range(db.schedule, max, limit));
    }
  }
}
