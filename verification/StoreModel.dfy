/** The store as its callers see it: a map of jobs and a map of scores. */
module StoreModel {
  import opened Jobs
  import Binary64

  /** How a store call goes: it succeeds; it takes effect but its reply is lost; it fails without effect. */
  datatype Net = Done | Unheard | Undone {
    predicate Effect() { !Undone? }
    predicate Ok() { Done? }
  }

  datatype Op =
    | Create(job: Job)
    | Put(job: Job)
    | Drop(id: Id)
    | Schedule(id: Id, dueAtMs: int)
    | Unschedule(id: Id)

  datatype Store = Store(jobs: map<Id, Job>, due: map<Id, int>)

  const EmptyStore := Store(map[], map[])

  /** What HSET leaves when `written` is put over `before`: a field the serializer omits keeps its old value. */
  function Overlay(before: Job, written: Job): Job {
    written.(
      intervalMs := if written.intervalMs > 0 then written.intervalMs else before.intervalMs,
      headers := if written.headers.Some? then written.headers else before.headers,
      body := if written.body.Some? then written.body else before.body,
      lastError := if written.lastError != "" then written.lastError else before.lastError,
      lastHttpCode := if written.lastHttpCode != 0 then written.lastHttpCode else before.lastHttpCode)
  }

  function Write(jobs: map<Id, Job>, job: Job): map<Id, Job> {
    jobs[job.id := if job.id in jobs then Overlay(jobs[job.id], job) else job]
  }

  function Exec(st: Store, op: Op): Store {
    match op
    case Create(job) => Store(Write(st.jobs, job), st.due[job.id := Binary64.OfInt(job.dueAtMs)])
    case Put(job) => st.(jobs := Write(st.jobs, job))
    case Drop(id) => Store(st.jobs - {id}, st.due - {id})
    case Schedule(id, dueAtMs) => st.(due := st.due[id := Binary64.OfInt(dueAtMs)])
    case Unschedule(id) => st.(due := st.due - {id})
  }

  /** Between jobs with the same fixed part, only the record of the last error is overlaid. */
  lemma OverlaySameFixed(before: Job, written: Job)
    requires SameFixed(before, written)
    ensures Core(Overlay(before, written)) == Core(written)
    ensures SameFixed(Overlay(before, written), written)
  {
  }

  /** `ids` lists, in (score, id) order, the first `limit` members whose score is at most `max`. */
  ghost predicate IsDueBatch(due: map<Id, int>, max: int, limit: nat, ids: seq<Id>) {
    && (forall k | 0 <= k < |ids| :: ids[k] in due && due[ids[k]] <= max)
    && (forall j, k | 0 <= j < k < |ids| :: Before(due, ids[j], ids[k]))
    && |ids| <= limit
    && (forall id | id in due && due[id] <= max && id !in ids ::
          |ids| == limit && forall k | 0 <= k < |ids| :: Before(due, ids[k], id))
  }

  predicate Before(due: map<Id, int>, a: Id, b: Id)
    requires a in due && b in due
  {
    due[a] < due[b] || (due[a] == due[b] && IdLess(a, b))
  }

  /** The byte-wise order Redis gives to members with equal scores. */
  predicate IdLess(a: Id, b: Id) {
    b != "" && (a == "" || a[0] < b[0] || (a[0] == b[0] && IdLess(a[1..], b[1..])))
  }

  /** At place k, the first at which they differ, `a` has the smaller character. */
  predicate SmallerAt(a: Id, b: Id, k: nat) {
    k < |a| && k < |b| && a[..k] == b[..k] && a[k] < b[k]
  }

  lemma NextPlace(a: Id, b: Id, k: nat)
    requires a != "" && b != "" && a[0] == b[0]
    ensures SmallerAt(a[1..], b[1..], k) <==> SmallerAt(a, b, k + 1)
  {
    var c, d := a[1..], b[1..];
    if k < |c| && k < |d| {
      assert a[..k + 1] == [a[0]] + c[..k] && b[..k + 1] == [b[0]] + d[..k];
      assert a[..k + 1][1..] == c[..k] && b[..k + 1][1..] == d[..k];
    }
  }

  lemma LaterPlace(a: Id, b: Id, k: nat)
    requires SmallerAt(a, b, k) && k > 0
    ensures a[0] == b[0]
  {
    assert a[..k][0] == b[..k][0];
  }

  predicate ProperPrefix(a: Id, b: Id) {
    |a| < |b| && b[..|a|] == a
  }

  lemma PrefixRest(a: Id, b: Id)
    requires a != "" && b != ""
    ensures ProperPrefix(a, b) <==> a[0] == b[0] && ProperPrefix(a[1..], b[1..])
  {
    if |a| < |b| {
      assert b[..|a|] == [b[0]] + b[1..][..|a| - 1] && a == [a[0]] + a[1..];
    }
  }

  /** The order is that of the characters: one ID comes before another if it is a proper prefix of it or has the smaller
      character at the first place where they differ. */
  lemma {:induction false} IdLessMeans(a: Id, b: Id)
    ensures IdLess(a, b) <==> ProperPrefix(a, b) || exists k: nat :: SmallerAt(a, b, k)
  {
    if a != "" && b != "" {
      PrefixRest(a, b);
      if a[0] == b[0] {
        IdLessMeans(a[1..], b[1..]);
        if k: nat :| SmallerAt(a, b, k) { NextPlace(a, b, k - 1); }
        if k: nat :| SmallerAt(a[1..], b[1..], k) { NextPlace(a, b, k); }
      } else {
        assert a[0] < b[0] ==> SmallerAt(a, b, 0);
        if k: nat :| SmallerAt(a, b, k) {
          if k > 0 { LaterPlace(a, b, k); }
        }
      }
    }
  }

  lemma {:induction false} IdLessTotal(a: Id, b: Id)
    ensures !IdLess(a, a)
    ensures IdLess(a, b) || a == b || IdLess(b, a)
  {
    if a != "" {
      if b == "" {
        IdLessTotal(a[1..], b);
      } else {
        IdLessTotal(a[1..], b[1..]);
        assert a == [a[0]] + a[1..] && b == [b[0]] + b[1..];
      }
    }
  }

  lemma {:induction false} IdLessTransitive(a: Id, b: Id, c: Id)
    requires IdLess(a, b) && IdLess(b, c)
    ensures IdLess(a, c)
  {
    if a != "" && a[0] == b[0] == c[0] {
      IdLessTransitive(a[1..], b[1..], c[1..]);
    }
  }
}
