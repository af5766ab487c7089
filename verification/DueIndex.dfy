/**
 The schedule as Redis keeps it: a sequence of (score, member) entries in order. The module relates it to the
 plain map of scores, and the answers on float64 scores to the due times they stand for.
 */
module DueIndex {
  import opened Jobs
  import opened StoreModel
  import opened Binary64

  datatype Entry = Entry(score: int, id: Id)

  predicate Less(a: Entry, b: Entry) {
    a.score < b.score || (a.score == b.score && IdLess(a.id, b.id))
  }

  lemma LessTotal(a: Entry, b: Entry)
    ensures !Less(a, a)
    ensures Less(a, b) || a == b || Less(b, a)
  {
    IdLessTotal(a.id, b.id);
  }

  lemma LessTransitive(a: Entry, b: Entry, e: Entry)
    requires Less(a, b) && Less(b, e)
    ensures Less(a, e)
  {
    if a.score == b.score == e.score {
      IdLessTransitive(a.id, b.id, e.id);
    }
  }

  ghost predicate Sorted(z: seq<Entry>) {
    forall j, k | 0 <= j < k < |z| :: Less(z[j], z[k])
  }

  /** The entries are the pairs of the map, in order. */
  ghost predicate Represents(z: seq<Entry>, due: map<Id, int>) {
    && Sorted(z)
    && (forall k | 0 <= k < |z| :: z[k].id in due && due[z[k].id] == z[k].score)
    && (forall id | id in due :: Entry(due[id], id) in z)
  }

  // ----- ZREM, ZADD, ZRANGEBYSCORE

  function Remove(z: seq<Entry>, id: Id): seq<Entry> {
    if z == [] then []
    else if z[0].id == id then Remove(z[1..], id)
    else [z[0]] + Remove(z[1..], id)
  }

  function Insert(z: seq<Entry>, e: Entry): seq<Entry> {
    if z == [] || Less(e, z[0]) then [e] + z else [z[0]] + Insert(z[1..], e)
  }

  function Add(z: seq<Entry>, id: Id, score: int): seq<Entry> {
    Insert(Remove(z, id), Entry(score, id))
  }

  /** The number of leading entries with a score up to `max`. */
  function Within(z: seq<Entry>, max: int): (n: nat)
    ensures n <= |z|
  {
    if z == [] || z[0].score > max then 0 else 1 + Within(z[1..], max)
  }

  function Ids(z: seq<Entry>): (ids: seq<Id>)
    ensures |ids| == |z|
  {
    seq(|z|, i requires 0 <= i < |z| => z[i].id)
  }

  function Range(z: seq<Entry>, max: int, limit: nat): seq<Id> {
    Ids(z[..Min(limit, Within(z, max))])
  }

  // ----- the map view

  lemma {:induction false} RemoveIn(z: seq<Entry>, id: Id, e: Entry)
    ensures e in Remove(z, id) <==> e in z && e.id != id
  {
    if z != [] {
      RemoveIn(z[1..], id, e);
      assert z == [z[0]] + z[1..];
    }
  }

  lemma {:induction false} RemoveSorted(z: seq<Entry>, id: Id)
    requires Sorted(z)
    ensures Sorted(Remove(z, id))
  {
    if z != [] {
      RemoveSorted(z[1..], id);
      var rest := Remove(z[1..], id);
      forall k | 0 <= k < |rest|
        ensures Less(z[0], rest[k])
      {
        RemoveIn(z[1..], id, rest[k]);
        var j :| 0 <= j < |z| - 1 && z[1..][j] == rest[k];
        assert z[j + 1] == rest[k];
      }
    }
  }

  lemma {:induction false} InsertIn(z: seq<Entry>, e: Entry, x: Entry)
    ensures x in Insert(z, e) <==> x in z || x == e
  {
    if z != [] && !Less(e, z[0]) {
      InsertIn(z[1..], e, x);
      assert z == [z[0]] + z[1..];
    }
  }

  lemma {:induction false} InsertSorted(z: seq<Entry>, e: Entry)
    requires Sorted(z) && e !in z
    ensures Sorted(Insert(z, e))
  {
    if z != [] {
      if Less(e, z[0]) {
        forall k | 0 <= k < |z|
          ensures Less(e, z[k])
        {
          if k > 0 { LessTransitive(e, z[0], z[k]); }
        }
      } else {
        InsertSorted(z[1..], e);
        LessTotal(e, z[0]);
        var rest := Insert(z[1..], e);
        forall k | 0 <= k < |rest|
          ensures Less(z[0], rest[k])
        {
          InsertIn(z[1..], e, rest[k]);
          if rest[k] != e {
            var j :| 0 <= j < |z| - 1 && z[1..][j] == rest[k];
            assert z[j + 1] == rest[k];
          }
        }
      }
    }
  }

  /** ZREM on the sequence is removal from the map. */
  lemma RemoveRepresents(z: seq<Entry>, due: map<Id, int>, id: Id)
    requires Represents(z, due)
    ensures Represents(Remove(z, id), due - {id})
  {
    RemoveSorted(z, id);
    var r := Remove(z, id);
    forall k | 0 <= k < |r|
      ensures r[k].id in due - {id} && (due - {id})[r[k].id] == r[k].score
    {
      RemoveIn(z, id, r[k]);
    }
    forall x | x in due - {id}
      ensures Entry((due - {id})[x], x) in r
    {
      RemoveIn(z, id, Entry(due[x], x));
    }
  }

  /** ZADD on the sequence is update of the map. */
  lemma AddRepresents(z: seq<Entry>, due: map<Id, int>, id: Id, score: int)
    requires Represents(z, due)
    ensures Represents(Add(z, id, score), due[id := score])
  {
    var e, r := Entry(score, id), Remove(z, id);
    RemoveRepresents(z, due, id);
    RemoveIn(z, id, e);
    InsertSorted(r, e);
    var a, due' := Add(z, id, score), due[id := score];
    forall k | 0 <= k < |a|
      ensures a[k].id in due' && due'[a[k].id] == a[k].score
    {
      InsertIn(r, e, a[k]);
    }
    forall x | x in due'
      ensures Entry(due'[x], x) in a
    {
      if x != id { assert x in due - {id}; }
      InsertIn(r, e, Entry(due'[x], x));
    }
  }

  // ----- the answers

  lemma {:induction false} WithinExact(z: seq<Entry>, max: int)
    requires Sorted(z)
    ensures forall k | 0 <= k < |z| :: z[k].score <= max <==> k < Within(z, max)
  {
    if z != [] {
      if z[0].score <= max {
        WithinExact(z[1..], max);
        forall k | 0 <= k < |z|
          ensures z[k].score <= max <==> k < Within(z, max)
        {
          if k > 0 { assert z[k] == z[1..][k - 1]; }
        }
      } else {
        assert forall k | 0 < k < |z| :: Less(z[0], z[k]);
      }
    }
  }

  lemma RangeAt(z: seq<Entry>, max: int, limit: nat)
    requires Sorted(z)
    ensures var ids := Range(z, max, limit);
      && |ids| == Min(limit, Within(z, max)) <= |z|
      && forall k | 0 <= k < |ids| :: ids[k] == z[k].id && z[k].score <= max
  {
    WithinExact(z, max);
  }

  /** ZRANGEBYSCORE answers with the first `limit` due members in order: it is the plain filter, sorted and cut. */
  lemma RangeIsDueBatch(z: seq<Entry>, due: map<Id, int>, max: int, limit: nat)
    requires Represents(z, due)
    ensures IsDueBatch(due, max, limit, Range(z, max, limit))
  {
    RangeAt(z, max, limit);
    var ids := Range(z, max, limit);
    forall j, k | 0 <= j < k < |ids|
      ensures Before(due, ids[j], ids[k])
    {
      assert Less(z[j], z[k]);
    }
    forall id | id in due && due[id] <= max && id !in ids
      ensures |ids| == limit && forall k | 0 <= k < |ids| :: Before(due, ids[k], id)
    {
      BeyondRange(z, due, max, limit, id);
    }
  }

  lemma BeyondRange(z: seq<Entry>, due: map<Id, int>, max: int, limit: nat, id: Id)
    requires Represents(z, due) && id in due && due[id] <= max && id !in Range(z, max, limit)
    ensures var ids := Range(z, max, limit);
      |ids| == limit && forall k | 0 <= k < |ids| :: ids[k] in due && Before(due, ids[k], id)
  {
    WithinExact(z, max);
    RangeAt(z, max, limit);
    var ids := Range(z, max, limit);
    var m :| 0 <= m < |z| && z[m] == Entry(due[id], id);
    assert z[m].score <= max;
    forall k | 0 <= k < |ids|
      ensures z[k].id != id
    {
      assert ids[k] in ids;
    }
    forall k | 0 <= k < |ids|
      ensures ids[k] in due && Before(due, ids[k], id)
    {
      assert Less(z[k], z[m]);
    }
  }

  lemma BeforeAsymmetric(due: map<Id, int>, a: Id, b: Id)
    requires a in due && b in due && Before(due, a, b)
    ensures !Before(due, b, a) && a != b
  {
    LessTotal(Entry(due[a], a), Entry(due[a], a));
    if Before(due, b, a) {
      LessTransitive(Entry(due[a], a), Entry(due[b], b), Entry(due[a], a));
    }
  }

  lemma {:induction false} DueBatchPrefix(due: map<Id, int>, max: int, limit: nat, a: seq<Id>, b: seq<Id>, n: nat)
    requires IsDueBatch(due, max, limit, a) && IsDueBatch(due, max, limit, b) && n <= |a| && n <= |b|
    ensures a[..n] == b[..n]
  {
    if n > 0 {
      DueBatchPrefix(due, max, limit, a, b, n - 1);
      DueBatchNext(due, max, limit, a, b, n - 1);
      assert a[..n] == a[..n - 1] + [a[n - 1]] && b[..n] == b[..n - 1] + [b[n - 1]];
    }
  }

  /** Two answers that agree up to a point agree at that point. */
  lemma DueBatchNext(due: map<Id, int>, max: int, limit: nat, a: seq<Id>, b: seq<Id>, k: nat)
    requires IsDueBatch(due, max, limit, a) && IsDueBatch(due, max, limit, b) && k < |a| && k < |b| && a[..k] == b[..k]
    ensures a[k] == b[k]
  {
    NotAhead(due, max, limit, a, b, k);
    NotAhead(due, max, limit, b, a, k);
    LessTotal(Entry(due[a[k]], a[k]), Entry(due[b[k]], b[k]));
  }

  lemma NotAhead(due: map<Id, int>, max: int, limit: nat, a: seq<Id>, b: seq<Id>, k: nat)
    requires IsDueBatch(due, max, limit, a) && IsDueBatch(due, max, limit, b) && k < |a| && k < |b| && a[..k] == b[..k]
    ensures !Before(due, a[k], b[k])
  {
    if Before(due, a[k], b[k]) {
      BeforeAsymmetric(due, a[k], b[k]);
      if a[k] in b {
        var m :| 0 <= m < |b| && b[m] == a[k];
        if m < k {
          assert a[..k][m] == b[..k][m];
          BeforeAsymmetric(due, a[m], a[k]);
        }
      }
    }
  }

  /** The specification of the answer leaves no choice. */
  lemma DueBatchUnique(due: map<Id, int>, max: int, limit: nat, a: seq<Id>, b: seq<Id>)
    requires IsDueBatch(due, max, limit, a) && IsDueBatch(due, max, limit, b)
    ensures a == b
  {
    NotLonger(due, max, limit, a, b);
    NotLonger(due, max, limit, b, a);
    DueBatchPrefix(due, max, limit, a, b, |a|);
  }

  lemma LaterNotBefore(due: map<Id, int>, b: seq<Id>, n: nat)
    requires n < |b| && forall k | 0 <= k < |b| :: b[k] in due
    requires forall j, k | 0 <= j < k < |b| :: Before(due, b[j], b[k])
    ensures b[n] !in b[..n]
  {
    forall m | 0 <= m < n
      ensures b[..n][m] != b[n]
    {
      BeforeAsymmetric(due, b[m], b[n]);
    }
  }

  lemma NotLonger(due: map<Id, int>, max: int, limit: nat, a: seq<Id>, b: seq<Id>)
    requires IsDueBatch(due, max, limit, a) && IsDueBatch(due, max, limit, b)
    ensures |a| >= |b|
  {
    if |a| < |b| {
      LaterNotBefore(due, b, |a|);
      DueBatchPrefix(due, max, limit, a, b, |a|);
    }
  }

  // ----- due times as float64

  /** Comparing float64 scores with the float64 of the current time answers every int64 due time correctly exactly
      when the next millisecond is a larger float64. */
  lemma ScoresExactIff(now: int)
    requires Int64(now) && now < INT64_MAX
    ensures (forall due | Int64(due) :: OfInt(due) <= OfInt(now) <==> due <= now) <==> OfInt(now) < OfInt(now + 1)
  {
    OfIntMonotone(now, now + 1);
    if OfInt(now) < OfInt(now + 1) {
      forall due | Int64(due)
        ensures OfInt(due) <= OfInt(now) <==> due <= now
      {
        if due <= now { OfIntMonotone(due, now); } else { OfIntMonotone(now + 1, due); }
      }
    }
  }

  /** So no answer is wrong while the clock is below 2^53 milliseconds. */
  lemma ScoresExact(now: int, due: int)
    requires Int64(due) && -9007199254740992 <= now < 9007199254740992
    ensures OfInt(due) <= OfInt(now) <==> due <= now
  {
    OfIntExact(now);
    OfIntExact(now + 1);
    if due <= now { OfIntMonotone(due, now); } else { OfIntMonotone(now + 1, due); }
  }

  /** At 2^53 itself an answer is wrong: a job due one millisecond later is answered as due. */
  lemma ScoresInexactAtTwo53()
    ensures OfInt(9007199254740993) == OfInt(9007199254740992) == 9007199254740992
  {
    assert Ulp((TWO_53 + 1) / 2) == 1;
    assert Ulp(TWO_53 + 1) == 2;
    OfIntExact(TWO_53);
  }

  // ----- working off a backlog

  function RemoveAll(z: seq<Entry>, ids: seq<Id>): seq<Entry>
    decreases |ids|
  {
    if ids == [] then z else RemoveAll(Remove(z, ids[0]), ids[1..])
  }

  ghost predicate DistinctIds(z: seq<Entry>) {
    forall j, k | 0 <= j < k < |z| :: z[j].id != z[k].id
  }

  lemma RepresentsDistinct(z: seq<Entry>, due: map<Id, int>)
    requires Represents(z, due)
    ensures DistinctIds(z)
  {
    forall j, k | 0 <= j < k < |z|
      ensures z[j].id != z[k].id
    {
      LessTotal(z[j], z[j]);
      assert Less(z[j], z[k]);
    }
  }

  /** Without its first member, the schedule is what follows in the order. */
  lemma RepresentsRest(z: seq<Entry>, due: map<Id, int>)
    requires Represents(z, due) && z != []
    ensures Represents(z[1..], due - {z[0].id})
  {
    RepresentsDistinct(z, due);
    forall id | id in due - {z[0].id}
      ensures Entry(due[id], id) in z[1..]
    {
      assert Entry(due[id], id) in z;
      var k :| 0 <= k < |z| && z[k] == Entry(due[id], id);
      assert z[1..][k - 1] == z[k];
    }
  }
}
