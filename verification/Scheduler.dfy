/** internal/scheduler/scheduler.go: one poll as sequential code over the store. */
module Schedulers {
  import opened Jobs
  import opened StoreModel
  import opened DueIndex
  import opened RedisStores
  import opened Executors
  import Binary64
  import Codec
  import Protocol
  import opened Runs

  /** The ZREMs of a poll that take effect, in order. */
  function PollOps(ids: seq<Id>, nets: seq<Net>): seq<Op>
    requires |ids| <= |nets|
  {
    if ids == [] then []
    else PollOps(ids[..|ids| - 1], nets) + Effects(nets[|ids| - 1], Unschedule(ids[|ids| - 1]))
  }

  /** The IDs a poll dispatches: those whose ZREM reported no error. */
  function Passed(ids: seq<Id>, nets: seq<Net>): seq<Id>
    requires |ids| <= |nets|
  {
    if ids == [] then []
    else Passed(ids[..|ids| - 1], nets) + (if nets[|ids| - 1].Ok() then [ids[|ids| - 1]] else [])
  }

  /** What a poll has done to the store and the dispatcher after handling `ids`. */
  datatype Trace = Trace(db: Db, calls: seq<Op>, dispatched: seq<Id>)

  ghost predicate Polled(text: Codec.TextCodec, before: Trace, now: Trace, ids: seq<Id>, nets: seq<Net>)
    requires |ids| <= |nets|
  {
    && now.db == ExecDbAll(text, before.db, PollOps(ids, nets))
    && now.calls == before.calls + PollOps(ids, nets)
    && now.dispatched == before.dispatched + Passed(ids, nets)
  }

  lemma PolledNext(text: Codec.TextCodec, before: Trace, now: Trace, next: Trace, ids: seq<Id>, nets: seq<Net>, k: nat)
    requires k < |ids| <= |nets| && Polled(text, before, now, ids[..k], nets)
    requires next.db == ExecDbAll(text, now.db, Effects(nets[k], Unschedule(ids[k])))
    requires next.calls == now.calls + Effects(nets[k], Unschedule(ids[k]))
    requires next.dispatched == now.dispatched + (if nets[k].Ok() then [ids[k]] else [])
    ensures Polled(text, before, next, ids[..k + 1], nets)
  {
    assert ids[..k + 1][..k] == ids[..k];
    ExecDbAllConcat(text, before.db, PollOps(ids[..k], nets), Effects(nets[k], Unschedule(ids[k])));
  }

  class Scheduler {
    const store: RedisStore
    const batch: nat
    var dispatched: seq<Id>  // the calls of the dispatcher, in order

    constructor (store: RedisStore, batch: nat)
      ensures this.store == store && this.batch == batch && dispatched == []
    {
      this.store, this.batch, dispatched := store, batch, [];
    }

    /** Fetches a batch of due IDs; takes each off the schedule and dispatches it, or skips it if that fails. */
    method Poll(nowMs: int, fetch: Net, nets: seq<Net>)
      requires batch <= |nets|
      modifies this`dispatched, store
      ensures var ids := if fetch.Ok() then Range(old(store.schedule), Binary64.OfInt(nowMs), batch) else [];
        && dispatched == old(dispatched) + Passed(ids, nets)
        && store.calls == old(store.calls) + PollOps(ids, nets)
        && store.Contents() == ExecDbAll(store.text, old(store.Contents()), PollOps(ids, nets))
    {
      var fetched := store.GetDueJobs(nowMs, batch, fetch);
      if fetched.None? || fetched.value == [] {
        return;
      }
      ClaimAndDispatch(fetched.value, nets);
    }

    /** The loop of a poll. */
    method ClaimAndDispatch(ids: seq<Id>, nets: seq<Net>)
      requires |ids| <= |nets|
      modifies this`dispatched, store
      ensures dispatched == old(dispatched) + Passed(ids, nets)
      ensures store.calls == old(store.calls) + PollOps(ids, nets)
      ensures store.Contents() == ExecDbAll(store.text, old(store.Contents()), PollOps(ids, nets))
    {
      ghost var before := Trace(store.Contents(), store.calls, dispatched);
      for k := 0 to |ids|
        invariant Polled(store.text, before, Trace(store.Contents(), store.calls, dispatched), ids[..k], nets)
      {
        ghost var now := Trace(store.Contents(), store.calls, dispatched);
        var removed := store.RemoveFromSchedule(ids[k], nets[k]);
        if removed {
          dispatched := dispatched + [ids[k]];
        }
        PolledNext(store.text, before, now, Trace(store.Contents(), store.calls, dispatched), ids, nets, k);
      }
      assert ids[..|ids|] == ids;
    }
  }

  lemma {:induction false} RemoveAllConcat(z: seq<Entry>, a: seq<Id>, b: seq<Id>)
    ensures RemoveAll(z, a + b) == RemoveAll(RemoveAll(z, a), b)
    decreases |a|
  {
    if a == [] {
      assert a + b == b;
    } else {
      RemoveAllConcat(Remove(z, a[0]), a[1..], b);
      assert (a + b)[1..] == a[1..] + b;
    }
  }

  /** A poll without faults dispatches what it fetched, in order, and removes just that from the schedule. */
  lemma {:induction false} FaultlessPoll(text: Codec.TextCodec, db: Db, ids: seq<Id>, nets: seq<Net>)
    requires |ids| <= |nets| && forall k | 0 <= k < |nets| :: nets[k].Done?
    ensures Passed(ids, nets) == ids
    ensures ExecDbAll(text, db, PollOps(ids, nets)) == Db(db.hashes, RemoveAll(db.schedule, ids))
  {
    if ids != [] {
      var n := |ids| - 1;
      FaultlessPoll(text, db, ids[..n], nets);
      ExecDbAllConcat(text, db, PollOps(ids[..n], nets), [Unschedule(ids[n])]);
      RemoveAllConcat(db.schedule, ids[..n], [ids[n]]);
      assert ids[..n] + [ids[n]] == ids;
      assert [ids[n]][1..] == [];
      assert [Unschedule(ids[n])][1..] == [];
    }
  }

  /** Whatever ZREMs fail, an ID whose removal reports an error is not dispatched by this poll, and one that is
      dispatched has left the schedule. */
  lemma {:induction false} PassedIff(ids: seq<Id>, nets: seq<Net>, k: nat)
    requires |ids| <= |nets| && k < |ids| && forall i, j | 0 <= i < j < |ids| :: ids[i] != ids[j]
    ensures ids[k] in Passed(ids, nets) <==> nets[k].Ok()
    ensures ids[k] in Passed(ids, nets) ==> Unschedule(ids[k]) in PollOps(ids, nets)
  {
    var n := |ids| - 1;
    PassedOnly(ids[..n], nets);
    if k < n {
      PassedIff(ids[..n], nets, k);
    }
  }

  lemma {:induction false} PassedOnly(ids: seq<Id>, nets: seq<Net>)
    requires |ids| <= |nets|
    ensures forall id | id in Passed(ids, nets) :: id in ids
  {
    if ids != [] {
      PassedOnly(ids[..|ids| - 1], nets);
    }
  }

  // ----- the poll and the protocol

  /** The scheduler's labels in the loop of a poll. */
  function PollLabels(ids: seq<Id>, nets: seq<Net>): seq<Protocol.Label>
    requires |ids| <= |nets|
  {
    if ids == [] then []
    else StepLabels(nets[0]) + PollLabels(ids[1..], nets[1..])
  }

  function StepLabels(net: Net): seq<Protocol.Label> {
    [Protocol.Claim(net)] + (if net.Ok() then [Protocol.Enqueue] else [])
  }

  lemma {:induction false} PollFirst(ids: seq<Id>, nets: seq<Net>)
    requires 0 < |ids| <= |nets|
    ensures PollOps(ids, nets) == Effects(nets[0], Unschedule(ids[0])) + PollOps(ids[1..], nets[1..])
    ensures Passed(ids, nets) == (if nets[0].Ok() then [ids[0]] else []) + Passed(ids[1..], nets[1..])
  {
    var n := |ids| - 1;
    if n > 0 {
      PollFirst(ids[..n], nets);
      assert ids[..n][1..] == ids[1..][..n - 1];
    }
  }

  lemma TwoLabels(c: Protocol.Config, s: Protocol.State, l: Protocol.Label, m: Protocol.Label, ls: seq<Protocol.Label>)
    requires Protocol.Enabled(c, s, l) && Protocol.Enabled(c, Protocol.Apply(c, s, l), m)
    requires Protocol.Valid(c, Protocol.Apply(c, Protocol.Apply(c, s, l), m), ls)
    ensures var u := Protocol.Apply(c, s, l);
      var t := Protocol.Apply(c, u, m);
      && Protocol.Valid(c, s, [l] + ([m] + ls))
      && Protocol.Run(c, s, [l] + ([m] + ls)) == Protocol.Run(c, t, ls)
      && OpsAlong(c, s, [l] + ([m] + ls)) ==
         OpList(Protocol.OpOf(c, s, l)) + (OpList(Protocol.OpOf(c, u, m)) + OpsAlong(c, t, ls))
  {
    RunCons(c, Protocol.Apply(c, s, l), m, ls);
    RunCons(c, s, l, [m] + ls);
  }

  lemma QueuedRound(c: Protocol.Config, s: Protocol.State, id: Id, rest: seq<Id>, ls: seq<Protocol.Label>)
    returns (t: Protocol.State)
    requires s.sched == Protocol.Draining([id] + rest) && |s.queue| < c.QueueCapacity()
    ensures t.sched == Protocol.Draining(rest) && t.queue == s.queue + [id] && t.workers == s.workers
    ensures Protocol.Valid(c, t, ls) ==>
              && Protocol.Valid(c, s, StepLabels(Done) + ls)
              && Protocol.Run(c, s, StepLabels(Done) + ls) == Protocol.Run(c, t, ls)
              && OpsAlong(c, s, StepLabels(Done) + ls) == [Unschedule(id)] + OpsAlong(c, t, ls)
  {
    assert ([id] + rest)[1..] == rest;
    var u := Protocol.Apply(c, s, Protocol.Claim(Done));
    t := Protocol.Apply(c, u, Protocol.Enqueue);
    if Protocol.Valid(c, t, ls) {
      TwoLabels(c, s, Protocol.Claim(Done), Protocol.Enqueue, ls);
    }
    assert StepLabels(Done) + ls == [Protocol.Claim(Done)] + ([Protocol.Enqueue] + ls);
  }

  /** One round of the loop: the scheduler is at the rest of its batch, and the ID is in the queue if its ZREM went
      well; and so the run goes on. */
  lemma RoundFollows(c: Protocol.Config, s: Protocol.State, id: Id, rest: seq<Id>, net: Net, ls: seq<Protocol.Label>)
    returns (t: Protocol.State)
    requires s.sched == Protocol.Draining([id] + rest) && |s.queue| < c.QueueCapacity()
    ensures t.sched == Protocol.Draining(rest) && t.queue == s.queue + (if net.Ok() then [id] else [])
        && t.workers == s.workers
    ensures Protocol.Valid(c, t, ls) ==>
              && Protocol.Valid(c, s, StepLabels(net) + ls)
              && Protocol.Run(c, s, StepLabels(net) + ls) == Protocol.Run(c, t, ls)
              && OpsAlong(c, s, StepLabels(net) + ls) == Effects(net, Unschedule(id)) + OpsAlong(c, t, ls)
  {
    assert ([id] + rest)[1..] == rest;
    t := Protocol.Apply(c, s, Protocol.Claim(net));
    if net.Ok() {
      t := QueuedRound(c, s, id, rest, ls);
    } else if Protocol.Valid(c, t, ls) {
      RunCons(c, s, Protocol.Claim(net), ls);
      assert StepLabels(net) + ls == [Protocol.Claim(net)] + ls;
    }
  }

  /** As long as the queue has room, the poll makes the store calls of the protocol's scheduler, in their order, and
      puts into the queue what it dispatches. The labels are those of the loop, round by round. */
  lemma {:induction false} PollFollowsProtocol(c: Protocol.Config, s: Protocol.State, ids: seq<Id>, nets: seq<Net>)
    returns (ls: seq<Protocol.Label>)
    requires s.sched == Protocol.Draining(ids) && |ids| <= |nets| && |s.queue| + |ids| <= c.QueueCapacity()
    ensures ls == PollLabels(ids, nets) && Protocol.Valid(c, s, ls)
    ensures OpsAlong(c, s, ls) == PollOps(ids, nets)
    ensures var t := Protocol.Run(c, s, ls);
      t.queue == s.queue + Passed(ids, nets) && t.sched == Protocol.Draining([]) && t.workers == s.workers
    decreases |ids|
  {
    if ids == [] {
      ls := [];
    } else {
      assert ids == [ids[0]] + ids[1..];
      var t := RoundFollows(c, s, ids[0], ids[1..], nets[0], PollLabels(ids[1..], nets[1..]));
      var rest := PollFollowsProtocol(c, t, ids[1..], nets[1..]);
      ls := StepLabels(nets[0]) + rest;
      PollFirst(ids, nets);
      Regroup(s.queue, if nets[0].Ok() then [ids[0]] else [], Passed(ids[1..], nets[1..]), t.queue, Passed(ids, nets));
    }
  }

  lemma Regroup(q: seq<Id>, first: seq<Id>, rest: seq<Id>, next: seq<Id>, whole: seq<Id>)
    requires next == q + first && whole == first + rest
    ensures next + rest == q + whole
  {
  }
}
