/** How a shutdown can get stuck: exactly when, and that it happens. */
module Shutdown {
  import opened Jobs
  import opened Lifecycle
  import opened StoreModel
  import opened Protocol
  import opened Claims
  import opened Limits
  import opened Safety
  import opened Liveness
  import opened Runs
  import opened Losses
  import opened Pool
  import Binary64

  // ----- the workers leave

  /** After the signal the workers can all leave without taking anything from the queue, their store calls refused. */
  lemma {:induction false} CanExit(c: Config, s: State) returns (ls: seq<Label>)
    requires Inv(c, s) && c.Valid() && s.phase != Serving
    ensures Valid(c, s, ls) && AllHeed(c, s, ls) && CrashFree(ls)
    ensures var t := Run(c, s, ls);
      && (forall i | 0 <= i < |t.workers| :: t.workers[i].Exited?)
      && t.queue == s.queue && t.sched == s.sched && t.phase == s.phase
    decreases PoolRank(s.workers)
  {
    if i :| 0 <= i < |s.workers| && !s.workers[i].Exited? {
      var l := LeavingStep(c, s, i);
      var rest := CanExit(c, Apply(c, s, l));
      ls := [l] + rest;
      RunCons(c, s, l, rest);
      HeedCons(c, s, l, rest);
    } else {
      ls := [];
    }
  }

  /** One action on the way out. */
  lemma LeavingStep(c: Config, s: State, i: nat) returns (l: Label)
    requires Inv(c, s) && c.Valid() && s.phase != Serving && i < |s.workers| && !s.workers[i].Exited?
    ensures Enabled(c, s, l) && Inv(c, Apply(c, s, l)) && OnTheWayOut(c, s, l)
  {
    if s.workers[i].Idle? {
      l := Work(i, Quit);
      IdleLeaves(c, s, i);
    } else {
      var j := SomebodyGoes(c, s, i);
      l := Work(j, NextAct(s.workers[j], Undone));
      BusyLeaves(c, s, j);
    }
    InvStep(c, s, l);
  }

  ghost predicate OnTheWayOut(c: Config, s: State, l: Label)
    requires Enabled(c, s, l)
  {
    var t := Apply(c, s, l);
    && Heeds(s, l) && !l.Crash?
    && PoolRank(t.workers) < PoolRank(s.workers)
    && t.queue == s.queue && t.sched == s.sched && t.phase == s.phase
  }

  lemma IdleLeaves(c: Config, s: State, i: nat)
    requires s.phase != Serving && i < |s.workers| && s.workers[i].Idle?
    ensures Enabled(c, s, Work(i, Quit)) && OnTheWayOut(c, s, Work(i, Quit))
  {
    PoolRankUpdate(s.workers, i, Exited);
  }

  lemma BusyLeaves(c: Config, s: State, j: nat)
    requires CanGo(c, s, j)
    ensures var l := Work(j, NextAct(s.workers[j], Undone)); Enabled(c, s, l) && OnTheWayOut(c, s, l)
  {
    NextLowersRank(c, s, j, Undone);
  }

  // ----- calls refused after the signal

  /** Before the scheduler can be stuck it must already be waiting on a full queue. */
  ghost predicate Clear(c: Config, s: State) {
    s.phase != Serving && !(s.sched.Handing? && |s.queue| >= c.QueueCapacity())
  }

  lemma {:induction false} StaysClear(c: Config, s: State, ls: seq<Label>)
    requires Valid(c, s, ls) && AllHeed(c, s, ls) && CrashFree(ls) && Clear(c, s)
    ensures Clear(c, Run(c, s, ls))
    decreases |ls|
  {
    if ls != [] {
      ClearStep(c, s, ls[0]);
      assert forall k | 0 <= k < |ls| - 1 :: ls[1..][k] == ls[k + 1];
      StaysClear(c, Apply(c, s, ls[0]), ls[1..]);
    }
  }

  lemma ClearStep(c: Config, s: State, l: Label)
    requires Enabled(c, s, l) && Heeds(s, l) && !l.Crash? && Clear(c, s)
    ensures Clear(c, Apply(c, s, l))
  {
  }

  /** From every reachable state in which the scheduler waits on a full queue, the signal can lead to the stuck state:
      the workers leave on the cancelled context without making room. */
  lemma SignalStrands(c: Config, s: State) returns (ls: seq<Label>)
    requires Reachable(c, s) && c.Valid() && s.phase == Serving && s.sched.Handing? && |s.queue| == c.QueueCapacity()
    ensures var u := Apply(c, s, Cancel);
      Valid(c, u, ls) && AllHeed(c, u, ls) && CrashFree(ls) && Stuck(c, Run(c, u, ls))
    ensures Valid(c, s, [Cancel] + ls) && Run(c, s, [Cancel] + ls) == Run(c, Apply(c, s, Cancel), ls)
  {
    ReachableInv(c, s);
    var u := Apply(c, s, Cancel);
    InvStep(c, s, Cancel);
    ls := StopFirst(c, u);
    RunCons(c, s, Cancel, ls);
  }

  lemma StopFirst(c: Config, u: State) returns (ls: seq<Label>)
    requires Inv(c, u) && c.Valid() && u.phase == Stopping && u.sched.Handing? && |u.queue| == c.QueueCapacity()
    ensures Valid(c, u, ls) && AllHeed(c, u, ls) && CrashFree(ls) && Stuck(c, Run(c, u, ls))
  {
    InvStep(c, u, Advance);
    var rest := CanExit(c, Apply(c, u, Advance));
    RunCons(c, u, Advance, rest);
    HeedCons(c, u, Advance, rest);
    ls := [Advance] + rest;
  }

  /** As the signal comes, a shutdown that gets stuck is possible exactly if the scheduler waits on a full queue. */
  lemma StrandIff(c: Config, s: State)
    requires Reachable(c, s) && c.Valid() && s.phase == Serving
    ensures var u := Apply(c, s, Cancel);
      (exists ls :: Valid(c, u, ls) && AllHeed(c, u, ls) && CrashFree(ls) && Stuck(c, Run(c, u, ls)))
      <==> s.sched.Handing? && |s.queue| == 2 * c.maxInflight
  {
    ReachableInv(c, s);
    if s.sched.Handing? && |s.queue| == c.QueueCapacity() {
      var ls := SignalStrands(c, s);
    } else {
      var u := Apply(c, s, Cancel);
      forall ls | Valid(c, u, ls) && AllHeed(c, u, ls) && CrashFree(ls)
        ensures !Stuck(c, Run(c, u, ls))
      {
        StaysClear(c, u, ls);
      }
    }
  }

  // ----- calls under way at the signal may still succeed

  /** The IDs that are queued or that the scheduler may still queue. */
  function Outstanding(s: State): nat {
    |s.queue| + One(s.sched.Handing?) + |Tail(s.sched)|
  }

  lemma OutstandingStep(c: Config, s: State, l: Label)
    requires Enabled(c, s, l) && !l.Crash? && s.phase != Serving
    ensures Outstanding(Apply(c, s, l)) <= Outstanding(s) && Apply(c, s, l).phase != Serving
  {
  }

  lemma {:induction false} OutstandingRun(c: Config, s: State, ls: seq<Label>)
    requires Valid(c, s, ls) && CrashFree(ls) && s.phase != Serving
    ensures Outstanding(Run(c, s, ls)) <= Outstanding(s)
    decreases |ls|
  {
    if ls != [] {
      OutstandingStep(c, s, ls[0]);
      assert forall k | 0 <= k < |ls| - 1 :: ls[1..][k] == ls[k + 1];
      OutstandingRun(c, Apply(c, s, ls[0]), ls[1..]);
    }
  }

  /** With the workers gone, a load beyond the queue's capacity leaves the scheduler waiting. */
  lemma {:induction false} Overflows(c: Config, s: State) returns (ls: seq<Label>)
    requires s.phase == AwaitingScheduler && (forall i | 0 <= i < |s.workers| :: s.workers[i].Exited?)
    requires Outstanding(s) > c.QueueCapacity() >= |s.queue|
    ensures Valid(c, s, ls) && CrashFree(ls) && Stuck(c, Run(c, s, ls))
    decreases SchedulerRank(s.sched)
  {
    if Stuck(c, s) {
      ls := [];
    } else {
      var l := if s.sched.Handing? then Enqueue else Claim(Done);
      var rest := Overflows(c, Apply(c, s, l));
      RunCons(c, s, l, rest);
      ls := [l] + rest;
    }
  }

  lemma ExitAndOverflow(c: Config, s: State) returns (ls: seq<Label>)
    requires Inv(c, s) && c.Valid() && s.phase == AwaitingScheduler && Outstanding(s) > c.QueueCapacity()
    ensures Valid(c, s, ls) && CrashFree(ls) && Stuck(c, Run(c, s, ls))
  {
    var exits := CanExit(c, s);
    var rest := Overflows(c, Run(c, s, exits));
    RunConcat(c, s, exits, rest);
    ls := exits + rest;
  }

  lemma OverloadStrands(c: Config, u: State) returns (ls: seq<Label>)
    requires Inv(c, u) && c.Valid() && u.phase == Stopping && Outstanding(u) > c.QueueCapacity()
    ensures Valid(c, u, ls) && CrashFree(ls) && Stuck(c, Run(c, u, ls))
  {
    InvStep(c, u, Advance);
    var rest := ExitAndOverflow(c, Apply(c, u, Advance));
    RunCons(c, u, Advance, rest);
    ls := [Advance] + rest;
  }

  /** Even if every store call under way at the signal still goes through, the shutdown gets stuck in no run unless more
      IDs are queued, in hand and in the batch than the queue can hold; and then it does in some run. */
  lemma OverloadStrandsIff(c: Config, s: State)
    requires Reachable(c, s) && c.Valid() && s.phase == Serving
    ensures var u := Apply(c, s, Cancel);
      (exists ls :: Valid(c, u, ls) && CrashFree(ls) && Stuck(c, Run(c, u, ls)))
      <==> |s.queue| + |Tail(s.sched)| + (if s.sched.Handing? then 1 else 0) > 2 * c.maxInflight
  {
    ReachableInv(c, s);
    var u := Apply(c, s, Cancel);
    if Outstanding(s) > c.QueueCapacity() {
      InvStep(c, s, Cancel);
      var ls := OverloadStrands(c, u);
    } else {
      forall ls | Valid(c, u, ls) && CrashFree(ls)
        ensures !Stuck(c, Run(c, u, ls))
      {
        OutstandingRun(c, u, ls);
      }
    }
  }

  // ----- it happens

  const THREE_IDS: seq<Id> := ["a", "b", "c"]

  lemma ThreeDue(due: map<Id, int>, limit: nat)
    requires due == map["a" := 0, "b" := 0, "c" := 0] && 3 <= limit
    ensures IsDueBatch(due, 0, limit, THREE_IDS)
  {
    assert IdLess("a", "b") && IdLess("b", "c") && IdLess("a", "c");
  }

  lemma CreateThree(c: Config) returns (s: State, ls: seq<Label>)
    ensures Valid(c, Init(c), ls) && Run(c, Init(c), ls) == s
    ensures s.store.due == map["a" := 0, "b" := 0, "c" := 0]
    ensures s.sched == Polling && s.queue == [] && s.phase == Serving
  {
    assert "a" != "b" && "b" != "c" && "a" != "c" by {
      assert "a"[0] != "b"[0] && "b"[0] != "c"[0] && "a"[0] != "c"[0];
    }
    Binary64.OfIntExact(0);
    var s0 := Init(c);
    var a, b, d := ApiCreate(DueJob("a"), Done), ApiCreate(DueJob("b"), Done), ApiCreate(DueJob("c"), Done);
    var s1 := Apply(c, s0, a);
    var s2 := Apply(c, s1, b);
    s := Apply(c, s2, d);
    RunCons(c, s2, d, []);
    RunCons(c, s1, b, [d]);
    RunCons(c, s0, a, [b] + [d]);
    ls := [a] + ([b] + [d]);
  }

  /** The scheduler takes the next ID off the schedule and puts it into the queue. */
  lemma HandOver(c: Config, s: State) returns (t: State, ls: seq<Label>)
    requires s.sched.Draining? && s.sched.tail != [] && |s.queue| < c.QueueCapacity()
    ensures Valid(c, s, ls) && Run(c, s, ls) == t
    ensures t.phase == s.phase && t.sched == Draining(s.sched.tail[1..]) && t.queue == s.queue + [s.sched.tail[0]]
  {
    var s1 := Apply(c, s, Claim(Done));
    t := Apply(c, s1, Enqueue);
    RunCons(c, s1, Enqueue, []);
    ls := [Claim(Done)] + [Enqueue];
    RunCons(c, s, Claim(Done), [Enqueue]);
  }

  lemma FillQueue(c: Config, s: State) returns (t: State, ls: seq<Label>)
    requires c.Valid() && c.maxInflight == 1 && 3 <= c.batch
    requires s.store.due == map["a" := 0, "b" := 0, "c" := 0] && s.sched == Polling && s.queue == []
        && s.phase == Serving
    ensures Valid(c, s, ls) && Run(c, s, ls) == t
    ensures t.phase == Serving && t.sched.Handing? && |t.queue| == c.QueueCapacity()
  {
    Binary64.OfIntExact(0);
    ThreeDue(s.store.due, c.batch);
    var f := Fetch(0, THREE_IDS);
    var s1 := Apply(c, s, f);
    RunCons(c, s, f, []);
    var s2, first := HandOver(c, s1);
    RunConcat(c, s, [f], first);
    var s3, second := HandOver(c, s2);
    RunConcat(c, s, [f] + first, second);
    t := Apply(c, s3, Claim(Done));
    RunCons(c, s3, Claim(Done), []);
    ls := [f] + first + second + [Claim(Done)];
    RunConcat(c, s, [f] + first + second, [Claim(Done)]);
  }

  /** The stuck shutdown does happen: three due jobs, one worker and one signal are enough. */
  lemma StrandingHappens(c: Config) returns (s: State)
    requires c.Valid() && c.maxInflight == 1 && 3 <= c.batch
    ensures Reachable(c, s) && Stuck(c, s)
  {
    var s1, created := CreateThree(c);
    var s2, filled := FillQueue(c, s1);
    RunConcat(c, Init(c), created, filled);
    assert Reachable(c, s2);
    var stranded := SignalStrands(c, s2);
    s := Run(c, s2, [Cancel] + stranded);
    RunConcat(c, Init(c), created + filled, [Cancel] + stranded);
  }
}
