/** Working off a backlog: what successive polls claim, in runs of the protocol. */
module Backlogs {
  import opened Jobs
  import opened StoreModel
  import opened Protocol
  import opened Claims
  import opened Runs
  import opened DueIndex
  import opened Codec
  import opened RedisStores
  import opened Executors
  import opened Simulation
  import Safety
  import Binary64

  // ----- runs with one writer

  /** The clock stands at `nowMs`, each ZREM succeeds, and nothing but a ZREM changes the schedule. The queue may fill,
      workers run, clients read and even a crash may occur in between. */
  ghost predicate Steady(c: Config, s: State, l: Label, nowMs: int) {
    && (l.Fetch? ==> l.nowMs == nowMs)
    && (if l.Claim? then l.net.Done? else StoreAfter(c, s, l).due == s.store.due)
  }

  ghost predicate AllSteady(c: Config, s: State, ls: seq<Label>, nowMs: int)
    requires Valid(c, s, ls)
    decreases |ls|
  {
    ls == [] || (Steady(c, s, ls[0], nowMs) && AllSteady(c, Apply(c, s, ls[0]), ls[1..], nowMs))
  }

  /** The IDs taken off the schedule along a run, in order. */
  ghost function Claimed(c: Config, s: State, ls: seq<Label>): seq<Id>
    requires Valid(c, s, ls)
    decreases |ls|
  {
    if ls == [] then []
    else (if ls[0].Claim? then [s.sched.tail[0]] else []) + Claimed(c, Apply(c, s, ls[0]), ls[1..])
  }

  /** The IDs put into the queue along a run, in order. */
  ghost function Dispatched(c: Config, s: State, ls: seq<Label>): seq<Id>
    requires Valid(c, s, ls)
    decreases |ls|
  {
    if ls == [] then []
    else (if ls[0].Enqueue? then [s.sched.id] else []) + Dispatched(c, Apply(c, s, ls[0]), ls[1..])
  }

  /** The polls begun, and those completed. */
  function Fetches(ls: seq<Label>): nat
    decreases |ls|
  {
    if ls == [] then 0 else (if ls[0].Fetch? then 1 else 0) + Fetches(ls[1..])
  }

  function Polls(ls: seq<Label>): nat
    decreases |ls|
  {
    if ls == [] then 0 else (if ls[0].EndBatch? then 1 else 0) + Polls(ls[1..])
  }

  // ----- what is claimed

  /** `z` is the schedule in order, and the batch in progress is its beginning, all of it due. */
  ghost predicate OnBatch(c: Config, s: State, z: seq<Entry>, max: int) {
    BatchOf(z, s.store.due, Tail(s.sched), c.batch, max)
  }

  ghost predicate BatchOf(z: seq<Entry>, due: map<Id, int>, tail: seq<Id>, batch: nat, max: int) {
    Represents(z, due) && |tail| <= Within(z, max) && |tail| <= batch && tail == Ids(z[..|tail|])
  }

  /** What is left of the schedule after a label. */
  function Rest(l: Label, z: seq<Entry>): seq<Entry> {
    if l.Claim? && z != [] then z[1..] else z
  }

  lemma FetchOnBatch(c: Config, s: State, nowMs: int, ids: seq<Id>, z: seq<Entry>)
    requires Enabled(c, s, Fetch(nowMs, ids)) && Represents(z, s.store.due)
    ensures |ids| == Min(c.batch, Within(z, Binary64.OfInt(nowMs))) && ids == Ids(z[..|ids|])
    ensures OnBatch(c, Apply(c, s, Fetch(nowMs, ids)), z, Binary64.OfInt(nowMs))
  {
    var max := Binary64.OfInt(nowMs);
    RangeIsDueBatch(z, s.store.due, max, c.batch);
    DueBatchUnique(s.store.due, max, c.batch, ids, Range(z, max, c.batch));
  }

  lemma FirstOfBatch(z: seq<Entry>, due: map<Id, int>, tail: seq<Id>, batch: nat, max: int)
    requires BatchOf(z, due, tail, batch, max) && tail != []
    ensures z != [] && tail[0] == z[0].id && Within(z[1..], max) == Within(z, max) - 1
    ensures BatchOf(z[1..], due - {tail[0]}, tail[1..], batch, max)
  {
    RepresentsRest(z, due);
    IdsFirst(z, |tail|);
  }

  lemma ClaimTakesFirst(c: Config, s: State)
    requires Enabled(c, s, Claim(Done))
    ensures Tail(s.sched) == s.sched.tail != []
    ensures var t := Apply(c, s, Claim(Done));
      t.store.due == s.store.due - {s.sched.tail[0]} && Tail(t.sched) == s.sched.tail[1..]
  {
  }

  lemma ClaimOnBatch(c: Config, s: State, z: seq<Entry>, max: int)
    requires Enabled(c, s, Claim(Done)) && OnBatch(c, s, z, max)
    ensures z != [] && s.sched.tail[0] == z[0].id && Within(z[1..], max) == Within(z, max) - 1
    ensures OnBatch(c, Apply(c, s, Claim(Done)), z[1..], max)
  {
    ClaimTakesFirst(c, s);
    FirstOfBatch(z, s.store.due, s.sched.tail, c.batch, max);
  }

  lemma BatchStep(c: Config, s: State, l: Label, z: seq<Entry>, nowMs: int)
    requires Enabled(c, s, l) && Steady(c, s, l, nowMs) && OnBatch(c, s, z, Binary64.OfInt(nowMs))
    ensures OnBatch(c, Apply(c, s, l), Rest(l, z), Binary64.OfInt(nowMs))
  {
    match l
    case Fetch(_, ids) => FetchOnBatch(c, s, nowMs, ids, z);
    case Claim(_) => ClaimOnBatch(c, s, z, Binary64.OfInt(nowMs));
    case _ => TailShortens(c, s, l);
  }

  lemma TailShortens(c: Config, s: State, l: Label)
    requires Enabled(c, s, l) && !l.Fetch? && !l.Claim?
    ensures Tail(Apply(c, s, l).sched) == Tail(s.sched) || Tail(Apply(c, s, l).sched) == []
  {
  }

  lemma IdsFirst(z: seq<Entry>, k: nat)
    requires 0 < k <= |z|
    ensures Ids(z[..k]) == [z[0].id] + Ids(z[1..][..k - 1]) && z[1..][k - 1..] == z[k..]
  {
  }

  lemma {:induction false} ClaimsInOrder(c: Config, s: State, ls: seq<Label>, z: seq<Entry>, nowMs: int)
    requires Valid(c, s, ls) && AllSteady(c, s, ls, nowMs) && OnBatch(c, s, z, Binary64.OfInt(nowMs))
    ensures var k := |Claimed(c, s, ls)|;
      && k <= Within(z, Binary64.OfInt(nowMs)) && Claimed(c, s, ls) == Ids(z[..k])
      && OnBatch(c, Run(c, s, ls), z[k..], Binary64.OfInt(nowMs))
    decreases |ls|
  {
    if ls == [] {
      assert z[0..] == z && Ids(z[..0]) == [];
    } else {
      var l := ls[0];
      BatchStep(c, s, l, z, nowMs);
      ClaimsInOrder(c, Apply(c, s, l), ls[1..], Rest(l, z), nowMs);
      if l.Claim? {
        ClaimOnBatch(c, s, z, Binary64.OfInt(nowMs));
        IdsFirst(z, |Claimed(c, s, ls)|);
      }
    }
  }

  // ----- how many are claimed

  predicate InBatch(d: Scheduler) {
    d.Draining? || d.Handing?
  }

  /** What `polls` completed polls claim at least, of `d` due members, if a batch with `tail` members left is in
      progress. */
  function Goal(busy: bool, tail: nat, d: nat, batch: nat, polls: nat): int {
    if polls == 0 then 0
    else if busy then Min(tail + (polls - 1) * batch, d)
    else Min(polls * batch, d)
  }

  function GoalOf(c: Config, s: State, d: nat, polls: nat): int {
    Goal(InBatch(s.sched), |Tail(s.sched)|, d, c.batch, polls)
  }

  lemma PollBatch(polls: nat, batch: nat)
    ensures (polls + 1) * batch == polls * batch + batch && polls * batch >= 0
  {
  }

  lemma FetchGoal(d: nat, batch: nat, polls: nat)
    ensures Goal(false, 0, d, batch, polls) <= Goal(true, Min(batch, d), d, batch, polls)
  {
    if polls > 0 { PollBatch(polls - 1, batch); }
  }

  lemma DropGoal(tail: nat, d: nat, batch: nat, polls: nat)
    requires tail <= batch
    ensures Goal(true, tail, d, batch, polls) <= Goal(false, 0, d, batch, polls)
  {
    if polls > 0 { PollBatch(polls - 1, batch); }
  }

  /** How the batch in progress changes. */
  lemma BatchMoves(c: Config, s: State, l: Label)
    requires Enabled(c, s, l)
    ensures var t := Apply(c, s, l);
      match l
      case Fetch(_, ids) => !InBatch(s.sched) && InBatch(t.sched) && |Tail(t.sched)| == |ids|
      case Claim(_) => InBatch(s.sched) && InBatch(t.sched) && |Tail(t.sched)| == |Tail(s.sched)| - 1
      case EndBatch => InBatch(s.sched) && Tail(s.sched) == [] && !InBatch(t.sched)
      case Crash => !InBatch(t.sched)
      case _ => InBatch(t.sched) == InBatch(s.sched) && Tail(t.sched) == Tail(s.sched)
    ensures !InBatch(s.sched) ==> Tail(s.sched) == []
  {
  }

  lemma FetchStepGoal(c: Config, s: State, ids: seq<Id>, z: seq<Entry>, nowMs: int, polls: nat)
    requires Enabled(c, s, Fetch(nowMs, ids)) && OnBatch(c, s, z, Binary64.OfInt(nowMs))
    ensures var d := Within(z, Binary64.OfInt(nowMs));
      GoalOf(c, s, d, polls) <= GoalOf(c, Apply(c, s, Fetch(nowMs, ids)), d, polls)
  {
    BatchMoves(c, s, Fetch(nowMs, ids));
    FetchOnBatch(c, s, nowMs, ids, z);
    FetchGoal(Within(z, Binary64.OfInt(nowMs)), c.batch, polls);
  }

  lemma ClaimStepGoal(c: Config, s: State, z: seq<Entry>, max: int, polls: nat)
    requires Enabled(c, s, Claim(Done)) && OnBatch(c, s, z, max)
    ensures z != []
    ensures GoalOf(c, s, Within(z, max), polls) <= 1 + GoalOf(c, Apply(c, s, Claim(Done)), Within(z[1..], max), polls)
  {
    BatchMoves(c, s, Claim(Done));
    ClaimOnBatch(c, s, z, max);
  }

  lemma OtherStepGoal(c: Config, s: State, l: Label, d: nat, polls: nat)
    requires Enabled(c, s, l) && !l.Fetch? && !l.Claim? && |Tail(s.sched)| <= c.batch
    ensures GoalOf(c, s, d, polls + (if l.EndBatch? then 1 else 0)) <= GoalOf(c, Apply(c, s, l), d, polls)
  {
    BatchMoves(c, s, l);
    if l.Crash? && InBatch(s.sched) { DropGoal(|Tail(s.sched)|, d, c.batch, polls); }
  }

  lemma GoalStep(c: Config, s: State, l: Label, z: seq<Entry>, nowMs: int, polls: nat)
    requires Enabled(c, s, l) && Steady(c, s, l, nowMs) && OnBatch(c, s, z, Binary64.OfInt(nowMs))
    ensures var max := Binary64.OfInt(nowMs);
      GoalOf(c, s, Within(z, max), polls + (if l.EndBatch? then 1 else 0))
      <= (if l.Claim? then 1 else 0) + GoalOf(c, Apply(c, s, l), Within(Rest(l, z), max), polls)
  {
    match l
    case Fetch(_, ids) => FetchStepGoal(c, s, ids, z, nowMs, polls);
    case Claim(_) => ClaimStepGoal(c, s, z, Binary64.OfInt(nowMs), polls);
    case _ => OtherStepGoal(c, s, l, Within(z, Binary64.OfInt(nowMs)), polls);
  }

  lemma {:induction false} ClaimsEnough(c: Config, s: State, ls: seq<Label>, z: seq<Entry>, nowMs: int)
    requires Valid(c, s, ls) && AllSteady(c, s, ls, nowMs) && OnBatch(c, s, z, Binary64.OfInt(nowMs))
    ensures GoalOf(c, s, Within(z, Binary64.OfInt(nowMs)), Polls(ls)) <= |Claimed(c, s, ls)|
    decreases |ls|
  {
    if ls != [] {
      BatchStep(c, s, ls[0], z, nowMs);
      GoalStep(c, s, ls[0], z, nowMs, Polls(ls[1..]));
      ClaimsEnough(c, Apply(c, s, ls[0]), ls[1..], Rest(ls[0], z), nowMs);
    }
  }

  lemma {:induction false} ClaimsAtMost(c: Config, s: State, ls: seq<Label>)
    requires Valid(c, s, ls)
    ensures |Claimed(c, s, ls)| <= |Tail(s.sched)| + Fetches(ls) * c.batch
    decreases |ls|
  {
    if ls != [] {
      BatchMoves(c, s, ls[0]);
      ClaimsAtMost(c, Apply(c, s, ls[0]), ls[1..]);
      PollBatch(Fetches(ls[1..]), c.batch);
    }
  }

  // ----- the backlog drains

  /** The scheduler waits for its tick and `z` is the schedule in order. In every run with no other writer the IDs
      claimed are the first due ones, each once and in (score, ID) order: at least a batch for each completed poll,
      until all are claimed, and at most a batch for each poll begun. The rest stays scheduled. */
  lemma BacklogDrains(c: Config, s: State, ls: seq<Label>, z: seq<Entry>, nowMs: int)
    requires s.sched == Polling && Represents(z, s.store.due)
    requires Valid(c, s, ls) && AllSteady(c, s, ls, nowMs)
    ensures var d, n := Within(z, Binary64.OfInt(nowMs)), |Claimed(c, s, ls)|;
      && n <= d && Claimed(c, s, ls) == Ids(z[..n]) && Represents(z[n..], Run(c, s, ls).store.due)
      && Min(Polls(ls) * c.batch, d) <= n <= Fetches(ls) * c.batch
  {
    StartsOnBatch(c, s, z, Binary64.OfInt(nowMs));
    ClaimsInOrder(c, s, ls, z, nowMs);
    ClaimsEnough(c, s, ls, z, nowMs);
    ClaimsAtMost(c, s, ls);
    BatchesGoal(c, s, Within(z, Binary64.OfInt(nowMs)), Polls(ls));
  }

  lemma StartsOnBatch(c: Config, s: State, z: seq<Entry>, max: int)
    requires s.sched == Polling && Represents(z, s.store.due)
    ensures OnBatch(c, s, z, max) && Tail(s.sched) == []
  {
    assert Ids(z[..0]) == [];
  }

  lemma BatchesGoal(c: Config, s: State, d: nat, polls: nat)
    requires s.sched == Polling
    ensures GoalOf(c, s, d, polls) == Min(polls * c.batch, d)
  {
    if polls > 0 { PollBatch(polls - 1, c.batch); }
  }

  lemma EnoughBatches(d: nat, batch: nat, polls: nat)
    requires 0 < batch && polls >= (d + batch - 1) / batch
    ensures polls * batch >= d
  {
    Binary64.DivMod(d + batch - 1, batch);
    Binary64.MulMonotone((d + batch - 1) / batch, polls, batch);
  }

  /** ceil(D / batch) completed polls claim all D due members. */
  lemma EnoughPolls(c: Config, s: State, ls: seq<Label>, z: seq<Entry>, nowMs: int)
    requires s.sched == Polling && Represents(z, s.store.due) && c.Valid()
    requires Valid(c, s, ls) && AllSteady(c, s, ls, nowMs)
    requires Polls(ls) >= (Within(z, Binary64.OfInt(nowMs)) + c.batch - 1) / c.batch
    ensures Claimed(c, s, ls) == Ids(z[..Within(z, Binary64.OfInt(nowMs))])
  {
    BacklogDrains(c, s, ls, z, nowMs);
    EnoughBatches(Within(z, Binary64.OfInt(nowMs)), c.batch, Polls(ls));
  }

  // ----- what is claimed is dispatched

  function HandSeq(d: Scheduler): seq<Id> {
    if d.Handing? then [d.id] else []
  }

  /** Labels after which the ID in the scheduler's hand is not lost to the queue. */
  predicate Delivers(l: Label) {
    !l.Crash? && !l.GiveUp? && (l.Claim? ==> l.net.Done?)
  }

  lemma {:induction false} ClaimedIsDispatched(c: Config, s: State, ls: seq<Label>)
    requires Valid(c, s, ls) && forall k | 0 <= k < |ls| :: Delivers(ls[k])
    ensures HandSeq(s.sched) + Claimed(c, s, ls) == Dispatched(c, s, ls) + HandSeq(Run(c, s, ls).sched)
    decreases |ls|
  {
    if ls != [] {
      assert forall k | 0 <= k < |ls| - 1 :: ls[1..][k] == ls[k + 1];
      assert Delivers(ls[0]);
      ClaimedIsDispatched(c, Apply(c, s, ls[0]), ls[1..]);
      HandMoves(c, s, ls[0]);
      Shift(HandSeq(s.sched), if ls[0].Claim? then [s.sched.tail[0]] else [], HandSeq(Apply(c, s, ls[0]).sched),
            if ls[0].Enqueue? then [s.sched.id] else [], Claimed(c, Apply(c, s, ls[0]), ls[1..]),
            Dispatched(c, Apply(c, s, ls[0]), ls[1..]), HandSeq(Run(c, s, ls).sched));
    }
  }

  lemma HandMoves(c: Config, s: State, l: Label)
    requires Enabled(c, s, l) && Delivers(l)
    ensures HandSeq(s.sched) + (if l.Claim? then [s.sched.tail[0]] else [])
            == (if l.Enqueue? then [s.sched.id] else []) + HandSeq(Apply(c, s, l).sched)
  {
  }

  lemma Shift(hand: seq<Id>, claim: seq<Id>, next: seq<Id>, queued: seq<Id>, later: seq<Id>, more: seq<Id>,
      last: seq<Id>)
    requires hand + claim == queued + next && next + later == more + last
    ensures hand + (claim + later) == (queued + more) + last
  {
    assert hand + (claim + later) == (hand + claim) + later;
    assert (queued + next) + later == queued + (next + later);
  }

  // ----- what is dispatched is begun

  /** The IDs the workers take from the queue along a run, in order. */
  ghost function Begun(c: Config, s: State, ls: seq<Label>): seq<Id>
    requires Valid(c, s, ls)
    decreases |ls|
  {
    if ls == [] then []
    else (if ls[0].Work? && ls[0].act.Take? then [s.queue[0]] else []) + Begun(c, Apply(c, s, ls[0]), ls[1..])
  }

  lemma QueueMoves(c: Config, s: State, l: Label)
    requires Enabled(c, s, l) && !l.Crash?
    ensures s.queue + (if l.Enqueue? then [s.sched.id] else [])
            == (if l.Work? && l.act.Take? then [s.queue[0]] else []) + Apply(c, s, l).queue
  {
  }

  /** The queue is first in, first out: without a crash, what was in it and what is put into it is begun in that order,
      but for what is still in it. */
  lemma {:induction false} QueueIsFifo(c: Config, s: State, ls: seq<Label>)
    requires Valid(c, s, ls) && CrashFree(ls)
    ensures s.queue + Dispatched(c, s, ls) == Begun(c, s, ls) + Run(c, s, ls).queue
    decreases |ls|
  {
    if ls != [] {
      assert forall k | 0 <= k < |ls| - 1 :: ls[1..][k] == ls[k + 1];
      QueueIsFifo(c, Apply(c, s, ls[0]), ls[1..]);
      QueueMoves(c, s, ls[0]);
      Shift(s.queue, if ls[0].Enqueue? then [s.sched.id] else [], Apply(c, s, ls[0]).queue,
            if ls[0].Work? && ls[0].act.Take? then [s.queue[0]] else [], Dispatched(c, Apply(c, s, ls[0]), ls[1..]),
            Begun(c, Apply(c, s, ls[0]), ls[1..]), Run(c, s, ls).queue);
    }
  }

  /** From an empty queue the backlog is begun in (score, ID) order: what is claimed, in order, has been begun, waits in
      the queue, or is in the scheduler's hand. */
  lemma BegunInOrder(c: Config, s: State, ls: seq<Label>, z: seq<Entry>, nowMs: int)
    requires s.sched == Polling && s.queue == [] && Represents(z, s.store.due)
    requires Valid(c, s, ls) && AllSteady(c, s, ls, nowMs) && forall k | 0 <= k < |ls| :: Delivers(ls[k])
    ensures var t, n := Run(c, s, ls), |Claimed(c, s, ls)|;
      n <= |z| && Ids(z[..n]) == Begun(c, s, ls) + t.queue + HandSeq(t.sched)
  {
    BacklogDrains(c, s, ls, z, nowMs);
    ClaimedIsDispatched(c, s, ls);
    QueueIsFifo(c, s, ls);
    assert [] + Claimed(c, s, ls) == Claimed(c, s, ls);
    assert [] + Dispatched(c, s, ls) == Dispatched(c, s, ls);
  }

  /** The schedule of the text store is such a `z`: the backlog found in the store after any run drains as stated. */
  lemma StoredBacklogDrains(c: Config, text: TextCodec, before: seq<Label>, ls: seq<Label>, nowMs: int)
    requires text.Faithful() && Valid(c, Init(c), before)
    requires var s := Run(c, Init(c), before); s.sched == Polling && Valid(c, s, ls) && AllSteady(c, s, ls, nowMs)
    ensures var s, z := Run(c, Init(c), before), ExecDbAll(text, EMPTY_DB, OpsAlong(c, Init(c), before)).schedule;
      var d, n := Within(z, Binary64.OfInt(nowMs)), |Claimed(c, s, ls)|;
      n <= d && Claimed(c, s, ls) == Ids(z[..n]) && Min(Polls(ls) * c.batch, d) <= n <= Fetches(ls) * c.batch
  {
    Safety.InvInit(c);
    CallsAgree(c, text, Init(c), EMPTY_DB, before);
    BacklogDrains(c, Run(c, Init(c), before), ls, ExecDbAll(text, EMPTY_DB, OpsAlong(c, Init(c), before)).schedule,
        nowMs);
  }
}
