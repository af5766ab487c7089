/** Composing runs of the protocol, and the store calls made along them. */
module Runs {
  import opened Jobs
  import opened StoreModel
  import opened Protocol

  function OpList(op: Option<Op>): seq<Op> {
    match op
    case None => []
    case Some(o) => [o]
  }

  /** The store calls that take effect along a run, in order. */
  ghost function OpsAlong(c: Config, s: State, ls: seq<Label>): seq<Op>
    requires Valid(c, s, ls)
    decreases |ls|
  {
    if ls == [] then [] else OpList(OpOf(c, s, ls[0])) + OpsAlong(c, Apply(c, s, ls[0]), ls[1..])
  }

  lemma RunCons(c: Config, s: State, l: Label, ls: seq<Label>)
    requires Enabled(c, s, l) && Valid(c, Apply(c, s, l), ls)
    ensures Valid(c, s, [l] + ls) && Run(c, s, [l] + ls) == Run(c, Apply(c, s, l), ls)
    ensures OpsAlong(c, s, [l] + ls) == OpList(OpOf(c, s, l)) + OpsAlong(c, Apply(c, s, l), ls)
  {
    assert ([l] + ls)[1..] == ls;
  }

  lemma OneLabel(c: Config, s: State, l: Label)
    requires Enabled(c, s, l)
    ensures Valid(c, s, [l]) && Run(c, s, [l]) == Apply(c, s, l) && OpsAlong(c, s, [l]) == OpList(OpOf(c, s, l))
  {
    RunCons(c, s, l, []);
    assert [l] + [] == [l];
  }

  /** The state after the first label, its store calls, and how a run goes on from there. */
  lemma Uncons(c: Config, s: State, ls: seq<Label>, ms: seq<Label>) returns (next: State, ops: seq<Op>)
    requires ls != [] && Valid(c, s, ls)
    ensures Valid(c, next, ls[1..]) && Run(c, s, ls) == Run(c, next, ls[1..])
    ensures OpsAlong(c, s, ls) == ops + OpsAlong(c, next, ls[1..])
    ensures Valid(c, next, ls[1..] + ms) ==>
              && Valid(c, s, ls + ms) && Run(c, s, ls + ms) == Run(c, next, ls[1..] + ms)
              && OpsAlong(c, s, ls + ms) == ops + OpsAlong(c, next, ls[1..] + ms)
  {
    next, ops := Apply(c, s, ls[0]), OpList(OpOf(c, s, ls[0]));
    assert (ls + ms)[1..] == ls[1..] + ms;
  }

  lemma {:induction false} RunConcat(c: Config, s: State, ls: seq<Label>, ms: seq<Label>)
    requires Valid(c, s, ls) && Valid(c, Run(c, s, ls), ms)
    ensures Valid(c, s, ls + ms) && Run(c, s, ls + ms) == Run(c, Run(c, s, ls), ms)
    decreases |ls|
  {
    if ls == [] {
      assert ls + ms == ms;
    } else {
      var next, _ := Uncons(c, s, ls, ms);
      RunConcat(c, next, ls[1..], ms);
    }
  }

  lemma {:induction false} OpsConcat(c: Config, s: State, ls: seq<Label>, ms: seq<Label>, t: State, last: seq<Op>)
    requires Valid(c, s, ls) && Run(c, s, ls) == t && Valid(c, t, ms) && OpsAlong(c, t, ms) == last
    ensures Valid(c, s, ls + ms) && OpsAlong(c, s, ls + ms) == OpsAlong(c, s, ls) + last
    decreases |ls|
  {
    if ls == [] {
      assert ls + ms == ms;
    } else {
      var next, op := Uncons(c, s, ls, ms);
      OpsConcat(c, next, ls[1..], ms, t, last);
      Associate(op, OpsAlong(c, next, ls[1..]), last, OpsAlong(c, s, ls), OpsAlong(c, s, ls + ms));
    }
  }

  lemma Associate(op: seq<Op>, rest: seq<Op>, last: seq<Op>, a: seq<Op>, b: seq<Op>)
    requires a == op + rest && b == op + (rest + last)
    ensures b == a + last
  {
  }

  function ExecAll(st: Store, ops: seq<Op>): Store
    decreases |ops|
  {
    if ops == [] then st else ExecAll(Exec(st, ops[0]), ops[1..])
  }

  lemma ExecCons(st: Store, op: Option<Op>, rest: seq<Op>)
    ensures ExecAll(st, OpList(op) + rest) == ExecAll(if op.Some? then Exec(st, op.value) else st, rest)
  {
    match op
    case None => assert [] + rest == rest;
    case Some(o) => assert ([o] + rest)[1..] == rest;
  }

  /** The store changes by the store calls alone. */
  lemma {:induction false} StoreAlong(c: Config, s: State, ls: seq<Label>)
    requires Valid(c, s, ls)
    ensures Run(c, s, ls).store == ExecAll(s.store, OpsAlong(c, s, ls))
    decreases |ls|
  {
    if ls != [] {
      StoreAlong(c, Apply(c, s, ls[0]), ls[1..]);
      ExecCons(s.store, OpOf(c, s, ls[0]), OpsAlong(c, Apply(c, s, ls[0]), ls[1..]));
    }
  }

  // ----- after the signal

  /** Store calls made on the cancelled context are refused. */
  predicate Heeds(s: State, l: Label) {
    s.phase != Serving ==>
      match l
      case Claim(net) => net.Undone?
      case Work(_, Load(net, _)) => net.Undone?
      case Work(_, Save(net)) => net.Undone?
      case Work(_, Reschedule(net)) => net.Undone?
      case Work(_, Discard(net)) => net.Undone?
      case _ => true
  }

  ghost predicate AllHeed(c: Config, s: State, ls: seq<Label>)
    requires Valid(c, s, ls)
    decreases |ls|
  {
    ls == [] || (Heeds(s, ls[0]) && AllHeed(c, Apply(c, s, ls[0]), ls[1..]))
  }

  lemma HeedCons(c: Config, s: State, l: Label, ls: seq<Label>)
    requires Enabled(c, s, l) && Valid(c, Apply(c, s, l), ls) && Heeds(s, l) && AllHeed(c, Apply(c, s, l), ls)
    ensures Valid(c, s, [l] + ls) && AllHeed(c, s, [l] + ls)
  {
    assert ([l] + ls)[1..] == ls;
  }

  predicate CrashFree(ls: seq<Label>) {
    forall k | 0 <= k < |ls| :: !ls[k].Crash?
  }
}
