/**
 The multi-key promise queue of the agent execution facade.

 A promise chain is modelled by its steps: an operation waits on the tails it captured when it
 was enqueued, starts once all of them have settled, settles (successfully or not), and some time
 later its clean-up callback forgets the tails that are still its own. Every interleaving of these
 steps is a run of `Apply`; the class `ExecutionQueues` performs each step in place.
 */
module ExecutionQueue {

  datatype Phase = Waiting | Running | Settled

  /** What the caller of `enqueue` sees; the chain itself never looks at it. */
  datatype Reply = Open | RejectedInQueue | Finished(ok: bool)

  /** Operations are named by their position in enqueue order. */
  datatype Operation = Operation(
    keys: seq<string>,
    previous: set<nat>,
    phase: Phase,
    cleaned: bool,
    reply: Reply)

  datatype Queues = Queues(ops: seq<Operation>, tails: map<string, nat>, starts: seq<nat>)

  datatype Action =
    | Enqueue(keys: seq<string>, aborted: bool)
    | Start(op: nat)
    | Settle(op: nat, ok: bool)
    | CleanUp(op: nat)
    | Abort(op: nat)

  const EMPTY := Queues([], map[], [])

  function CapturedTails(tails: map<string, nat>, keys: seq<string>): set<nat> {
    set k | k in keys && k in tails :: tails[k]
  }

  function WithTail(tails: map<string, nat>, keys: seq<string>, op: nat): map<string, nat> {
    tails + map k | k in keys :: op
  }

  function WithoutOwnTails(tails: map<string, nat>, keys: seq<string>, op: nat): map<string, nat> {
    map k | k in tails && !(k in keys && tails[k] == op) :: tails[k]
  }

  predicate Enabled(s: Queues, a: Action) {
    match a
    case Enqueue(_, _) => true
    case Start(i) =>
      && i < |s.ops| && s.ops[i].phase == Waiting
      && forall p <- s.ops[i].previous :: p < |s.ops| && s.ops[p].phase == Settled
    case Settle(i, _) => i < |s.ops| && s.ops[i].phase == Running
    case CleanUp(i) => i < |s.ops| && s.ops[i].phase == Settled && !s.ops[i].cleaned
    case Abort(i) => i < |s.ops|
  }

  function Apply(s: Queues, a: Action): Queues
    requires Enabled(s, a)
  {
    match a
    case Enqueue(keys, aborted) =>
      var op := Operation(keys, CapturedTails(s.tails, keys), Waiting, false,
                          if aborted then RejectedInQueue else Open);
      Queues(s.ops + [op], WithTail(s.tails, keys, |s.ops|), s.starts)
    case Start(i) =>
      s.(ops := s.ops[i := s.ops[i].(phase := Running)], starts := s.starts + [i])
    case Settle(i, ok) =>
      var reply := if s.ops[i].reply == Open then Finished(ok) else s.ops[i].reply;
      s.(ops := s.ops[i := s.ops[i].(phase := Settled, reply := reply)])
    case CleanUp(i) =>
      s.(ops := s.ops[i := s.ops[i].(cleaned := true)],
         tails := WithoutOwnTails(s.tails, s.ops[i].keys, i))
    case Abort(i) =>
      if s.ops[i].phase == Waiting && s.ops[i].reply == Open
      then s.(ops := s.ops[i := s.ops[i].(reply := RejectedInQueue)])
      else s
  }

  /** A run: actions taken one after another, each enabled when it is taken. */
  ghost predicate IsRun(s: Queues, actions: seq<Action>)
    decreases |actions|
  {
    actions == [] || (Enabled(s, actions[0]) && IsRun(Apply(s, actions[0]), actions[1..]))
  }

  ghost function After(s: Queues, actions: seq<Action>): Queues
    requires IsRun(s, actions)
    decreases |actions|
  {
    if actions == [] then s else After(Apply(s, actions[0]), actions[1..])
  }

  ghost predicate HasKey(s: Queues, i: nat, k: string) {
    i < |s.ops| && k in s.ops[i].keys
  }

  // ----- the inductive invariant -----

  /** Whoever was enqueued earlier under a shared key has settled before a later one starts. */
  ghost predicate Ordered(s: Queues) {
    forall i: nat, j: nat, k :: i < j && HasKey(s, i, k) && HasKey(s, j, k) && s.ops[j].phase != Waiting ==>
      s.ops[i].phase == Settled
  }

  /** A waiting operation waits, through one of its captured tails, on every unsettled predecessor. */
  ghost predicate Guarded(s: Queues) {
    forall i: nat, j: nat, k :: i < j && HasKey(s, i, k) && HasKey(s, j, k) && s.ops[i].phase != Settled ==>
      exists p :: p in s.ops[j].previous && i <= p && HasKey(s, p, k)
  }

  /** The tail of a key is its latest operation, kept until that operation cleans up. */
  ghost predicate TailsLatest(s: Queues) {
    && (forall i: nat, k :: HasKey(s, i, k) && s.ops[i].phase != Settled ==> k in s.tails)
    && (forall k :: k in s.tails ==>
          && HasKey(s, s.tails[k], k)
          && !s.ops[s.tails[k]].cleaned
          && forall i: nat :: HasKey(s, i, k) ==> i <= s.tails[k])
  }

  ghost predicate Tidy(s: Queues) {
    && (forall i: nat, p :: i < |s.ops| && p in s.ops[i].previous ==> p < i)
    && (forall i: nat :: i < |s.ops| && s.ops[i].cleaned ==> s.ops[i].phase == Settled)
    && (forall i: nat :: i < |s.ops| && s.ops[i].reply.Finished? ==> s.ops[i].phase == Settled)
  }

  /** The start log lists exactly the started operations, and shared keys start in enqueue order. */
  ghost predicate LogInOrder(s: Queues) {
    && (forall a: nat :: a < |s.starts| ==> s.starts[a] < |s.ops| && s.ops[s.starts[a]].phase != Waiting)
    && (forall i: nat :: i < |s.ops| && s.ops[i].phase != Waiting ==> i in s.starts)
    && (forall a: nat, b: nat, k :: a < b < |s.starts| && HasKey(s, s.starts[a], k) && HasKey(s, s.starts[b], k) ==>
          s.starts[a] < s.starts[b])
    && (forall a: nat, b: nat :: a < b < |s.starts| ==> s.starts[a] != s.starts[b])
  }

  ghost predicate Inv(s: Queues) {
    Ordered(s) && Guarded(s) && TailsLatest(s) && Tidy(s) && LogInOrder(s)
  }

  /** No step touches the keys or the captured tails of an operation that is already there. */
  lemma StepFrame(s: Queues, a: Action)
    requires Enabled(s, a)
    ensures var t := Apply(s, a);
            && |t.ops| == |s.ops| + (if a.Enqueue? then 1 else 0)
            && (forall i: nat :: i < |s.ops| ==>
                  t.ops[i].keys == s.ops[i].keys && t.ops[i].previous == s.ops[i].previous)
            && (forall i: nat :: i < |s.ops| && s.ops[i].phase == Settled ==> t.ops[i].phase == Settled)
            && (forall i: nat :: i < |s.ops| && s.ops[i].phase != Waiting ==> t.ops[i].phase != Waiting)
            && (forall i: nat :: i < |s.ops| && t.ops[i].phase != Waiting && !(a.Start? && i == a.op) ==>
                  s.ops[i].phase != Waiting)
  {
  }

  /** When all it waits for has settled, so have all its predecessors under a shared key. */
  lemma Unblocked(s: Queues, i: nat, j: nat, k: string)
    requires Ordered(s) && Guarded(s) && i < j && HasKey(s, i, k) && HasKey(s, j, k)
    requires forall p :: p in s.ops[j].previous ==> p < |s.ops| && s.ops[p].phase == Settled
    ensures s.ops[i].phase == Settled
  {
    if p :| p in s.ops[j].previous && i <= p && HasKey(s, p, k) {
      assert s.ops[p].phase == Settled;
    }
  }

  lemma KeepsOrdered(s: Queues, a: Action)
    requires Ordered(s) && Guarded(s) && Tidy(s) && Enabled(s, a)
    ensures Ordered(Apply(s, a))
  {
    var t := Apply(s, a);
    StepFrame(s, a);
    forall i: nat, j: nat, k | i < j && HasKey(t, i, k) && HasKey(t, j, k) && t.ops[j].phase != Waiting
      ensures t.ops[i].phase == Settled
    {
      assert j < |s.ops| && HasKey(s, i, k) && HasKey(s, j, k);
      if s.ops[j].phase == Waiting { Unblocked(s, i, j, k); }
    }
  }

  lemma KeepsGuarded(s: Queues, a: Action)
    requires Guarded(s) && TailsLatest(s) && Enabled(s, a)
    ensures Guarded(Apply(s, a))
  {
    var t := Apply(s, a);
    StepFrame(s, a);
    forall i: nat, j: nat, k | i < j && HasKey(t, i, k) && HasKey(t, j, k) && t.ops[i].phase != Settled
      ensures exists p :: p in t.ops[j].previous && i <= p && HasKey(t, p, k)
    {
      assert HasKey(s, i, k) && s.ops[i].phase != Settled;
      if j < |s.ops| {
        assert HasKey(s, j, k);
        var p :| p in s.ops[j].previous && i <= p && HasKey(s, p, k);
        assert p in t.ops[j].previous && HasKey(t, p, k);
      } else {
        var p := s.tails[k];
        assert HasKey(s, p, k) && i <= p;
        assert p in t.ops[j].previous && HasKey(t, p, k);
      }
    }
  }

  lemma KeepsTailsCovering(s: Queues, a: Action, i: nat, k: string)
    requires TailsLatest(s) && Tidy(s) && Ordered(s) && Enabled(s, a)
    requires HasKey(Apply(s, a), i, k) && Apply(s, a).ops[i].phase != Settled
    ensures k in Apply(s, a).tails
  {
    StepFrame(s, a);
    if i < |s.ops| {
      assert HasKey(s, i, k) && k in s.tails;
      assert HasKey(s, s.tails[k], k) && i <= s.tails[k];
      assert i == s.tails[k] || s.ops[s.tails[k]].phase == Waiting;
    }
  }

  lemma KeepsTailLatest(s: Queues, a: Action, k: string)
    requires TailsLatest(s) && Enabled(s, a) && k in Apply(s, a).tails
    ensures var t := Apply(s, a);
            && HasKey(t, t.tails[k], k)
            && !t.ops[t.tails[k]].cleaned
            && forall i: nat :: HasKey(t, i, k) ==> i <= t.tails[k]
  {
    var t := Apply(s, a);
    StepFrame(s, a);
    if !(a.Enqueue? && k in a.keys) {
      assert HasKey(s, s.tails[k], k) && t.tails[k] == s.tails[k];
      forall i: nat | HasKey(t, i, k) ensures i <= t.tails[k] { assert HasKey(s, i, k); }
    }
  }

  lemma KeepsTidy(s: Queues, a: Action)
    requires Tidy(s) && TailsLatest(s) && Enabled(s, a)
    ensures Tidy(Apply(s, a))
  {
    StepFrame(s, a);
    if a.Enqueue? {
      forall p | p in CapturedTails(s.tails, a.keys) ensures p < |s.ops| {
        var k :| k in a.keys && k in s.tails && p == s.tails[k];
        assert HasKey(s, s.tails[k], k);
      }
    }
  }

  lemma KeepsLog(s: Queues, a: Action)
    requires LogInOrder(s) && Ordered(s) && Enabled(s, a)
    ensures LogInOrder(Apply(s, a))
  {
    var t := Apply(s, a);
    StepFrame(s, a);
    forall x: nat, y: nat, k | x < y < |t.starts| && HasKey(t, t.starts[x], k) && HasKey(t, t.starts[y], k)
      ensures t.starts[x] < t.starts[y]
    {
      assert HasKey(s, s.starts[x], k);
      assert y < |s.starts| ==> HasKey(s, s.starts[y], k);
      if y == |s.starts| {
        assert HasKey(s, a.op, k) && s.ops[a.op].phase == Waiting;
        assert !(a.op < s.starts[x]);
      }
    }
  }

  lemma StepKeepsInv(s: Queues, a: Action)
    requires Inv(s) && Enabled(s, a)
    ensures Inv(Apply(s, a))
  {
    KeepsOrdered(s, a);
    KeepsGuarded(s, a);
    KeepsTidy(s, a);
    KeepsLog(s, a);
    var t := Apply(s, a);
    forall i: nat, k | HasKey(t, i, k) && t.ops[i].phase != Settled ensures k in t.tails {
      KeepsTailsCovering(s, a, i, k);
    }
    forall k | k in t.tails
      ensures HasKey(t, t.tails[k], k) && !t.ops[t.tails[k]].cleaned
      ensures forall i: nat :: HasKey(t, i, k) ==> i <= t.tails[k]
    {
      KeepsTailLatest(s, a, k);
    }
  }

  lemma {:induction false} RunKeepsInv(s: Queues, actions: seq<Action>)
    requires Inv(s) && IsRun(s, actions)
    ensures Inv(After(s, actions))
    decreases |actions|
  {
    if actions != [] {
      StepKeepsInv(s, actions[0]);
      RunKeepsInv(Apply(s, actions[0]), actions[1..]);
    }
  }

  // ----- what every run guarantees -----

  /** Two operations that share a key are never inside their bodies together. */
  lemma NoOverlap(actions: seq<Action>, i: nat, j: nat, k: string)
    requires IsRun(EMPTY, actions)
    requires i != j && HasKey(After(EMPTY, actions), i, k) && HasKey(After(EMPTY, actions), j, k)
    ensures var ops := After(EMPTY, actions).ops; !(ops[i].phase == Running && ops[j].phase == Running)
  {
    RunKeepsInv(EMPTY, actions);
    assert i < j || j < i;
  }

  /** Operations that share a key start in the order in which they were enqueued, each at most once. */
  lemma StartsFollowEnqueueOrder(actions: seq<Action>, a: nat, b: nat, k: string)
    requires IsRun(EMPTY, actions)
    requires a < b < |After(EMPTY, actions).starts|
    requires HasKey(After(EMPTY, actions), After(EMPTY, actions).starts[a], k)
    requires HasKey(After(EMPTY, actions), After(EMPTY, actions).starts[b], k)
    ensures After(EMPTY, actions).starts[a] < After(EMPTY, actions).starts[b]
  {
    RunKeepsInv(EMPTY, actions);
  }

  ghost predicate Quiet(s: Queues) {
    forall i: nat :: i < |s.ops| ==> s.ops[i].phase != Running
  }

  /** No deadlock: when nothing is running, the earliest waiting operation can start. */
  lemma EarliestWaitingCanStart(s: Queues, i: nat)
    requires Inv(s) && Quiet(s)
    requires i < |s.ops| && s.ops[i].phase == Waiting
    requires forall h: nat :: h < i ==> s.ops[h].phase != Waiting
    ensures Enabled(s, Start(i))
  {
    forall p | p in s.ops[i].previous
      ensures p < |s.ops| && s.ops[p].phase == Settled
    {
      assert p < i;
    }
  }

  function Work(op: Operation): nat {
    match op.phase
    case Waiting => 3
    case Running => 2
    case Settled => if op.cleaned then 0 else 1
  }

  function TotalWork(ops: seq<Operation>): nat {
    if ops == [] then 0 else Work(ops[0]) + TotalWork(ops[1..])
  }

  lemma {:induction false} WorkAfterUpdate(ops: seq<Operation>, i: nat, op: Operation)
    requires i < |ops|
    ensures TotalWork(ops[i := op]) == TotalWork(ops) - Work(ops[i]) + Work(op)
  {
    if i == 0 {
      assert ops[0 := op][1..] == ops[1..];
    } else {
      assert ops[i := op][1..] == ops[1..][i - 1 := op];
      WorkAfterUpdate(ops[1..], i - 1, op);
    }
  }

  lemma {:induction false} NoWorkLeft(ops: seq<Operation>)
    ensures TotalWork(ops) == 0 <==> forall i: nat :: i < |ops| ==> ops[i].phase == Settled && ops[i].cleaned
  {
    if ops != [] {
      NoWorkLeft(ops[1..]);
      assert forall i: nat :: 0 < i < |ops| ==> ops[i] == ops[1..][i - 1];
      assert forall i: nat :: i < |ops[1..]| ==> ops[1..][i] == ops[i + 1];
    }
  }

  lemma {:induction false} EarliestWaiting(s: Queues, i: nat) returns (first: nat)
    requires i < |s.ops| && s.ops[i].phase == Waiting
    ensures first < |s.ops| && s.ops[first].phase == Waiting
    ensures forall h: nat :: h < first ==> s.ops[h].phase != Waiting
    decreases i
  {
    if h: nat :| h < i && s.ops[h].phase == Waiting {
      first := EarliestWaiting(s, h);
    } else {
      first := i;
    }
  }

  /** As long as work is left, some operation can start, settle or clean up, and that uses up work. */
  lemma SomeStepHelps(s: Queues) returns (a: Action)
    requires Inv(s) && TotalWork(s.ops) > 0
    ensures (a.Start? || a.Settle? || a.CleanUp?) && Enabled(s, a)
    ensures TotalWork(Apply(s, a).ops) < TotalWork(s.ops)
  {
    NoWorkLeft(s.ops);
    if i: nat :| i < |s.ops| && s.ops[i].phase == Running {
      a := Settle(i, true);
      WorkAfterUpdate(s.ops, i, Apply(s, a).ops[i]);
    } else if i: nat :| i < |s.ops| && s.ops[i].phase == Waiting {
      var first := EarliestWaiting(s, i);
      EarliestWaitingCanStart(s, first);
      a := Start(first);
      WorkAfterUpdate(s.ops, first, Apply(s, a).ops[first]);
    } else {
      var i: nat :| i < |s.ops| && !(s.ops[i].phase == Settled && s.ops[i].cleaned);
      a := CleanUp(i);
      WorkAfterUpdate(s.ops, i, Apply(s, a).ops[i]);
    }
  }

  ghost predicate Drained(s: Queues) {
    && s.tails == map[]
    && forall i: nat :: i < |s.ops| ==> s.ops[i].phase == Settled
  }

  lemma TailHolder(s: Queues, k: string)
    requires TailsLatest(s) && k in s.tails
    ensures exists i: nat :: i < |s.ops| && !s.ops[i].cleaned
  {
    assert HasKey(s, s.tails[k], k);
  }

  /** From every reachable state the queue can be run dry, and then it remembers no key at all. */
  lemma {:induction false} CanAlwaysDrain(s: Queues) returns (actions: seq<Action>)
    requires Inv(s)
    ensures IsRun(s, actions) && Drained(After(s, actions)) && |After(s, actions).ops| == |s.ops|
    decreases TotalWork(s.ops)
  {
    NoWorkLeft(s.ops);
    if TotalWork(s.ops) == 0 {
      actions := [];
      forall k ensures k !in s.tails {
        if k in s.tails { TailHolder(s, k); }
      }
    } else {
      var a := SomeStepHelps(s);
      StepKeepsInv(s, a);
      var rest := CanAlwaysDrain(Apply(s, a));
      actions := [a] + rest;
      assert actions[1..] == rest;
    }
  }

  /** Any run of starts, settlings and clean-ups is bounded by the work that is left. */
  lemma {:induction false} WorkBoundsRun(s: Queues, actions: seq<Action>)
    requires Inv(s) && IsRun(s, actions)
    requires forall a <- actions :: a.Start? || a.Settle? || a.CleanUp?
    ensures |actions| + TotalWork(After(s, actions).ops) == TotalWork(s.ops)
    decreases |actions|
  {
    if actions != [] {
      var a := actions[0];
      WorkAfterUpdate(s.ops, a.op, Apply(s, a).ops[a.op]);
      StepKeepsInv(s, a);
      WorkBoundsRun(Apply(s, a), actions[1..]);
    }
  }

  /**
   A clean-up drops exactly the tails that are its own: a newer tail stays, and every operation
   that has not settled is still covered by the tail that the next enqueue will capture.
   */
  lemma CleanUpKeepsNewerTails(actions: seq<Action>, i: nat, k: string)
    requires IsRun(EMPTY, actions) && Enabled(After(EMPTY, actions), CleanUp(i))
    ensures var s := After(EMPTY, actions); var t := Apply(s, CleanUp(i));
            && (k in t.tails <==> k in s.tails && s.tails[k] != i)
            && (k in t.tails ==> t.tails[k] == s.tails[k])
            && (forall j: nat :: HasKey(s, j, k) && s.ops[j].phase != Settled ==> k in t.tails && j <= t.tails[k])
  {
    RunKeepsInv(EMPTY, actions);
    var s := After(EMPTY, actions);
    var t := Apply(s, CleanUp(i));
    StepKeepsInv(s, CleanUp(i));
    if k in s.tails && s.tails[k] == i { assert HasKey(s, i, k); }
    forall j: nat | HasKey(s, j, k) && s.ops[j].phase != Settled
      ensures k in t.tails && j <= t.tails[k]
    {
      assert HasKey(t, j, k);
    }
  }

  // ----- aborting only changes what the caller sees -----

  function Forget(op: Operation): Operation {
    op.(reply := Open)
  }

  function Schedule(s: Queues): Queues {
    s.(ops := seq(|s.ops|, i requires 0 <= i < |s.ops| => Forget(s.ops[i])))
  }

  function WithoutAborts(actions: seq<Action>): seq<Action> {
    if actions == [] then []
    else match actions[0]
      case Abort(_) => WithoutAborts(actions[1..])
      case Enqueue(keys, _) => [Enqueue(keys, false)] + WithoutAborts(actions[1..])
      case a => [a] + WithoutAborts(actions[1..])
  }

  ghost predicate SameSchedule(s: Queues, t: Queues) {
    Schedule(s) == Schedule(t)
  }

  lemma SameScheduleOps(s: Queues, t: Queues)
    requires SameSchedule(s, t)
    ensures |s.ops| == |t.ops| && s.tails == t.tails && s.starts == t.starts
    ensures forall i: nat :: i < |s.ops| ==> Forget(s.ops[i]) == Forget(t.ops[i])
  {
    assert forall i: nat :: i < |s.ops| ==> Schedule(s).ops[i] == Forget(s.ops[i]);
    assert forall i: nat :: i < |t.ops| ==> Schedule(t).ops[i] == Forget(t.ops[i]);
  }

  lemma AlikeSteps(s: Queues, t: Queues, a: Action, b: Action)
    requires SameSchedule(s, t) && Enabled(s, a) && !a.Abort?
    requires b == match a case Enqueue(keys, _) => Enqueue(keys, false) case _ => a
    ensures Enabled(t, b) && SameSchedule(Apply(s, a), Apply(t, b))
  {
    SameScheduleOps(s, t);
    match a {
      case Enqueue(_, _) =>
      case Start(i) => assert Forget(s.ops[i]) == Forget(t.ops[i]);
      case Settle(i, _) => assert Forget(s.ops[i]) == Forget(t.ops[i]);
      case CleanUp(i) => assert Forget(s.ops[i]) == Forget(t.ops[i]);
    }
    var s', t' := Apply(s, a), Apply(t, b);
    assert forall i: nat :: i < |s'.ops| ==> Forget(s'.ops[i]) == Forget(t'.ops[i]);
    assert Schedule(s').ops == Schedule(t').ops;
  }

  /** Leaving every abort out of a run changes nothing about who waits, runs and settles when. */
  lemma {:induction false} AbortsDoNotSteer(s: Queues, t: Queues, actions: seq<Action>)
    requires SameSchedule(s, t) && IsRun(s, actions)
    ensures IsRun(t, WithoutAborts(actions))
    ensures SameSchedule(After(s, actions), After(t, WithoutAborts(actions)))
    decreases |actions|
  {
    if actions != [] {
      var a := actions[0];
      if a.Abort? {
        var s' := Apply(s, a);
        assert forall i: nat :: i < |s'.ops| ==> Forget(s'.ops[i]) == Forget(s.ops[i]);
        assert Schedule(s').ops == Schedule(s).ops;
        AbortsDoNotSteer(s', t, actions[1..]);
      } else {
        var b := match a case Enqueue(keys, _) => Enqueue(keys, false) case _ => a;
        AlikeSteps(s, t, a, b);
        var rest := WithoutAborts(actions[1..]);
        assert WithoutAborts(actions) == [b] + rest;
        assert ([b] + rest)[1..] == rest;
        AbortsDoNotSteer(Apply(s, a), Apply(t, b), actions[1..]);
      }
    }
  }

  /** Once an operation has started, its caller gets the operation's own outcome or had left before. */
  lemma {:induction false} StartedRepliesAreKept(s: Queues, actions: seq<Action>, i: nat)
    requires IsRun(s, actions) && i < |s.ops| && s.ops[i].phase != Waiting
    ensures var t := After(s, actions);
            && i < |t.ops| && t.ops[i].phase != Waiting
            && (s.ops[i].reply != Open ==> t.ops[i].reply == s.ops[i].reply)
            && (s.ops[i].reply == Open ==> t.ops[i].reply != RejectedInQueue)
    decreases |actions|
  {
    if actions != [] {
      StartedRepliesAreKept(Apply(s, actions[0]), actions[1..], i);
    }
  }

  // ----- what the actions alone tell -----

  function Enqueues(actions: seq<Action>): nat {
    if actions == [] then 0
    else
      var n := |actions| - 1;
      Enqueues(actions[..n]) + (if actions[n].Enqueue? then 1 else 0)
  }

  /** The p-th action enqueues operation i under these keys. */
  ghost predicate EnqueuesAt(actions: seq<Action>, p: int, i: nat, keys: seq<string>, aborted: bool) {
    0 <= p < |actions| && actions[p] == Enqueue(keys, aborted) && Enqueues(actions[..p]) == i
  }

  /** At the p-th action the caller of i gives up, and i has not started before. */
  ghost predicate GivesUpAt(actions: seq<Action>, p: int, i: nat) {
    && 0 <= p < |actions|
    && (actions[p] == Abort(i) || (actions[p].Enqueue? && actions[p].aborted && Enqueues(actions[..p]) == i))
    && Start(i) !in actions[..p]
  }

  ghost predicate GivesUp(actions: seq<Action>, i: nat) {
    exists p :: GivesUpAt(actions, p, i)
  }

  lemma {:induction false} RunOneMore(s: Queues, actions: seq<Action>)
    requires IsRun(s, actions) && actions != []
    ensures var front, last := actions[..|actions| - 1], actions[|actions| - 1];
            && IsRun(s, front) && Enabled(After(s, front), last)
            && After(s, actions) == Apply(After(s, front), last)
    decreases |actions|
  {
    var front := actions[..|actions| - 1];
    if |actions| > 1 {
      RunOneMore(Apply(s, actions[0]), actions[1..]);
      assert front[1..] == actions[1..][..|actions[1..]| - 1];
    }
  }

  lemma GivesUpOneMore(front: seq<Action>, a: Action, i: nat)
    ensures GivesUp(front + [a], i) <==>
            GivesUp(front, i) ||
            ((a == Abort(i) || (a.Enqueue? && a.aborted && Enqueues(front) == i)) && Start(i) !in front)
  {
    var all, n := front + [a], |front|;
    assert all[..n] == front;
    forall p | 0 <= p < n ensures GivesUpAt(all, p, i) <==> GivesUpAt(front, p, i) {
      assert all[..p] == front[..p];
    }
    if p :| GivesUpAt(front, p, i) { assert GivesUpAt(all, p, i); }
    if p :| GivesUpAt(all, p, i) {
      if p < n { assert GivesUpAt(front, p, i); }
    }
    if (a == Abort(i) || (a.Enqueue? && a.aborted && Enqueues(front) == i)) && Start(i) !in front {
      assert GivesUpAt(all, n, i);
    }
  }

  /** What is known of operation i from the actions taken. */
  ghost predicate Told(actions: seq<Action>, op: Operation, i: nat) {
    && (op.phase != Waiting <==> Start(i) in actions)
    && (op.phase == Settled <==> Settle(i, true) in actions || Settle(i, false) in actions)
    && !(Settle(i, true) in actions && Settle(i, false) in actions)
    && (op.reply == RejectedInQueue <==> GivesUp(actions, i))
    && (forall ok :: op.reply == Finished(ok) <==> Settle(i, ok) in actions && !GivesUp(actions, i))
  }

  ghost predicate Untold(actions: seq<Action>, i: nat) {
    && Start(i) !in actions && Settle(i, true) !in actions && Settle(i, false) !in actions && !GivesUp(actions, i)
  }

  ghost predicate AllTold(actions: seq<Action>, s: Queues) {
    && |s.ops| == Enqueues(actions)
    && (forall i: nat :: i < |s.ops| ==> Told(actions, s.ops[i], i))
    && (forall i: nat :: i >= |s.ops| ==> Untold(actions, i))
  }

  lemma MembersOneMore(front: seq<Action>, a: Action)
    ensures forall x :: x in front + [a] <==> x in front || x == a
  {
  }

  lemma ToldStep(front: seq<Action>, s: Queues, a: Action, i: nat)
    requires Enabled(s, a) && |s.ops| == Enqueues(front)
    requires if i < |s.ops| then Told(front, s.ops[i], i) else Untold(front, i)
    requires i < |s.ops| ==> (s.ops[i].phase != Waiting ==> Start(i) in front)
    ensures var t := Apply(s, a);
            if i < |t.ops| then Told(front + [a], t.ops[i], i) else Untold(front + [a], i)
  {
    MembersOneMore(front, a);
    GivesUpOneMore(front, a, i);
  }

  /** After any run every operation stands as the actions tell. */
  lemma {:induction false} RunTells(actions: seq<Action>)
    requires IsRun(EMPTY, actions)
    ensures AllTold(actions, After(EMPTY, actions))
  {
    if actions == [] {
      forall i: nat ensures Untold(actions, i) {}
    } else {
      var front, a := actions[..|actions| - 1], actions[|actions| - 1];
      assert actions == front + [a];
      RunOneMore(EMPTY, actions);
      RunTells(front);
      var s, t := After(EMPTY, front), After(EMPTY, actions);
      forall i: nat ensures if i < |t.ops| then Told(actions, t.ops[i], i) else Untold(actions, i) {
        ToldStep(front, s, a, i);
      }
    }
  }

  /**
   What a caller is answered, from the actions alone: its operation's own outcome exactly if that has
   settled and the caller did not give up before the start; a rejection exactly if it did; and otherwise
   nothing yet.
   */
  lemma RepliesAreOutcomes(actions: seq<Action>, i: nat)
    requires IsRun(EMPTY, actions) && i < Enqueues(actions)
    ensures |After(EMPTY, actions).ops| == Enqueues(actions)
    ensures var reply := After(EMPTY, actions).ops[i].reply;
            && (forall ok :: reply == Finished(ok) <==> Settle(i, ok) in actions && !GivesUp(actions, i))
            && (reply == RejectedInQueue <==> GivesUp(actions, i))
            && (reply == Open <==> Settle(i, true) !in actions && Settle(i, false) !in actions && !GivesUp(actions, i))
  {
    RunTells(actions);
    var op := After(EMPTY, actions).ops[i];
    assert Told(actions, op, i);
    match op.reply {
      case Finished(ok) => assert op.reply == Finished(ok);
      case _ =>
    }
  }

  lemma {:induction false} KeysAreEnqueued(actions: seq<Action>, p: int, i: nat, keys: seq<string>, aborted: bool)
    requires IsRun(EMPTY, actions) && EnqueuesAt(actions, p, i, keys, aborted)
    ensures i < |After(EMPTY, actions).ops| && After(EMPTY, actions).ops[i].keys == keys
  {
    var n := |actions| - 1;
    var front := actions[..n];
    RunOneMore(EMPTY, actions);
    RunTells(front);
    StepFrame(After(EMPTY, front), actions[n]);
    if p < n {
      assert front[..p] == actions[..p];
      KeysAreEnqueued(front, p, i, keys, aborted);
    }
  }

  lemma PrefixIsRun(s: Queues, actions: seq<Action>, n: nat)
    requires IsRun(s, actions) && n <= |actions|
    ensures IsRun(s, actions[..n])
    decreases |actions|
  {
    if n > 0 {
      PrefixIsRun(Apply(s, actions[0]), actions[1..], n - 1);
      assert actions[..n][1..] == actions[1..][..n - 1];
    }
  }

  /**
   In terms of the actions alone: between the starts of two operations that were enqueued under a shared
   key, the one that starts first settles, and it is the one enqueued first.
   */
  lemma StartsAreApart(actions: seq<Action>, p: int, q: int, i: nat, j: nat, e: int, f: int,
                       keys: seq<string>, others: seq<string>, k: string)
    requires IsRun(EMPTY, actions) && 0 <= p < q < |actions| && actions[p] == Start(i) && actions[q] == Start(j)
    requires i != j && k in keys && k in others
    requires exists aborted :: EnqueuesAt(actions, e, i, keys, aborted)
    requires exists aborted :: EnqueuesAt(actions, f, j, others, aborted)
    ensures i < j && (Settle(i, true) in actions[..q] || Settle(i, false) in actions[..q])
  {
    var before, upTo := actions[..q], actions[..q + 1];
    PrefixIsRun(EMPTY, actions, q);
    PrefixIsRun(EMPTY, actions, q + 1);
    RunOneMore(EMPTY, upTo);
    assert upTo[..q] == before && upTo[q] == Start(j);
    RunTells(before);
    RunKeepsInv(EMPTY, before);
    assert before[p] == Start(i);
    var s := After(EMPTY, before);
    StartedIsThere(before, s, i);
    SharedKeys(actions, q, i, e, keys);
    SharedKeys(actions, q, j, f, others);
    StartsSecond(s, i, j, k);
    assert Told(before, s.ops[i], i);
  }

  lemma StartedIsThere(actions: seq<Action>, s: Queues, i: nat)
    requires AllTold(actions, s) && Start(i) in actions
    ensures i < |s.ops| && s.ops[i].phase != Waiting
  {
    assert Untold(actions, i) || (i < |s.ops| && Told(actions, s.ops[i], i));
  }

  lemma StartsSecond(s: Queues, i: nat, j: nat, k: string)
    requires Inv(s) && Enabled(s, Start(j)) && i != j && HasKey(s, i, k) && HasKey(s, j, k)
    requires s.ops[i].phase != Waiting
    ensures i < j && s.ops[i].phase == Settled
  {
    if i < j { Unblocked(s, i, j, k); }
  }

  /** An operation that is there after some of a run has the keys it was enqueued under. */
  lemma SharedKeys(actions: seq<Action>, q: nat, i: nat, e: int, keys: seq<string>)
    requires IsRun(EMPTY, actions) && q <= |actions| && IsRun(EMPTY, actions[..q])
    requires i < |After(EMPTY, actions[..q]).ops|
    requires exists aborted :: EnqueuesAt(actions, e, i, keys, aborted)
    ensures After(EMPTY, actions[..q]).ops[i].keys == keys
  {
    var aborted :| EnqueuesAt(actions, e, i, keys, aborted);
    KeysAreEnqueued(actions, e, i, keys, aborted);
    KeysStay(actions, q, i);
  }

  lemma {:induction false} KeysStay(actions: seq<Action>, q: nat, i: nat)
    requires IsRun(EMPTY, actions) && q <= |actions| && IsRun(EMPTY, actions[..q])
    requires i < |After(EMPTY, actions[..q]).ops|
    ensures i < |After(EMPTY, actions).ops|
    ensures After(EMPTY, actions).ops[i].keys == After(EMPTY, actions[..q]).ops[i].keys
  {
    if q == |actions| {
      assert actions[..q] == actions;
    } else {
      var front := actions[..|actions| - 1];
      RunOneMore(EMPTY, actions);
      assert front[..q] == actions[..q];
      KeysStay(front, q, i);
      StepFrame(After(EMPTY, front), actions[|actions| - 1]);
    }
  }

  // ----- the queue object -----

  lemma WithOneMoreTail(tails: map<string, nat>, keys: seq<string>, i: nat, op: nat)
    requires i < |keys|
    ensures WithTail(tails, keys[..i + 1], op) == WithTail(tails, keys[..i], op)[keys[i] := op]
  {
    var before, more := keys[..i], keys[..i + 1];
    assert more == before + [keys[i]];
    assert forall k :: k in more <==> k in before || k == keys[i];
  }

  class ExecutionQueues {
    var ops: seq<Operation>
    var executionQueues: map<string, nat>
    ghost var starts: seq<nat>

    ghost function View(): Queues
      reads this
    {
      Queues(ops, executionQueues, starts)
    }

    constructor ()
      ensures View() == EMPTY
    {
      ops, executionQueues, starts := [], map[], [];
    }

    method Previous(queueKeys: seq<string>) returns (previous: set<nat>)
      ensures previous == CapturedTails(executionQueues, queueKeys)
    {
      previous := {};
      for i := 0 to |queueKeys|
        invariant previous == CapturedTails(executionQueues, queueKeys[..i])
      {
        assert queueKeys[..i + 1] == queueKeys[..i] + [queueKeys[i]];
        if queueKeys[i] in executionQueues {
          previous := previous + {executionQueues[queueKeys[i]]};
        }
      }
      assert queueKeys[..|queueKeys|] == queueKeys;
    }

    method SetTails(queueKeys: seq<string>, op: nat)
      modifies this`executionQueues
      ensures executionQueues == WithTail(old(executionQueues), queueKeys, op)
    {
      for i := 0 to |queueKeys|
        invariant executionQueues == WithTail(old(executionQueues), queueKeys[..i], op)
      {
        WithOneMoreTail(old(executionQueues), queueKeys, i, op);
        executionQueues := executionQueues[queueKeys[i] := op];
      }
      assert queueKeys[..|queueKeys|] == queueKeys;
    }

    method AddOperation(queueKeys: seq<string>, aborted: bool) returns (op: nat)
      modifies this
      ensures View() == Apply(old(View()), Enqueue(queueKeys, aborted))
      ensures op == old(|ops|)
    {
      op := |ops|;
      var previous := Previous(queueKeys);
      SetTails(queueKeys, op);
      ops := ops + [Operation(queueKeys, previous, Waiting, false, if aborted then RejectedInQueue else Open)];
    }

    method Begin(op: nat)
      requires Enabled(View(), Start(op))
      modifies this
      ensures View() == Apply(old(View()), Start(op))
    {
      ops := ops[op := ops[op].(phase := Running)];
      starts := starts + [op];
    }

    method Finish(op: nat, ok: bool)
      requires Enabled(View(), Settle(op, ok))
      modifies this
      ensures View() == Apply(old(View()), Settle(op, ok))
    {
      var reply := ops[op].reply;
      if reply == Open { reply := Finished(ok); }
      ops := ops[op := ops[op].(phase := Settled, reply := reply)];
    }

    method ForgetTails(op: nat)
      requires Enabled(View(), CleanUp(op))
      modifies this
      ensures View() == Apply(old(View()), CleanUp(op))
    {
      var queueKeys := ops[op].keys;
      for i := 0 to |queueKeys|
        invariant executionQueues == WithoutOwnTails(old(executionQueues), queueKeys[..i], op)
        invariant ops == old(ops) && starts == old(starts)
      {
        assert queueKeys[..i + 1] == queueKeys[..i] + [queueKeys[i]];
        if queueKeys[i] in executionQueues && executionQueues[queueKeys[i]] == op {
          executionQueues := executionQueues - {queueKeys[i]};
        }
      }
      assert queueKeys[..|queueKeys|] == queueKeys;
      ops := ops[op := ops[op].(cleaned := true)];
    }

    method RejectWhileQueued(op: nat)
      requires Enabled(View(), Abort(op))
      modifies this
      ensures View() == Apply(old(View()), Abort(op))
    {
      if ops[op].phase == Waiting && ops[op].reply == Open {
        ops := ops[op := ops[op].(reply := RejectedInQueue)];
      }
    }
  }
}
