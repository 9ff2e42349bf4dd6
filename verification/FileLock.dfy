/**
 The exclusive lock file around cloning and fetching a mirror.

 Every call of `withExclusiveFileLock` opens the lock file exclusively, writes its process id and
 the time into it, runs its function and unlinks the file. A call that finds the file reads it,
 judges the holder dead or the file stale, and then unlinks it: three separate steps, with any
 steps of other calls between them. A run is any interleaving of such steps, crashes and time.
 */
module FileLock {
  import opened Wrappers

  datatype Body = Body(pid: nat, created_at: nat)

  /** The file at the lock path: who made it, what has been written into it, when it changed. */
  datatype File = File(owner: nat, body: Option<Body>, mtime: nat)

  datatype Phase =
    | Trying
    | Opened                                        // has the file open exclusively, body not written
    | Inside                                        // running `fn`
    | Leaving                                       // about to unlink its file
    | HasRead(body: Option<Body>, seen: nat)        // found the file, about to judge it
    | Doomed(seen: nat)                             // judged the file it saw, about to unlink the path
    | Done

  /** A call's exclusive open succeeds at most once, so the call's index names the file it makes. */
  datatype Call = Call(pid: nat, phase: Phase, openedAt: nat)

  datatype State = State(calls: seq<Call>, lock: Option<File>, dead: set<nat>, now: nat)

  datatype Action =
    | Arrive(pid: nat)
    | Open(c: nat)
    | Write(c: nat)
    | WriteFails(c: nat)
    | Finish(c: nat)
    | Unlink(c: nat)
    | Read(c: nat)
    | JudgeDead(c: nat)
    | JudgeStale(c: nat)
    | JudgeByMtime(c: nat)
    | KeepWaiting(c: nat)
    | StealUnlink(c: nat)
    | TimeOut(c: nat)
    | Crash(pid: nat)
    | Tick

  const START := State([], None, {}, 0)

  predicate Live(s: State, c: nat) {
    c < |s.calls| && s.calls[c].pid !in s.dead
  }

  predicate Holds(s: State, c: nat) {
    c < |s.calls| && (s.calls[c].phase.Opened? || s.calls[c].phase.Inside? || s.calls[c].phase.Leaving?)
  }

  predicate IsStale(s: State, time: nat, staleMs: nat) {
    s.now > time + staleMs
  }

  predicate LooksDead(s: State, c: nat, body: Body)
    requires c < |s.calls|
  {
    body.pid != s.calls[c].pid && body.pid in s.dead
  }

  predicate Enabled(s: State, a: Action, staleMs: nat) {
    match a
    case Arrive(pid) => pid !in s.dead
    case Open(c) => Live(s, c) && s.calls[c].phase.Trying? && s.lock.None?
    case Write(c) => Live(s, c) && s.calls[c].phase.Opened?
    case WriteFails(c) => Live(s, c) && s.calls[c].phase.Opened?
    case Finish(c) => Live(s, c) && s.calls[c].phase.Inside?
    case Unlink(c) => Live(s, c) && s.calls[c].phase.Leaving?
    case Read(c) => Live(s, c) && s.calls[c].phase.Trying? && s.lock.Some?
    case JudgeDead(c) =>
      && Live(s, c) && s.calls[c].phase.HasRead? && s.calls[c].phase.body.Some?
      && LooksDead(s, c, s.calls[c].phase.body.value)
    case JudgeStale(c) =>
      && Live(s, c) && s.calls[c].phase.HasRead? && s.calls[c].phase.body.Some?
      && !LooksDead(s, c, s.calls[c].phase.body.value)
      && IsStale(s, s.calls[c].phase.body.value.created_at, staleMs)
    case JudgeByMtime(c) =>
      && Live(s, c) && s.calls[c].phase.HasRead? && s.calls[c].phase.body.None?
      && s.lock.Some? && IsStale(s, s.lock.value.mtime, staleMs)
    case KeepWaiting(c) =>
      && Live(s, c) && s.calls[c].phase.HasRead?
      && (match s.calls[c].phase.body
          case Some(body) => !LooksDead(s, c, body) && !IsStale(s, body.created_at, staleMs)
          case None => s.lock.Some? ==> !IsStale(s, s.lock.value.mtime, staleMs))
    case StealUnlink(c) => Live(s, c) && s.calls[c].phase.Doomed?
    case TimeOut(c) => Live(s, c) && s.calls[c].phase.Trying?
    case Crash(_) => true
    case Tick => true
  }

  function At(s: State, c: nat, phase: Phase): seq<Call>
    requires c < |s.calls|
  {
    s.calls[c := s.calls[c].(phase := phase)]
  }

  /** Writing goes to the file the call has open, which need no longer be the one at the path. */
  function Apply(s: State, a: Action, staleMs: nat): State
    requires Enabled(s, a, staleMs)
  {
    match a
    case Arrive(pid) => s.(calls := s.calls + [Call(pid, Trying, 0)])
    case Open(c) =>
      s.(calls := s.calls[c := Call(s.calls[c].pid, Opened, s.now)], lock := Some(File(c, None, s.now)))
    case Write(c) =>
      s.(calls := At(s, c, Inside),
         lock := if s.lock.Some? && s.lock.value.owner == c
                 then Some(File(c, Some(Body(s.calls[c].pid, s.now)), s.now)) else s.lock)
    case WriteFails(c) => s.(calls := At(s, c, Leaving))
    case Finish(c) => s.(calls := At(s, c, Leaving))
    case Unlink(c) => s.(calls := At(s, c, Done), lock := None)
    case Read(c) => s.(calls := At(s, c, HasRead(s.lock.value.body, s.lock.value.owner)))
    case JudgeDead(c) => s.(calls := At(s, c, Doomed(s.calls[c].phase.seen)))
    case JudgeStale(c) => s.(calls := At(s, c, Doomed(s.calls[c].phase.seen)))
    case JudgeByMtime(c) => s.(calls := At(s, c, Doomed(s.lock.value.owner)))
    case KeepWaiting(c) => s.(calls := At(s, c, Trying))
    case StealUnlink(c) => s.(calls := At(s, c, Trying), lock := None)
    case TimeOut(c) => s.(calls := At(s, c, Done))
    case Crash(pid) => s.(dead := s.dead + {pid})
    case Tick => s.(now := s.now + 1)
  }

  // ----- the hypotheses -----

  /** Live holders are through within the stale time. */
  ghost predicate Timely(s: State, staleMs: nat) {
    forall c: nat :: Holds(s, c) && Live(s, c) ==> s.now - s.calls[c].openedAt <= staleMs
  }

  /** A steal removes the very file it judged, if any: its three steps might as well be one. */
  ghost predicate StealsWhatItJudged(s: State, a: Action) {
    a.StealUnlink? && a.c < |s.calls| && s.calls[a.c].phase.Doomed? && s.lock.Some? ==>
      s.lock.value.owner == s.calls[a.c].phase.seen
  }

  ghost predicate IsRun(s: State, actions: seq<Action>, staleMs: nat)
    decreases |actions|
  {
    actions == [] || (Enabled(s, actions[0], staleMs) && IsRun(Apply(s, actions[0], staleMs), actions[1..], staleMs))
  }

  ghost function After(s: State, actions: seq<Action>, staleMs: nat): State
    requires IsRun(s, actions, staleMs)
    decreases |actions|
  {
    if actions == [] then s else After(Apply(s, actions[0], staleMs), actions[1..], staleMs)
  }

  /** Every state of the run is timely and every steal removes what it judged. */
  ghost predicate Disciplined(s: State, actions: seq<Action>, staleMs: nat)
    requires IsRun(s, actions, staleMs)
    decreases |actions|
  {
    && Timely(s, staleMs)
    && (actions != [] ==>
          && StealsWhatItJudged(s, actions[0])
          && Disciplined(Apply(s, actions[0], staleMs), actions[1..], staleMs))
  }

  // ----- the invariant -----

  /** The file at the path belongs to a call that is between its open and its unlink. */
  ghost predicate FileHasHolder(s: State) {
    s.lock.Some? ==>
      var f := s.lock.value;
      && Holds(s, f.owner)
      && s.now >= f.mtime >= s.calls[f.owner].openedAt
      && (f.body.Some? ==> f.body.value.pid == s.calls[f.owner].pid && f.body.value.created_at >= s.calls[f.owner].openedAt)
  }

  /** Every live holder's file is at the path. */
  ghost predicate HoldersHaveFile(s: State) {
    forall c: nat :: Holds(s, c) && Live(s, c) ==> s.lock.Some? && s.lock.value.owner == c
  }

  /** What a waiting call has read of the file is still true of it. */
  ghost predicate ReadingsTrue(s: State) {
    forall c: nat :: c < |s.calls| && s.calls[c].phase.HasRead? && s.calls[c].phase.body.Some? ==>
      var h, body := s.calls[c].phase.seen, s.calls[c].phase.body.value;
      h < |s.calls| && body.pid == s.calls[h].pid && body.created_at >= s.calls[h].openedAt
        && !s.calls[h].phase.Trying? && !s.calls[h].phase.HasRead? && !s.calls[h].phase.Doomed?
  }

  /** A call about to steal has judged a holder that is dead, or has held the lock for too long. */
  ghost predicate VerdictsSound(s: State, staleMs: nat) {
    forall c: nat :: c < |s.calls| && s.calls[c].phase.Doomed? ==>
      var h := s.calls[c].phase.seen;
      h < |s.calls| && (s.calls[h].pid in s.dead || IsStale(s, s.calls[h].openedAt, staleMs))
        && !s.calls[h].phase.Trying? && !s.calls[h].phase.HasRead? && !s.calls[h].phase.Doomed?
  }

  ghost predicate Inv(s: State, staleMs: nat) {
    FileHasHolder(s) && HoldersHaveFile(s) && ReadingsTrue(s) && VerdictsSound(s, staleMs)
  }

  lemma StepKeepsFile(s: State, a: Action, staleMs: nat)
    requires Inv(s, staleMs) && Enabled(s, a, staleMs)
    requires Timely(s, staleMs) && StealsWhatItJudged(s, a)
    ensures FileHasHolder(Apply(s, a, staleMs)) && HoldersHaveFile(Apply(s, a, staleMs))
  {
    var t := Apply(s, a, staleMs);
    forall c: nat | Holds(t, c) && Live(t, c) ensures t.lock.Some? && t.lock.value.owner == c {
      if !(a == Open(c)) { assert Holds(s, c) && Live(s, c); }
    }
  }

  lemma StepKeepsReadings(s: State, a: Action, staleMs: nat)
    requires Inv(s, staleMs) && Enabled(s, a, staleMs)
    ensures ReadingsTrue(Apply(s, a, staleMs))
  {
  }

  lemma StepKeepsVerdicts(s: State, a: Action, staleMs: nat)
    requires Inv(s, staleMs) && Enabled(s, a, staleMs)
    ensures VerdictsSound(Apply(s, a, staleMs), staleMs)
  {
  }

  lemma {:induction false} RunKeepsInv(s: State, actions: seq<Action>, staleMs: nat)
    requires Inv(s, staleMs) && IsRun(s, actions, staleMs) && Disciplined(s, actions, staleMs)
    ensures Inv(After(s, actions, staleMs), staleMs)
    decreases |actions|
  {
    if actions != [] {
      StepKeepsFile(s, actions[0], staleMs);
      StepKeepsReadings(s, actions[0], staleMs);
      StepKeepsVerdicts(s, actions[0], staleMs);
      RunKeepsInv(Apply(s, actions[0], staleMs), actions[1..], staleMs);
    }
  }

  /** At most one live call is anywhere between its open and its unlink, and so inside `fn`. */
  lemma MutualExclusion(actions: seq<Action>, staleMs: nat, c: nat, d: nat)
    requires IsRun(START, actions, staleMs) && Disciplined(START, actions, staleMs)
    requires var s := After(START, actions, staleMs); Holds(s, c) && Live(s, c) && Holds(s, d) && Live(s, d)
    ensures c == d
  {
    RunKeepsInv(START, actions, staleMs);
  }

  // ----- without steals -----

  ghost predicate NoSteals(actions: seq<Action>) {
    forall i :: 0 <= i < |actions| ==> !actions[i].StealUnlink?
  }

  /** The file exists exactly while some call, live or crashed, is between its open and its unlink. */
  ghost predicate FileIffHolder(s: State) {
    && FileHasHolder(s)
    && forall c: nat :: Holds(s, c) ==> s.lock.Some? && s.lock.value.owner == c
  }

  lemma {:induction false} NoStealRun(s: State, actions: seq<Action>, staleMs: nat)
    requires FileIffHolder(s) && IsRun(s, actions, staleMs) && NoSteals(actions)
    ensures FileIffHolder(After(s, actions, staleMs))
    decreases |actions|
  {
    if actions != [] {
      var a := actions[0];
      var t := Apply(s, a, staleMs);
      assert !a.StealUnlink?;
      assert a.Unlink? ==> Holds(s, a.c);
      forall c: nat | Holds(t, c) ensures t.lock.Some? && t.lock.value.owner == c {
        if !(a == Open(c)) { assert Holds(s, c); }
      }
      NoStealRun(t, actions[1..], staleMs);
    }
  }

  /** As long as nobody steals, the lock file is there exactly when exactly one call holds it. */
  lemma FileExistsIffHeld(actions: seq<Action>, staleMs: nat)
    requires IsRun(START, actions, staleMs) && NoSteals(actions)
    ensures var s := After(START, actions, staleMs);
            && (s.lock.Some? <==> exists c: nat :: Holds(s, c))
            && (forall c: nat, d: nat :: Holds(s, c) && Holds(s, d) ==> c == d)
  {
    NoStealRun(START, actions, staleMs);
    var s := After(START, actions, staleMs);
    if s.lock.Some? { assert Holds(s, s.lock.value.owner); }
  }

  // ----- a dead holder does not block the lock for good -----

  /** Once a holder that has written its body is dead, any other waiting call can get the lock. */
  lemma DeadHolderIsRecovered(s: State, c: nat, staleMs: nat) returns (actions: seq<Action>)
    requires FileHasHolder(s) && s.lock.Some? && s.lock.value.body.Some?
    requires s.lock.value.body.value.pid in s.dead
    requires Live(s, c) && s.calls[c].phase.Trying?
    ensures IsRun(s, actions, staleMs)
    ensures var t := After(s, actions, staleMs);
            Live(t, c) && t.calls[c].phase.Inside? && t.lock == Some(File(c, Some(Body(s.calls[c].pid, s.now)), s.now))
  {
    actions := [Read(c), JudgeDead(c), StealUnlink(c), Open(c), Write(c)];
    var s1 := Apply(s, Read(c), staleMs);
    var s2 := Apply(s1, JudgeDead(c), staleMs);
    var s3 := Apply(s2, StealUnlink(c), staleMs);
    var s4 := Apply(s3, Open(c), staleMs);
    var s5 := Apply(s4, Write(c), staleMs);
    TraceIsRun([s, s1, s2, s3, s4, s5], actions, staleMs);
  }

  /** States and actions in step: each action leads from its state to the next. */
  ghost predicate Traces(states: seq<State>, actions: seq<Action>, staleMs: nat) {
    && |states| == |actions| + 1
    && forall i :: 0 <= i < |actions| ==>
         Enabled(states[i], actions[i], staleMs) && Apply(states[i], actions[i], staleMs) == states[i + 1]
  }

  lemma {:induction false} TraceIsRun(states: seq<State>, actions: seq<Action>, staleMs: nat)
    requires Traces(states, actions, staleMs)
    ensures IsRun(states[0], actions, staleMs) && After(states[0], actions, staleMs) == states[|actions|]
    decreases |actions|
  {
    if actions != [] { TraceIsRun(states[1..], actions[1..], staleMs); }
  }

  // ----- what a waiter makes of the file it has read -----

  /**
   A waiter that has read a written body dooms the file exactly if the process named there is another
   one and dead, or more than the stale time has passed since it was written; otherwise it waits on.
   */
  lemma VerdictOnBody(s: State, c: nat, staleMs: nat)
    requires Live(s, c) && s.calls[c].phase.HasRead? && s.calls[c].phase.body.Some?
    ensures var body := s.calls[c].phase.body.value;
            var gone := (body.pid != s.calls[c].pid && body.pid in s.dead) || s.now - body.created_at > staleMs;
            && (Enabled(s, JudgeDead(c), staleMs) || Enabled(s, JudgeStale(c), staleMs) <==> gone)
            && (Enabled(s, KeepWaiting(c), staleMs) <==> !gone)
            && !Enabled(s, JudgeByMtime(c), staleMs)
            && (Enabled(s, JudgeDead(c), staleMs) ==> Apply(s, JudgeDead(c), staleMs).calls[c].phase.Doomed?)
            && (Enabled(s, JudgeStale(c), staleMs) ==> Apply(s, JudgeStale(c), staleMs).calls[c].phase.Doomed?)
            && (Enabled(s, KeepWaiting(c), staleMs) ==> Apply(s, KeepWaiting(c), staleMs).calls[c].phase.Trying?)
  {
  }

  /** One that has read no body goes by the time the file at the path has changed. */
  lemma VerdictOnEmpty(s: State, c: nat, staleMs: nat)
    requires Live(s, c) && s.calls[c].phase.HasRead? && s.calls[c].phase.body.None?
    ensures var gone := s.lock.Some? && s.now - s.lock.value.mtime > staleMs;
            && (Enabled(s, JudgeByMtime(c), staleMs) <==> gone)
            && (Enabled(s, KeepWaiting(c), staleMs) <==> !gone)
            && !Enabled(s, JudgeDead(c), staleMs) && !Enabled(s, JudgeStale(c), staleMs)
  {
  }

  // ----- steals in three steps are not safe -----

  /** A steal is safe exactly when the file it removes, if any, is not a live holder's. */
  lemma StealSafeIffNotHeld(s: State, c: nat, staleMs: nat)
    requires FileHasHolder(s) && HoldersHaveFile(s) && Enabled(s, StealUnlink(c), staleMs)
    ensures HoldersHaveFile(Apply(s, StealUnlink(c), staleMs)) <==> s.lock.None? || !Live(s, s.lock.value.owner)
  {
    var t := Apply(s, StealUnlink(c), staleMs);
    if s.lock.Some? && Live(s, s.lock.value.owner) {
      var h := s.lock.value.owner;
      assert Holds(t, h) && Live(t, h);
    }
    if s.lock.None? || !Live(s, s.lock.value.owner) {
      assert forall d: nat :: Holds(t, d) && Live(t, d) ==> Holds(s, d) && Live(s, d);
    }
  }

  lemma StepKeepsOwner(s: State, a: Action, staleMs: nat)
    requires FileHasHolder(s) && Enabled(s, a, staleMs)
    ensures FileHasHolder(Apply(s, a, staleMs))
  {
  }

  lemma OtherStepsAreSafe(s: State, a: Action, staleMs: nat)
    requires HoldersHaveFile(s) && Enabled(s, a, staleMs) && !a.StealUnlink?
    ensures HoldersHaveFile(Apply(s, a, staleMs))
  {
    var t := Apply(s, a, staleMs);
    forall c: nat | Holds(t, c) && Live(t, c) ensures t.lock.Some? && t.lock.value.owner == c {
      if !(a == Open(c)) { assert Holds(s, c) && Live(s, c); }
    }
  }

  /** No steal of the run takes away the file of a live call. */
  ghost predicate StealsSpareTheLiving(s: State, actions: seq<Action>, staleMs: nat)
    requires IsRun(s, actions, staleMs)
    decreases |actions|
  {
    actions != [] ==>
      && (actions[0].StealUnlink? && s.lock.Some? ==> !Live(s, s.lock.value.owner))
      && StealsSpareTheLiving(Apply(s, actions[0], staleMs), actions[1..], staleMs)
  }

  /** At every state of the run every live holder's file is at the path. */
  ghost predicate AlwaysHeld(s: State, actions: seq<Action>, staleMs: nat)
    requires IsRun(s, actions, staleMs)
    decreases |actions|
  {
    && HoldersHaveFile(s)
    && (actions != [] ==> AlwaysHeld(Apply(s, actions[0], staleMs), actions[1..], staleMs))
  }

  lemma {:induction false} AlwaysHeldFrom(s: State, actions: seq<Action>, staleMs: nat)
    requires FileHasHolder(s) && HoldersHaveFile(s) && IsRun(s, actions, staleMs)
    ensures AlwaysHeld(s, actions, staleMs) <==> StealsSpareTheLiving(s, actions, staleMs)
    decreases |actions|
  {
    if actions != [] {
      var a := actions[0];
      var t := Apply(s, a, staleMs);
      StepKeepsOwner(s, a, staleMs);
      if a.StealUnlink? { StealSafeIffNotHeld(s, a.c, staleMs); } else { OtherStepsAreSafe(s, a, staleMs); }
      if HoldersHaveFile(t) { AlwaysHeldFrom(t, actions[1..], staleMs); }
    }
  }

  /**
   In every run, whatever time passes, every live holder keeps its file at the path throughout if and
   only if every steal finds the path empty or the file's owner dead.
   */
  lemma HeldIffStealsSpareTheLiving(actions: seq<Action>, staleMs: nat)
    requires IsRun(START, actions, staleMs)
    ensures AlwaysHeld(START, actions, staleMs) <==> StealsSpareTheLiving(START, actions, staleMs)
  {
    AlwaysHeldFrom(START, actions, staleMs);
  }

  lemma {:induction false} HeldAtEnd(s: State, actions: seq<Action>, staleMs: nat)
    requires IsRun(s, actions, staleMs) && AlwaysHeld(s, actions, staleMs)
    ensures HoldersHaveFile(After(s, actions, staleMs))
    decreases |actions|
  {
    if actions != [] { HeldAtEnd(Apply(s, actions[0], staleMs), actions[1..], staleMs); }
  }

  /** And then at most one live call is between its open and its unlink, with no hypothesis about time. */
  lemma ExclusionIfStealsSpareTheLiving(actions: seq<Action>, staleMs: nat, c: nat, d: nat)
    requires IsRun(START, actions, staleMs) && StealsSpareTheLiving(START, actions, staleMs)
    requires var s := After(START, actions, staleMs); Holds(s, c) && Live(s, c) && Holds(s, d) && Live(s, d)
    ensures c == d
  {
    HeldIffStealsSpareTheLiving(actions, staleMs);
    HeldAtEnd(START, actions, staleMs);
  }

  /** Timely holders and steals of what was judged are one way to spare the living. */
  lemma {:induction false} DisciplinedSparesTheLiving(s: State, actions: seq<Action>, staleMs: nat)
    requires Inv(s, staleMs) && IsRun(s, actions, staleMs) && Disciplined(s, actions, staleMs)
    ensures StealsSpareTheLiving(s, actions, staleMs)
    decreases |actions|
  {
    if actions != [] {
      var a := actions[0];
      StepKeepsFile(s, a, staleMs);
      StepKeepsReadings(s, a, staleMs);
      StepKeepsVerdicts(s, a, staleMs);
      if a.StealUnlink? { StealSafeIffNotHeld(s, a.c, staleMs); }
      DisciplinedSparesTheLiving(Apply(s, a, staleMs), actions[1..], staleMs);
    }
  }

  /** After such a steal the thief's open and write succeed, and two live calls are inside at once. */
  lemma UnsafeStealLetsTwoIn(s: State, c: nat, h: nat, staleMs: nat)
    requires Enabled(s, StealUnlink(c), staleMs)
    requires Live(s, h) && s.calls[h].phase.Inside?
    ensures var s1 := Apply(s, StealUnlink(c), staleMs);
            && Enabled(s1, Open(c), staleMs)
            && var s2 := Apply(s1, Open(c), staleMs);
            && Enabled(s2, Write(c), staleMs)
            && var s3 := Apply(s2, Write(c), staleMs);
            Live(s3, h) && s3.calls[h].phase.Inside? && Live(s3, c) && s3.calls[c].phase.Inside? && c != h
  {
  }

  const DEAD_FILE := File(0, Some(Body(1, 0)), 0)

  function Thieves(first: Phase, second: Phase): seq<Call> {
    [Call(1, Inside, 0), Call(2, first, 0), Call(3, second, 0)]
  }

  /** A holder arrives with two others, opens, writes and crashes. */
  lemma HolderCrashes()
    ensures var actions := [Arrive(1), Arrive(2), Arrive(3), Open(0), Write(0), Crash(1)];
            && IsRun(START, actions, 0)
            && After(START, actions, 0) == State(Thieves(Trying, Trying), Some(DEAD_FILE), {1}, 0)
  {
    var c1, c2, c3 := Call(1, Trying, 0), Call(2, Trying, 0), Call(3, Trying, 0);
    TraceIsRun(
      [START,
       State([c1], None, {}, 0),
       State([c1, c2], None, {}, 0),
       State([c1, c2, c3], None, {}, 0),
       State([Call(1, Opened, 0), c2, c3], Some(File(0, None, 0)), {}, 0),
       State(Thieves(Trying, Trying), Some(DEAD_FILE), {}, 0),
       State(Thieves(Trying, Trying), Some(DEAD_FILE), {1}, 0)],
      [Arrive(1), Arrive(2), Arrive(3), Open(0), Write(0), Crash(1)], 0);
  }

  /** Both others read the dead holder's file and judge it. */
  lemma BothJudge()
    ensures var s := State(Thieves(Trying, Trying), Some(DEAD_FILE), {1}, 0);
            var actions := [Read(1), JudgeDead(1), Read(2), JudgeDead(2)];
            && IsRun(s, actions, 0)
            && After(s, actions, 0) == State(Thieves(Doomed(0), Doomed(0)), Some(DEAD_FILE), {1}, 0)
  {
    var read := HasRead(Some(Body(1, 0)), 0);
    TraceIsRun(
      [State(Thieves(Trying, Trying), Some(DEAD_FILE), {1}, 0),
       State(Thieves(read, Trying), Some(DEAD_FILE), {1}, 0),
       State(Thieves(Doomed(0), Trying), Some(DEAD_FILE), {1}, 0),
       State(Thieves(Doomed(0), read), Some(DEAD_FILE), {1}, 0),
       State(Thieves(Doomed(0), Doomed(0)), Some(DEAD_FILE), {1}, 0)],
      [Read(1), JudgeDead(1), Read(2), JudgeDead(2)], 0);
  }

  const STOLEN_FILE := File(1, Some(Body(2, 0)), 0)

  /** The first steals the dead holder's file and enters. */
  lemma FirstSteals()
    ensures var s := State(Thieves(Doomed(0), Doomed(0)), Some(DEAD_FILE), {1}, 0);
            var actions := [StealUnlink(1), Open(1), Write(1)];
            && IsRun(s, actions, 0)
            && After(s, actions, 0) == State(Thieves(Inside, Doomed(0)), Some(STOLEN_FILE), {1}, 0)
  {
    TraceIsRun(
      [State(Thieves(Doomed(0), Doomed(0)), Some(DEAD_FILE), {1}, 0),
       State(Thieves(Trying, Doomed(0)), None, {1}, 0),
       State(Thieves(Opened, Doomed(0)), Some(File(1, None, 0)), {1}, 0),
       State(Thieves(Inside, Doomed(0)), Some(STOLEN_FILE), {1}, 0)],
      [StealUnlink(1), Open(1), Write(1)], 0);
  }

  /** The second steals the first one's file and enters too. */
  lemma SecondSteals()
    ensures var s := State(Thieves(Inside, Doomed(0)), Some(STOLEN_FILE), {1}, 0);
            var actions := [StealUnlink(2), Open(2), Write(2)];
            && IsRun(s, actions, 0)
            && After(s, actions, 0) == State(Thieves(Inside, Inside), Some(File(2, Some(Body(3, 0)), 0)), {1}, 0)
  {
    TraceIsRun(
      [State(Thieves(Inside, Doomed(0)), Some(STOLEN_FILE), {1}, 0),
       State(Thieves(Inside, Trying), None, {1}, 0),
       State(Thieves(Inside, Opened), Some(File(2, None, 0)), {1}, 0),
       State(Thieves(Inside, Inside), Some(File(2, Some(Body(3, 0)), 0)), {1}, 0)],
      [StealUnlink(2), Open(2), Write(2)], 0);
  }

  /**
   And it happens: two waiters read the file of a dead holder; the first steals it and enters, the
   second then steals the first one's file and enters too. No time passes in this run.
   */
  lemma TwoThievesGetIn()
    ensures var actions :=
              [Arrive(1), Arrive(2), Arrive(3), Open(0), Write(0), Crash(1)] +
              ([Read(1), JudgeDead(1), Read(2), JudgeDead(2)] +
               ([StealUnlink(1), Open(1), Write(1)] + [StealUnlink(2), Open(2), Write(2)]));
            && IsRun(START, actions, 0)
            && var s := After(START, actions, 0);
            Live(s, 1) && s.calls[1].phase.Inside? && Live(s, 2) && s.calls[2].phase.Inside? && s.now == 0
  {
    HolderCrashes();
    BothJudge();
    FirstSteals();
    SecondSteals();
    var judging := [Read(1), JudgeDead(1), Read(2), JudgeDead(2)];
    var first, second := [StealUnlink(1), Open(1), Write(1)], [StealUnlink(2), Open(2), Write(2)];
    RunAppend(State(Thieves(Doomed(0), Doomed(0)), Some(DEAD_FILE), {1}, 0), first, second, 0);
    RunAppend(State(Thieves(Trying, Trying), Some(DEAD_FILE), {1}, 0), judging, first + second, 0);
    RunAppend(START, [Arrive(1), Arrive(2), Arrive(3), Open(0), Write(0), Crash(1)], judging + (first + second), 0);
  }

  lemma {:induction false} RunAppend(s: State, a: seq<Action>, b: seq<Action>, staleMs: nat)
    requires IsRun(s, a, staleMs) && IsRun(After(s, a, staleMs), b, staleMs)
    ensures IsRun(s, a + b, staleMs) && After(s, a + b, staleMs) == After(After(s, a, staleMs), b, staleMs)
    decreases |a|
  {
    if a == [] {
      assert a + b == b;
    } else {
      assert (a + b)[1..] == a[1..] + b;
      RunAppend(Apply(s, a[0], staleMs), a[1..], b, staleMs);
    }
  }
}
