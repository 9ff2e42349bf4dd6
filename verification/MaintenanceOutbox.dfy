/**
 Handing Buffer contexts to the outbox: scheduling with one flight per request at a time, and the
 replay of everything pending at start-up.

 A flight looks for an existing delivery, then reads the Buffer, then submits: three steps, with
 steps of other flights and of the two stores between them.
 */
module MaintenanceOutbox {
  import opened Wrappers
  import opened Decimal
  import opened IntSorting
  import opened DeliveryLifecycle
  import opened DeliveryArchive

  // ----- delivery keys -----

  const SCHEMA_VERSION := "context-delivery.v1"

  function ContextDeliveryKey(key: Key): string {
    key.role + ":" + Print(key.seqNo) + ":" + SCHEMA_VERSION
  }

  /** Different Buffers have different delivery keys, even when role names contain colons. */
  lemma DeliveryKeysDiffer(a: Key, b: Key)
    requires ContextDeliveryKey(a) == ContextDeliveryKey(b)
    ensures a == b
  {
    var p, q := a.role + ":", b.role + ":";
    var suffix := ":" + SCHEMA_VERSION;
    var s, t := p + Print(a.seqNo), q + Print(b.seqNo);
    assert ContextDeliveryKey(a) == s + suffix && ContextDeliveryKey(b) == t + suffix;
    assert s == (s + suffix)[..|s|] && t == (t + suffix)[..|t|];
    TrailingDigitsUnique(p, Print(a.seqNo), q, Print(b.seqNo));
    PrintThenValue(a.seqNo);
    PrintThenValue(b.seqNo);
    assert a.role == p[..|p| - 1] && b.role == q[..|q| - 1];
  }

  /** Role, number and version of the schema, between colons. */
  lemma DeliveryKeyText(key: Key)
    ensures ContextDeliveryKey(key) == key.role + ":" + Print(key.seqNo) + ":context-delivery.v1"
  {
    assert ":" + SCHEMA_VERSION == ":context-delivery.v1";
    assert ContextDeliveryKey(key) == key.role + ":" + Print(key.seqNo) + (":" + SCHEMA_VERSION);
  }

  // ----- flights -----

  datatype Phase = Started | NotFound | Readable(task: string) | Landed(evidence: Evidence)

  /** Requests for the same Buffer and task share a flight; others for the same Buffer do not. */
  datatype Flight = Flight(key: Key, task: string)

  datatype Outbox = Outbox(stores: Stores, flights: map<Flight, Phase>)

  datatype Action =
    | Schedule(flight: Flight)
    | LookUp(flight: Flight)
    | ReadBuffer(flight: Flight)
    | SubmitStep(flight: Flight, now: nat)
    | Clear(flight: Flight)
    | Elsewhere(step: DeliveryArchive.Action)

  predicate IsIn(o: Outbox, flight: Flight, phase: Phase) {
    flight in o.flights && o.flights[flight] == phase
  }

  /** Deliveries are submitted by flights only. */
  predicate Enabled(o: Outbox, a: Action) {
    match a
    case Schedule(_) => true
    case LookUp(f) => IsIn(o, f, Started)
    case ReadBuffer(f) => IsIn(o, f, NotFound)
    case SubmitStep(f, _) => f in o.flights && o.flights[f].Readable?
    case Clear(f) => f in o.flights && o.flights[f].Landed?
    case Elsewhere(step) =>
      DeliveryArchive.Enabled(o.stores, step) && !(step.AskDelivery? && step.request.Submit?)
  }

  function Apply(o: Outbox, a: Action, policy: RetryPolicy): Outbox
    requires Enabled(o, a)
  {
    match a
    case Schedule(f) => if f in o.flights then o else o.(flights := o.flights[f := Started])
    case LookUp(f) =>
      o.(flights := o.flights[f := if f.key in o.stores.delivery.deliveries then Landed(Scheduled(false)) else NotFound])
    case ReadBuffer(f) =>
      o.(flights := o.flights[f :=
        if f.key.seqNo == 0 || !IsAt(o.stores.buffers, f.key, InPending) then Landed(SkippedNoBuffer)
        else if o.stores.buffers[f.key].context.Unreadable? then Landed(FailedUnreadable)
        else Readable(o.stores.buffers[f.key].task_id)])
    case SubmitStep(f, now) =>
      var request := Submit(f.task);
      var created := Succeeds(o.stores.delivery, f.key, request, now, policy);
      Outbox(o.stores.(delivery := Ask(o.stores.delivery, f.key, request, now, policy)),
             o.flights[f := Landed(Scheduled(created))])
    case Clear(f) => o.(flights := o.flights - {f})
    case Elsewhere(step) => o.(stores := DeliveryArchive.Apply(o.stores, step, policy))
  }

  ghost predicate IsRun(o: Outbox, actions: seq<Action>, policy: RetryPolicy)
    decreases |actions|
  {
    actions == [] || (Enabled(o, actions[0]) && IsRun(Apply(o, actions[0], policy), actions[1..], policy))
  }

  ghost function After(o: Outbox, actions: seq<Action>, policy: RetryPolicy): Outbox
    requires IsRun(o, actions, policy)
    decreases |actions|
  {
    if actions == [] then o else After(Apply(o, actions[0], policy), actions[1..], policy)
  }

  /** A Buffer that was stored whole, under a proper number. */
  predicate Deliverable(o: Outbox, key: Key) {
    key.seqNo > 0 && key in o.stores.buffers && !o.stores.buffers[key].context.Unreadable?
  }

  ghost predicate Inv(o: Outbox) {
    && (forall key :: key in o.stores.delivery.deliveries ==> Deliverable(o, key))
    && (forall f :: f in o.flights && o.flights[f].Readable? ==> Deliverable(o, f.key))
    && (forall f :: f in o.flights && o.flights[f].Landed? && o.flights[f].evidence.Scheduled? ==>
          f.key in o.stores.delivery.deliveries)
  }

  lemma StaysDeliverable(o: Outbox, a: Action, policy: RetryPolicy, key: Key)
    requires Enabled(o, a) && Deliverable(o, key)
    ensures Deliverable(Apply(o, a, policy), key)
  {
  }

  lemma StaysDelivered(o: Outbox, a: Action, policy: RetryPolicy, key: Key)
    requires Enabled(o, a) && key in o.stores.delivery.deliveries
    ensures key in Apply(o, a, policy).stores.delivery.deliveries
  {
  }

  lemma DeliveredBySubmit(o: Outbox, a: Action, policy: RetryPolicy, key: Key)
    requires Enabled(o, a)
    requires key !in o.stores.delivery.deliveries && key in Apply(o, a, policy).stores.delivery.deliveries
    ensures a.SubmitStep? && key == a.flight.key
  {
  }

  lemma StepKeepsDeliveries(o: Outbox, a: Action, policy: RetryPolicy, key: Key)
    requires Inv(o) && Enabled(o, a) && key in Apply(o, a, policy).stores.delivery.deliveries
    ensures Deliverable(Apply(o, a, policy), key)
  {
    if key !in o.stores.delivery.deliveries { DeliveredBySubmit(o, a, policy, key); }
    StaysDeliverable(o, a, policy, key);
  }

  lemma StepKeepsReadable(o: Outbox, a: Action, policy: RetryPolicy, f: Flight)
    requires Inv(o) && Enabled(o, a)
    requires f in Apply(o, a, policy).flights && Apply(o, a, policy).flights[f].Readable?
    ensures Deliverable(Apply(o, a, policy), f.key)
  {
    assert Deliverable(o, f.key);
    StaysDeliverable(o, a, policy, f.key);
  }

  lemma StepKeepsLanded(o: Outbox, a: Action, policy: RetryPolicy, f: Flight)
    requires Inv(o) && Enabled(o, a)
    requires f in Apply(o, a, policy).flights && Apply(o, a, policy).flights[f].Landed?
    requires Apply(o, a, policy).flights[f].evidence.Scheduled?
    ensures f.key in Apply(o, a, policy).stores.delivery.deliveries
  {
    if f.key in o.stores.delivery.deliveries { StaysDelivered(o, a, policy, f.key); }
  }

  lemma StepKeepsInv(o: Outbox, a: Action, policy: RetryPolicy)
    requires Inv(o) && Enabled(o, a)
    ensures Inv(Apply(o, a, policy))
  {
    var p := Apply(o, a, policy);
    forall key | key in p.stores.delivery.deliveries ensures Deliverable(p, key) {
      StepKeepsDeliveries(o, a, policy, key);
    }
    forall f | f in p.flights && p.flights[f].Readable? ensures Deliverable(p, f.key) {
      StepKeepsReadable(o, a, policy, f);
    }
    forall f | f in p.flights && p.flights[f].Landed? && p.flights[f].evidence.Scheduled?
      ensures f.key in p.stores.delivery.deliveries
    {
      StepKeepsLanded(o, a, policy, f);
    }
  }

  /**
   In every run every delivery in the outbox is for a Buffer that is there and whole: none is ever
   created for a missing or unreadable one, and a flight that reports one has left one behind.
   */
  lemma {:induction false} OnlyWholeBuffersDelivered(o: Outbox, actions: seq<Action>, policy: RetryPolicy)
    requires Inv(o) && IsRun(o, actions, policy)
    ensures Inv(After(o, actions, policy))
    decreases |actions|
  {
    if actions != [] {
      StepKeepsInv(o, actions[0], policy);
      OnlyWholeBuffersDelivered(Apply(o, actions[0], policy), actions[1..], policy);
    }
  }

  /** Steps of flights never change a delivery that exists; only the delivery's own life does. */
  lemma {:induction false} FlightsKeepDeliveries(o: Outbox, actions: seq<Action>, policy: RetryPolicy, key: Key)
    requires IsRun(o, actions, policy) && key in o.stores.delivery.deliveries
    requires forall i :: 0 <= i < |actions| ==> !actions[i].Elsewhere?
    ensures var p := After(o, actions, policy);
            key in p.stores.delivery.deliveries && p.stores.delivery.deliveries[key] == o.stores.delivery.deliveries[key]
    decreases |actions|
  {
    if actions != [] { FlightsKeepDeliveries(Apply(o, actions[0], policy), actions[1..], policy, key); }
  }

  function Creations(o: Outbox, actions: seq<Action>, policy: RetryPolicy, key: Key): nat
    requires IsRun(o, actions, policy)
    decreases |actions|
  {
    if actions == [] then 0
    else
      var a := actions[0];
      (if a.SubmitStep? && a.flight.key == key && key !in o.stores.delivery.deliveries then 1 else 0) +
      Creations(Apply(o, a, policy), actions[1..], policy, key)
  }

  /** However many flights race for a Buffer, at most one of them creates its delivery. */
  lemma {:induction false} CreatedAtMostOnce(o: Outbox, actions: seq<Action>, policy: RetryPolicy, key: Key)
    requires IsRun(o, actions, policy)
    ensures Creations(o, actions, policy, key) <= 1
    ensures key in o.stores.delivery.deliveries ==> Creations(o, actions, policy, key) == 0
    ensures key in After(o, actions, policy).stores.delivery.deliveries <==>
            key in o.stores.delivery.deliveries || Creations(o, actions, policy, key) == 1
    decreases |actions|
  {
    if actions != [] { CreatedAtMostOnce(Apply(o, actions[0], policy), actions[1..], policy, key); }
  }

  /**
   What a flight comes back with tells what it found, whatever happens in between: whether this very step
   created the delivery, or that there is no such Buffer in pending, or that its context cannot be read.
   */
  ghost predicate Tells(evidence: Evidence, before: Outbox, after: Outbox, key: Key) {
    match evidence
    case Scheduled(created) =>
      && key in after.stores.delivery.deliveries
      && (created <==> key !in before.stores.delivery.deliveries)
    case SkippedNoBuffer =>
      key.seqNo == 0 || key !in before.stores.buffers || !before.stores.buffers[key].location.InPending?
    case FailedUnreadable => key in before.stores.buffers && before.stores.buffers[key].context.Unreadable?
  }

  lemma LandingTells(o: Outbox, a: Action, policy: RetryPolicy, f: Flight, evidence: Evidence)
    requires Enabled(o, a)
    requires !(f in o.flights && o.flights[f].Landed?)
    requires IsIn(Apply(o, a, policy), f, Landed(evidence))
    ensures Tells(evidence, o, Apply(o, a, policy), f.key)
    ensures evidence.FailedUnreadable? ==> Apply(o, a, policy).stores == o.stores
    ensures evidence.SkippedNoBuffer? ==> Apply(o, a, policy).stores == o.stores
  {
  }

  // ----- what flights achieve whatever happens in between -----

  /** A pending, whole Buffer under a proper number, as replays look for. */
  predicate Offered(o: Outbox, key: Key) {
    key.seqNo > 0 && IsAt(o.stores.buffers, key, InPending) && !o.stores.buffers[key].context.Unreadable?
  }

  predicate IsDelivered(o: Outbox, key: Key) {
    key in o.stores.delivery.deliveries
  }

  predicate HasLanded(o: Outbox, f: Flight) {
    f in o.flights && o.flights[f].Landed?
  }

  ghost predicate SomeFlightLanded(o: Outbox, key: Key) {
    exists f: Flight :: f.key == key && HasLanded(o, f)
  }

  /** Still to be had or delivered already, and no flight has come back without a delivery. */
  ghost predicate OnItsWay(o: Outbox, key: Key) {
    && ArchiveAfterProcessed(o.stores)
    && (IsDelivered(o, key) || Offered(o, key))
    && (SomeFlightLanded(o, key) ==> IsDelivered(o, key))
  }

  lemma StepArchives(o: Outbox, a: Action, policy: RetryPolicy)
    requires Enabled(o, a) && ArchiveAfterProcessed(o.stores)
    ensures ArchiveAfterProcessed(Apply(o, a, policy).stores)
  {
    match a
    case SubmitStep(f, now) =>
      StepArchivesAfterProcessed(o.stores, AskDelivery(f.key, Submit(f.task), now), policy);
    case Elsewhere(step) => StepArchivesAfterProcessed(o.stores, step, policy);
    case _ =>
  }

  /** Only a burial takes an undelivered Buffer away: an archive comes after the delivery is processed. */
  lemma StaysOffered(o: Outbox, a: Action, policy: RetryPolicy, key: Key)
    requires Enabled(o, a) && OnItsWay(o, key) && a != Elsewhere(Bury(key))
    ensures IsDelivered(Apply(o, a, policy), key) || Offered(Apply(o, a, policy), key)
  {
    if IsDelivered(o, key) { StaysDelivered(o, a, policy, key); }
  }

  lemma LandsDelivered(o: Outbox, a: Action, policy: RetryPolicy, f: Flight)
    requires Enabled(o, a) && OnItsWay(o, f.key) && HasLanded(Apply(o, a, policy), f)
    ensures IsDelivered(Apply(o, a, policy), f.key)
  {
    if IsDelivered(o, f.key) { StaysDelivered(o, a, policy, f.key); }
  }

  lemma StepOnItsWay(o: Outbox, a: Action, policy: RetryPolicy, key: Key)
    requires Enabled(o, a) && OnItsWay(o, key) && a != Elsewhere(Bury(key))
    ensures OnItsWay(Apply(o, a, policy), key)
  {
    var p := Apply(o, a, policy);
    StepArchives(o, a, policy);
    StaysOffered(o, a, policy, key);
    if SomeFlightLanded(p, key) {
      var f: Flight :| f.key == key && HasLanded(p, f);
      LandsDelivered(o, a, policy, f);
    }
  }

  /** At some state of the run a flight for the Buffer has come back. */
  ghost predicate Lands(o: Outbox, actions: seq<Action>, policy: RetryPolicy, key: Key)
    requires IsRun(o, actions, policy)
    decreases |actions|
  {
    SomeFlightLanded(o, key) || (actions != [] && Lands(Apply(o, actions[0], policy), actions[1..], policy, key))
  }

  /**
   A flight never misses a Buffer: whatever steps of other flights, of the downstream and of the
   archive fall between its own, once it has landed the delivery is there, unless the Buffer was buried.
   */
  lemma {:induction false} LandedIsDelivered(o: Outbox, actions: seq<Action>, policy: RetryPolicy, key: Key)
    requires IsRun(o, actions, policy) && OnItsWay(o, key)
    requires forall i :: 0 <= i < |actions| ==> actions[i] != Elsewhere(Bury(key))
    ensures Lands(o, actions, policy, key) ==> IsDelivered(After(o, actions, policy), key)
    decreases |actions|
  {
    if IsDelivered(o, key) {
      CreatedAtMostOnce(o, actions, policy, key);
    } else if actions != [] {
      StepOnItsWay(o, actions[0], policy, key);
      LandedIsDelivered(Apply(o, actions[0], policy), actions[1..], policy, key);
    }
  }

  /** A flight of the run submits for the Buffer. */
  predicate Submits(actions: seq<Action>, key: Key) {
    exists i :: 0 <= i < |actions| && actions[i].SubmitStep? && actions[i].flight.key == key
  }

  lemma {:induction false} NoSubmitNoCreation(o: Outbox, actions: seq<Action>, policy: RetryPolicy, key: Key)
    requires IsRun(o, actions, policy) && !Submits(actions, key)
    ensures Creations(o, actions, policy, key) == 0
    decreases |actions|
  {
    if actions != [] {
      var tail := actions[1..];
      assert !Submits(tail, key);
      assert !(actions[0].SubmitStep? && actions[0].flight.key == key);
      NoSubmitNoCreation(Apply(o, actions[0], policy), tail, policy, key);
    }
  }

  /**
   A replay that has landed for each of its Buffers has delivered them all; repeated, with anything
   in between and during it, it adds no delivery.
   */
  lemma RepeatedReplayAddsNothing(o: Outbox, first: seq<Action>, second: seq<Action>, policy: RetryPolicy, keys: set<Key>)
    requires IsRun(o, first, policy) && IsRun(After(o, first, policy), second, policy)
    requires forall key :: key in keys ==> OnItsWay(o, key) && Lands(o, first, policy, key)
    requires forall i, key :: 0 <= i < |first| && key in keys ==> first[i] != Elsewhere(Bury(key))
    requires forall key :: Submits(second, key) ==> key in keys
    ensures var p := After(o, first, policy);
            && keys <= p.stores.delivery.deliveries.Keys
            && After(p, second, policy).stores.delivery.deliveries.Keys == p.stores.delivery.deliveries.Keys
  {
    var p := After(o, first, policy);
    forall key | key in keys ensures IsDelivered(p, key) {
      LandedIsDelivered(o, first, policy, key);
    }
    forall key ensures IsDelivered(After(p, second, policy), key) <==> IsDelivered(p, key) {
      CreatedAtMostOnce(p, second, policy, key);
      if !Submits(second, key) { NoSubmitNoCreation(p, second, policy, key); }
    }
    assert forall key :: key in After(p, second, policy).stores.delivery.deliveries.Keys <==>
                         IsDelivered(After(p, second, policy), key);
  }

  // ----- replaying everything pending -----

  /** The Buffers a replay hands over: pending, whole, readable, and of a role that can be listed. */
  function Replayable(s: Stores, roles: seq<string>, unlistable: set<string>, throwing: set<Key>): set<Key> {
    set key | key in s.buffers && key.role in roles && key.role !in unlistable && key !in throwing
              && key.seqNo > 0 && IsAt(s.buffers, key, InPending) && !s.buffers[key].context.Unreadable?
  }

  /** The Buffers a replay reports as failed: pending, but reading them throws or their context is unreadable. */
  function Failing(s: Stores, roles: seq<string>, unlistable: set<string>, throwing: set<Key>): set<Key> {
    set key | key in s.buffers && key.role in roles && key.role !in unlistable && IsAt(s.buffers, key, InPending)
              && (key in throwing || s.buffers[key].context.Unreadable?)
  }

  datatype ReplayResult =
    | ListingFailed(role: string)
    | ReadFailed(key: Key)
    | Replayed(key: Key, evidence: Evidence)

  class BMemoryMaintenanceRunner {
    const service: BMemoryBackendService

    constructor (service: BMemoryBackendService)
      ensures this.service == service
    {
      this.service := service;
    }

    method ListPendingBufferSeqs(role: string) returns (seqs: seq<nat>)
      ensures forall n :: n in seqs <==> IsAt(service.buffers, Key(role, n), InPending)
      ensures forall i, j :: 0 <= i < j < |seqs| ==> seqs[i] < seqs[j]
    {
      var found: set<int> := set key | key in service.buffers && key.role == role && service.buffers[key].location == InPending
                               :: key.seqNo as int;
      var sorted := SortKeys(found);
      seqs := [];
      for i := 0 to |sorted|
        invariant forall n: int :: n in seqs <==> n in sorted[..i]
        invariant |seqs| == i && forall k :: 0 <= k < i ==> seqs[k] == sorted[k]
      {
        assert sorted[i] in sorted && sorted[i] in found;
        assert sorted[..i + 1] == sorted[..i] + [sorted[i]];
        seqs := seqs + [sorted[i]];
      }
      assert sorted[..|sorted|] == sorted;
      forall n: nat ensures n in seqs <==> IsAt(service.buffers, Key(role, n), InPending) {
        assert n in found <==> IsAt(service.buffers, Key(role, n), InPending) by {
          if IsAt(service.buffers, Key(role, n), InPending) { assert Key(role, n).seqNo == n; }
        }
      }
    }

    /** One pending Buffer: a failure to read it is its own result and stops nothing else. */
    method ReplayOne(key: Key, now: nat, throws: bool) returns (result: ReplayResult)
      requires IsAt(service.buffers, key, InPending)
      modifies service`delivery
      ensures Delivered(old(service.delivery.deliveries), service.delivery.deliveries, service.buffers,
                        One(service.buffers, key, if throws then {key} else {}), now)
      ensures result == if throws || service.buffers[key].context.Unreadable? then ReadFailed(key)
                        else Replayed(key, SubmitEffect(old(service.View()), key, now, service.policy).1)
    {
      if throws { return ReadFailed(key); }
      if service.buffers[key].context == Unreadable { return ReadFailed(key); }
      var created, evidence := service.SubmitContextDelivery(key, now);
      return Replayed(key, evidence);
    }

    method ReplayRole(role: string, now: nat, throwing: set<Key>) returns (results: seq<ReplayResult>)
      modifies service`delivery
      ensures Delivered(old(service.delivery.deliveries), service.delivery.deliveries, service.buffers,
                        Replayable(old(service.View()), [role], {}, throwing), now)
      ensures forall key :: ReadFailed(key) in results <==> key in Failing(service.View(), [role], {}, throwing)
      ensures forall r :: ListingFailed(r) !in results
      ensures CreationsReported(results, old(service.delivery.deliveries),
                                Replayable(old(service.View()), [role], {}, throwing))
    {
      ghost var start := service.View();
      var seqs := ListPendingBufferSeqs(role);
      results := [];
      for i := 0 to |seqs|
        invariant service.buffers == start.buffers
        invariant RoleSoFar(results, start, service.delivery.deliveries, role, seqs[..i], throwing, now)
      {
        assert seqs[i] in seqs;
        var key := Key(role, seqs[i]);
        ghost var before := service.delivery.deliveries;
        var result := ReplayOne(key, now, key in throwing);
        RoleOneMore(results, result, start, before, service.delivery.deliveries, role, seqs[..i], seqs[i], throwing, now);
        assert seqs[..i + 1] == seqs[..i] + [seqs[i]];
        results := results + [result];
      }
      assert seqs[..|seqs|] == seqs;
      assert ReplayableAt(start, role, seqs, throwing) == Replayable(start, [role], {}, throwing);
      assert Failing(service.View(), [role], {}, throwing) == Failing(start, [role], {}, throwing);
    }

    /**
     Every replayable Buffer has a delivery afterwards, whatever other roles cannot be listed and
     other Buffers cannot be read; nothing else gets one, and no existing delivery changes.
     */
    method ReplayPending(roles: seq<string>, now: nat, unlistable: set<string>, throwing: set<Key>)
      returns (results: seq<ReplayResult>)
      modifies service`delivery
      ensures Delivered(old(service.delivery.deliveries), service.delivery.deliveries, service.buffers,
                        Replayable(old(service.View()), roles, unlistable, throwing), now)
      ensures forall key :: ReadFailed(key) in results <==> key in Failing(service.View(), roles, unlistable, throwing)
      ensures forall r :: ListingFailed(r) in results <==> r in roles && r in unlistable
      ensures CreationsReported(results, old(service.delivery.deliveries),
                                Replayable(old(service.View()), roles, unlistable, throwing))
    {
      ghost var start := service.View();
      results := [];
      for i := 0 to |roles|
        invariant service.buffers == start.buffers
        invariant Delivered(start.delivery.deliveries, service.delivery.deliveries, service.buffers,
                            Replayable(start, roles[..i], unlistable, throwing), now)
        invariant forall key :: ReadFailed(key) in results <==> key in Failing(start, roles[..i], unlistable, throwing)
        invariant forall r :: ListingFailed(r) in results <==> r in roles[..i] && r in unlistable
        invariant CreationsReported(results, start.delivery.deliveries, Replayable(start, roles[..i], unlistable, throwing))
      {
        assert roles[..i + 1] == roles[..i] + [roles[i]];
        if roles[i] in unlistable {
          results := results + [ListingFailed(roles[i])];
          assert Replayable(start, roles[..i + 1], unlistable, throwing) == Replayable(start, roles[..i], unlistable, throwing);
        } else {
          ghost var before := service.delivery.deliveries;
          ghost var these := Replayable(service.View(), [roles[i]], {}, throwing);
          var more := ReplayRole(roles[i], now, throwing);
          results := results + more;
          DeliveredMore(start.delivery.deliveries, before, service.delivery.deliveries, service.buffers,
                        Replayable(start, roles[..i], unlistable, throwing), these, now);
          assert Replayable(start, roles[..i + 1], unlistable, throwing) ==
                 Replayable(start, roles[..i], unlistable, throwing) + these;
        }
      }
      assert roles[..|roles|] == roles;
    }

    /**
     Two replays, whatever fails in each: the second creates exactly what failed in the first alone,
     and leaves every other delivery as it is. If the same fails again it creates nothing.
     */
    method ReplayTwice(roles: seq<string>, now: nat, unlistable: set<string>, throwing: set<Key>,
                       later: nat, unlistableAgain: set<string>, throwingAgain: set<Key>)
      returns (first: seq<ReplayResult>, second: seq<ReplayResult>)
      modifies service`delivery
      ensures var s := old(service.View());
              var keys, again := Replayable(s, roles, unlistable, throwing), Replayable(s, roles, unlistableAgain, throwingAgain);
              && CreationsReported(first, s.delivery.deliveries, keys)
              && CreationsReported(second, s.delivery.deliveries, again - keys)
              && service.delivery.deliveries.Keys == s.delivery.deliveries.Keys + keys + again
              && (again <= keys ==> Delivered(s.delivery.deliveries, service.delivery.deliveries, service.buffers, keys, now))
    {
      first := ReplayPending(roles, now, unlistable, throwing);
      second := ReplayPending(roles, later, unlistableAgain, throwingAgain);
    }
  }

  /** One more result reports one more creation, or none. */
  lemma CreationReportedOnce(results: seq<ReplayResult>, start: map<Key, Delivery>, before: map<Key, Delivery>,
                             keys: set<Key>, one: set<Key>, result: ReplayResult, key: Key)
    requires CreationsReported(results, start, keys)
    requires one <= {key} && before.Keys == start.Keys + keys && key !in keys
    requires forall k :: result == Replayed(k, Scheduled(true)) <==> k in one && k !in before
    ensures CreationsReported(results + [result], start, keys + one)
  {
  }

  /** What a replay has done after some of a role's Buffers. */
  ghost predicate RoleSoFar(results: seq<ReplayResult>, s: Stores, after: map<Key, Delivery>, role: string,
                            seqs: seq<nat>, throwing: set<Key>, now: nat) {
    && Delivered(s.delivery.deliveries, after, s.buffers, ReplayableAt(s, role, seqs, throwing), now)
    && FailuresAt(results, s, role, seqs, throwing)
    && CreationsReported(results, s.delivery.deliveries, ReplayableAt(s, role, seqs, throwing))
  }

  /** What one pending Buffer adds to it. */
  function One(buffers: Buffers, key: Key, throwing: set<Key>): set<Key> {
    if key in throwing || key.seqNo == 0 || key !in buffers || buffers[key].context.Unreadable? then {} else {key}
  }

  lemma ReplayableOneMore(s: Stores, role: string, seqs: seq<nat>, n: nat, throwing: set<Key>)
    requires IsAt(s.buffers, Key(role, n), InPending)
    ensures ReplayableAt(s, role, seqs + [n], throwing) ==
            ReplayableAt(s, role, seqs, throwing) + One(s.buffers, Key(role, n), throwing)
  {
  }

  lemma FailureOneMore(results: seq<ReplayResult>, result: ReplayResult, s: Stores, role: string, seqs: seq<nat>, n: nat,
                       throwing: set<Key>)
    requires FailuresAt(results, s, role, seqs, throwing) && IsAt(s.buffers, Key(role, n), InPending)
    requires !result.ListingFailed? && (result.ReadFailed? ==> result == ReadFailed(Key(role, n)))
    requires result.ReadFailed? <==> Key(role, n) in throwing || s.buffers[Key(role, n)].context.Unreadable?
    ensures FailuresAt(results + [result], s, role, seqs + [n], throwing)
  {
  }

  lemma RoleOneMore(results: seq<ReplayResult>, result: ReplayResult, s: Stores, before: map<Key, Delivery>,
                    after: map<Key, Delivery>, role: string, seqs: seq<nat>, n: nat, throwing: set<Key>, now: nat)
    requires RoleSoFar(results, s, before, role, seqs, throwing, now) && n !in seqs
    requires var key := Key(role, n);
             && IsAt(s.buffers, key, InPending)
             && Delivered(before, after, s.buffers, One(s.buffers, key, throwing), now)
             && (result.ReadFailed? ==> result == ReadFailed(key))
             && (result.ReadFailed? <==> key in throwing || s.buffers[key].context.Unreadable?)
             && !result.ListingFailed?
             && (forall k :: result == Replayed(k, Scheduled(true)) <==> k in One(s.buffers, key, throwing) && k !in before)
    ensures RoleSoFar(results + [result], s, after, role, seqs + [n], throwing, now)
  {
    var key := Key(role, n);
    var sofar, one := ReplayableAt(s, role, seqs, throwing), One(s.buffers, key, throwing);
    DeliveredMore(s.delivery.deliveries, before, after, s.buffers, sofar, one, now);
    ReplayableOneMore(s, role, seqs, n, throwing);
    FailureOneMore(results, result, s, role, seqs, n, throwing);
    CreationReportedOnce(results, s.delivery.deliveries, before, sofar, one, result, key);
  }

  ghost predicate FailuresAt(results: seq<ReplayResult>, s: Stores, role: string, seqs: seq<nat>, throwing: set<Key>) {
    && (forall key :: ReadFailed(key) in results <==> key in Failing(s, [role], {}, throwing) && key.seqNo in seqs)
    && (forall r :: ListingFailed(r) !in results)
  }

  function ReplayableAt(s: Stores, role: string, seqs: seq<nat>, throwing: set<Key>): set<Key> {
    set key | key in Replayable(s, [role], {}, throwing) && key.seqNo in seqs
  }

  lemma DeliveredMore(before: map<Key, Delivery>, mid: map<Key, Delivery>, after: map<Key, Delivery>, buffers: Buffers,
                      keys: set<Key>, more: set<Key>, now: nat)
    requires Delivered(before, mid, buffers, keys, now) && Delivered(mid, after, buffers, more, now)
    ensures Delivered(before, after, buffers, keys + more, now)
  {
  }

  /** The results report as created exactly the deliveries that were not there before. */
  ghost predicate CreationsReported(results: seq<ReplayResult>, before: map<Key, Delivery>, keys: set<Key>) {
    forall key :: Replayed(key, Scheduled(true)) in results <==> key in keys && key !in before
  }

  /** Exactly the given Buffers have got a delivery, and every delivery that was there is as it was. */
  ghost predicate Delivered(before: map<Key, Delivery>, after: map<Key, Delivery>, buffers: Buffers, keys: set<Key>, now: nat) {
    && after.Keys == before.Keys + keys
    && (forall key :: key in before ==> after[key] == before[key])
    && (forall key :: key in keys && key !in before && key in buffers ==>
          after[key] == NewDelivery(buffers[key].task_id, now))
  }
}
