/**
 Deliveries and Buffers: two stores without a common transaction.

 Acknowledging a delivery first completes it in one store and then, in a step of its own, archives
 its Buffer in the other. Between the two steps anything may happen, and the second may fail. What
 is left over then, a processed delivery whose Buffer is still pending, is the archive backlog.
 */
module DeliveryArchive {
  import opened Wrappers
  import opened DeliveryLifecycle

  datatype Location = InPending | InProcessed | InDeadLetter

  /** Whether the context snapshot a Buffer declares can be read; a Buffer may declare none. */
  datatype ContextState = Present | Absent | Unreadable

  datatype Buffer = Buffer(task_id: string, location: Location, context: ContextState)

  type Buffers = map<Key, Buffer>

  datatype ArchiveOutcome = Archived | AlreadyArchived | NotPending | Missing | ArchiveFailed

  predicate IsAt(buffers: Buffers, key: Key, location: Location) {
    key in buffers && buffers[key].location == location
  }

  function Moved(buffers: Buffers, key: Key, location: Location): Buffers
    requires key in buffers
  {
    buffers[key := buffers[key].(location := location)]
  }

  /** `archiveBuffer`; `works` says whether moving a pending Buffer succeeds. It never throws. */
  function Archive(buffers: Buffers, key: Key, works: bool): (Buffers, ArchiveOutcome) {
    if key !in buffers then (buffers, Missing)
    else match buffers[key].location
      case InPending => if works then (Moved(buffers, key, InProcessed), Archived) else (buffers, ArchiveFailed)
      case InProcessed => (buffers, if buffers[key].context.Unreadable? then ArchiveFailed else AlreadyArchived)
      case InDeadLetter => (buffers, NotPending)
  }

  /** What an attempt to archive comes to, and that it moves nothing but a pending Buffer. */
  lemma ArchiveTold(buffers: Buffers, key: Key, works: bool)
    ensures var (after, outcome) := Archive(buffers, key, works);
            && (outcome == Missing <==> key !in buffers)
            && (outcome == NotPending <==> IsAt(buffers, key, InDeadLetter))
            && (outcome == Archived <==> IsAt(buffers, key, InPending) && works)
            && (outcome == AlreadyArchived <==> IsAt(buffers, key, InProcessed) && !buffers[key].context.Unreadable?)
            && (outcome == Archived ==> IsAt(after, key, InProcessed))
            && (outcome != Archived ==> after == buffers)
            && (forall other :: other != key ==> (other in after <==> other in buffers)
                                                 && (other in after ==> after[other] == buffers[other]))
  {
  }

  // ----- the protocol: every interleaving of the steps -----

  /** `inflight` counts the calls that have seen a delivery processed and are about to archive. */
  datatype Stores = Stores(delivery: Store, buffers: Buffers, inflight: multiset<Key>)

  const EMPTY_STORES := Stores(EMPTY_STORE, map[], multiset{})

  datatype Action =
    | SaveBuffer(key: Key, buffer: Buffer)
    | AskDelivery(key: Key, request: Request, now: nat)
    | AckProcessed(key: Key, token: nat, owner: Option<string>, now: nat)
    | RepairRead(key: Key)
    | ArchiveStep(key: Key, works: bool)
    | Bury(key: Key)
    | Restore(key: Key)

  predicate Enabled(s: Stores, a: Action) {
    match a
    case SaveBuffer(key, buffer) => key !in s.buffers && buffer.location.InPending?
    case AskDelivery(_, request, _) => !request.Complete?
    case AckProcessed(_, _, _, _) => true
    case RepairRead(_) => true
    case ArchiveStep(key, _) => key in s.inflight
    case Bury(key) => IsAt(s.buffers, key, InPending)
    case Restore(key) => IsAt(s.buffers, key, InDeadLetter)
  }

  predicate IsProcessed(s: Stores, key: Key) {
    key in s.delivery.deliveries && s.delivery.deliveries[key].status.Processed?
  }

  function Apply(s: Stores, a: Action, policy: RetryPolicy): Stores
    requires Enabled(s, a)
  {
    match a
    case SaveBuffer(key, buffer) => s.(buffers := s.buffers[key := buffer])
    case AskDelivery(key, request, now) => s.(delivery := Ask(s.delivery, key, request, now, policy))
    case AckProcessed(key, token, owner, now) =>
      var done := Succeeds(s.delivery, key, Complete(token, owner), now, policy);
      s.(delivery := Ask(s.delivery, key, Complete(token, owner), now, policy),
         inflight := if done then s.inflight + multiset{key} else s.inflight)
    case RepairRead(key) => if IsProcessed(s, key) then s.(inflight := s.inflight + multiset{key}) else s
    case ArchiveStep(key, works) =>
      s.(buffers := Archive(s.buffers, key, works).0, inflight := s.inflight - multiset{key})
    case Bury(key) => s.(buffers := Moved(s.buffers, key, InDeadLetter))
    case Restore(key) => s.(buffers := Moved(s.buffers, key, InPending))
  }

  ghost predicate IsRun(s: Stores, actions: seq<Action>, policy: RetryPolicy)
    decreases |actions|
  {
    actions == [] || (Enabled(s, actions[0]) && IsRun(Apply(s, actions[0], policy), actions[1..], policy))
  }

  ghost function After(s: Stores, actions: seq<Action>, policy: RetryPolicy): Stores
    requires IsRun(s, actions, policy)
    decreases |actions|
  {
    if actions == [] then s else After(Apply(s, actions[0], policy), actions[1..], policy)
  }

  /** An archive is only ever under way, or done, for a delivery that is processed. */
  ghost predicate ArchiveAfterProcessed(s: Stores) {
    && (forall key :: key in s.inflight ==> IsProcessed(s, key))
    && (forall key :: IsAt(s.buffers, key, InProcessed) ==> IsProcessed(s, key))
  }

  lemma ProcessedStays(s: Stores, a: Action, policy: RetryPolicy, key: Key)
    requires Enabled(s, a) && IsProcessed(s, key)
    ensures IsProcessed(Apply(s, a, policy), key)
  {
  }

  lemma StepArchivesAfterProcessed(s: Stores, a: Action, policy: RetryPolicy)
    requires ArchiveAfterProcessed(s) && Enabled(s, a)
    ensures ArchiveAfterProcessed(Apply(s, a, policy))
  {
    var t := Apply(s, a, policy);
    forall key | key in t.inflight ensures IsProcessed(t, key) {
      if key in s.inflight { ProcessedStays(s, a, policy, key); }
    }
    forall key | IsAt(t.buffers, key, InProcessed) ensures IsProcessed(t, key) {
      if IsAt(s.buffers, key, InProcessed) || key in s.inflight { ProcessedStays(s, a, policy, key); }
    }
  }

  /** In every run a Buffer is archived only when its delivery is processed. */
  lemma {:induction false} ArchivedOnlyWhenProcessed(s: Stores, actions: seq<Action>, policy: RetryPolicy)
    requires ArchiveAfterProcessed(s) && IsRun(s, actions, policy)
    ensures ArchiveAfterProcessed(After(s, actions, policy))
    decreases |actions|
  {
    if actions != [] {
      StepArchivesAfterProcessed(s, actions[0], policy);
      ArchivedOnlyWhenProcessed(Apply(s, actions[0], policy), actions[1..], policy);
    }
  }

  /** In every run a delivery once processed stays processed, exactly as it was. */
  lemma {:induction false} ProcessedForGood(s: Stores, actions: seq<Action>, policy: RetryPolicy, key: Key)
    requires IsRun(s, actions, policy) && IsProcessed(s, key)
    ensures var t := After(s, actions, policy);
            IsProcessed(t, key) && t.delivery.deliveries[key] == s.delivery.deliveries[key]
    decreases |actions|
  {
    if actions != [] { ProcessedForGood(Apply(s, actions[0], policy), actions[1..], policy, key); }
  }

  // ----- the backlog -----

  predicate InBacklog(s: Stores, key: Key) {
    IsProcessed(s, key) && IsAt(s.buffers, key, InPending)
  }

  function PendingKeys(buffers: Buffers): set<Key> {
    set key | key in buffers && buffers[key].location.InPending?
  }

  /** The backlog as it is reported: pending Buffers read first, deliveries read afterwards. */
  function ReportedBacklog(pending: set<Key>, s: Stores, role: string): set<Key> {
    set key | key in s.delivery.deliveries && key.role == role
              && s.delivery.deliveries[key].status.Processed? && key in pending
  }

  /** Steps that bring a Buffer into pending. */
  predicate MovesIn(a: Action, key: Key) {
    (a.SaveBuffer? || a.Restore?) && a.key == key
  }

  /** Steps that leave a Buffer outside pending. */
  predicate MovesOut(a: Action, key: Key) {
    (a.Bury? || (a.ArchiveStep? && a.works)) && a.key == key
  }

  lemma PendingAfterStep(s: Stores, a: Action, policy: RetryPolicy, key: Key)
    requires Enabled(s, a)
    ensures IsAt(Apply(s, a, policy).buffers, key, InPending) <==>
            MovesIn(a, key) || (!MovesOut(a, key) && IsAt(s.buffers, key, InPending))
  {
  }

  lemma {:induction false} PendingAfterRun(s: Stores, actions: seq<Action>, policy: RetryPolicy, key: Key)
    requires IsRun(s, actions, policy)
    ensures (forall i :: 0 <= i < |actions| ==> !MovesIn(actions[i], key)) ==>
              (IsAt(After(s, actions, policy).buffers, key, InPending) ==> IsAt(s.buffers, key, InPending))
    ensures (forall i :: 0 <= i < |actions| ==> !MovesOut(actions[i], key)) ==>
              (IsAt(s.buffers, key, InPending) ==> IsAt(After(s, actions, policy).buffers, key, InPending))
    decreases |actions|
  {
    if actions != [] {
      PendingAfterStep(s, actions[0], policy, key);
      PendingAfterRun(Apply(s, actions[0], policy), actions[1..], policy, key);
    }
  }

  /**
   What happens between the two reads decides how the report can be wrong. Only an archive or a burial
   of the Buffer makes it report too much, only a save or a restore makes it miss the Buffer; without
   such a step of the key it is exact.
   */
  lemma ReportErrsOnlyByMoves(s: Stores, actions: seq<Action>, policy: RetryPolicy, role: string, key: Key)
    requires IsRun(s, actions, policy)
    ensures var t := After(s, actions, policy);
            var reported := key in ReportedBacklog(PendingKeys(s.buffers), t, role);
            var inBacklog := key.role == role && InBacklog(t, key);
            && (reported && !inBacklog ==> exists i :: 0 <= i < |actions| && MovesOut(actions[i], key))
            && (inBacklog && !reported ==> exists i :: 0 <= i < |actions| && MovesIn(actions[i], key))
            && ((forall i :: 0 <= i < |actions| ==> !MovesIn(actions[i], key) && !MovesOut(actions[i], key)) ==>
                  (reported <==> inBacklog))
  {
    PendingAfterRun(s, actions, policy, key);
  }

  /** At some state of the run the delivery is processed and its Buffer pending. */
  ghost predicate SometimeInBacklog(s: Stores, actions: seq<Action>, policy: RetryPolicy, key: Key)
    requires IsRun(s, actions, policy)
    decreases |actions|
  {
    InBacklog(s, key) || (actions != [] && SometimeInBacklog(Apply(s, actions[0], policy), actions[1..], policy, key))
  }

  /**
   Even a report that is too much by the time it is made is no invention: unless the Buffer was buried
   in between, there was a moment between the two reads at which it was in the backlog.
   */
  lemma {:induction false} ReportedWasInBacklog(s: Stores, actions: seq<Action>, policy: RetryPolicy, role: string, key: Key)
    requires IsRun(s, actions, policy) && ArchiveAfterProcessed(s)
    requires key in ReportedBacklog(PendingKeys(s.buffers), After(s, actions, policy), role)
    requires forall i :: 0 <= i < |actions| ==> actions[i] != Bury(key)
    ensures SometimeInBacklog(s, actions, policy, key)
    decreases |actions|
  {
    if actions != [] && !InBacklog(s, key) {
      StepArchivesAfterProcessed(s, actions[0], policy);
      PendingAfterStep(s, actions[0], policy, key);
      ReportedWasInBacklog(Apply(s, actions[0], policy), actions[1..], policy, role, key);
    }
  }

  // ----- the service -----

  datatype Warning =
    | ArchivedLate
    | NothingLeftToArchive
    | StillPending
    | NotRestored
    | NoDeliveryYet
    | LeftUntouched(status: Status)
    | NothingScheduled

  datatype AckResult =
    | NotYours
    | Acknowledged(delivery: Delivery, archive: ArchiveOutcome)
    | FailureNoted(delivery: Delivery)

  /** What becomes of a request to deliver a Buffer's context. */
  datatype Evidence = Scheduled(created: bool) | SkippedNoBuffer | FailedUnreadable

  /** `submitContextDelivery`: hand over a Buffer that is there and whole, once. */
  function SubmitEffect(s: Stores, key: Key, now: nat, policy: RetryPolicy): (Stores, Evidence) {
    if key in s.delivery.deliveries then (s, Scheduled(false))
    else if key.seqNo == 0 || !IsAt(s.buffers, key, InPending) then (s, SkippedNoBuffer)
    else if s.buffers[key].context.Unreadable? then (s, FailedUnreadable)
    else (s.(delivery := Ask(s.delivery, key, Submit(s.buffers[key].task_id), now, policy)), Scheduled(true))
  }

  function Repaired(s: Stores, key: Key, works: bool): Stores {
    if IsProcessed(s, key) then s.(buffers := Archive(s.buffers, key, works).0) else s
  }

  function Unburied(s: Stores, key: Key, restores: bool): Stores {
    if IsAt(s.buffers, key, InDeadLetter) && restores then s.(buffers := Moved(s.buffers, key, InPending)) else s
  }

  /** `retryExtraction`: repair a missed archive, restore a dead Buffer, retry a dead delivery, deliver. */
  function RetryEffect(s: Stores, key: Key, now: nat, works: bool, restores: bool, policy: RetryPolicy): Stores {
    var s1 := Repaired(s, key, works);
    var s2 := Unburied(s1, key, restores);
    var s3 := s2.(delivery := Ask(s2.delivery, key, RetryDeadLetter, now, policy));
    if IsAt(s3.buffers, key, InPending) then SubmitEffect(s3, key, now, policy).0 else s3
  }

  /** What the evidence of a submission says about the delivery before and after. */
  predicate EvidenceOf(evidence: Evidence, key: Key, before: Stores, after: Stores) {
    match evidence
    case Scheduled(created) => key in after.delivery.deliveries && (created <==> key !in before.delivery.deliveries)
    case SkippedNoBuffer => key !in after.delivery.deliveries && key.seqNo == 0
    case FailedUnreadable =>
      key !in after.delivery.deliveries && key in after.buffers && after.buffers[key].context.Unreadable?
  }

  lemma SubmitEvidence(s: Stores, key: Key, now: nat, policy: RetryPolicy)
    requires IsAt(s.buffers, key, InPending)
    ensures EvidenceOf(SubmitEffect(s, key, now, policy).1, key, s, SubmitEffect(s, key, now, policy).0)
  {
  }

  function RepairWarnings(s: Stores, key: Key, works: bool): seq<Warning> {
    if !IsProcessed(s, key) then []
    else match Archive(s.buffers, key, works).1
      case Archived => [ArchivedLate]
      case Missing => [NothingLeftToArchive]
      case ArchiveFailed => [StillPending]
      case _ => []
  }

  function RestoreWarnings(buffers: Buffers, key: Key, restores: bool): seq<Warning> {
    if IsAt(buffers, key, InDeadLetter) && !restores then [NotRestored] else []
  }

  function ResetWarnings(deliveries: map<Key, Delivery>, key: Key): seq<Warning> {
    if key !in deliveries then [NoDeliveryYet]
    else if deliveries[key].status.DeadLetter? then []
    else [LeftUntouched(deliveries[key].status)]
  }

  /** What the warnings of a retry tell of the state it found. */
  ghost predicate WarningsTell(warnings: seq<Warning>, s: Stores, key: Key, works: bool, restores: bool) {
    && (NotRestored in warnings <==> IsAt(s.buffers, key, InDeadLetter) && !restores)
    && (ArchivedLate in warnings <==> InBacklog(s, key) && works)
    && (StillPending in warnings <==>
          || (InBacklog(s, key) && !works)
          || (IsProcessed(s, key) && IsAt(s.buffers, key, InProcessed) && s.buffers[key].context.Unreadable?))
    && (NothingLeftToArchive in warnings <==> IsProcessed(s, key) && key !in s.buffers)
    && (NoDeliveryYet in warnings <==> key !in s.delivery.deliveries)
    && (forall status :: LeftUntouched(status) in warnings <==>
          key in s.delivery.deliveries && s.delivery.deliveries[key].status == status && !status.DeadLetter?)
  }

  lemma RetryWarningsTell(s: Stores, key: Key, works: bool, restores: bool)
    ensures WarningsTell(RepairWarnings(s, key, works) + RestoreWarnings(s.buffers, key, restores) +
                         ResetWarnings(s.delivery.deliveries, key), s, key, works, restores)
  {
  }

  lemma RetryEffectOnProcessed(s: Stores, key: Key, now: nat, works: bool, restores: bool, policy: RetryPolicy)
    requires IsProcessed(s, key)
    ensures RetryEffect(s, key, now, works, restores, policy) == Unburied(Repaired(s, key, works), key, restores)
  {
  }

  lemma RetryNeverProcesses(s: Stores, key: Key, now: nat, works: bool, restores: bool, policy: RetryPolicy)
    requires !IsProcessed(s, key)
    ensures !IsProcessed(RetryEffect(s, key, now, works, restores, policy), key)
  {
  }

  /**
   With archiving working, one retry leaves the Buffer in the backlog exactly when its delivery was
   processed and the Buffer had been dead-lettered, and is restored: only the next retry archives it.
   */
  lemma OneRetryClearsUnlessBuried(s: Stores, key: Key, now: nat, restores: bool, policy: RetryPolicy)
    ensures InBacklog(RetryEffect(s, key, now, true, restores, policy), key) <==>
            IsProcessed(s, key) && IsAt(s.buffers, key, InDeadLetter) && restores
  {
    if IsProcessed(s, key) {
      RetryEffectOnProcessed(s, key, now, true, restores, policy);
    } else {
      RetryNeverProcesses(s, key, now, true, restores, policy);
    }
  }

  /**
   With archiving working, two retries leave the Buffer out of the backlog, except exactly when it
   was dead-lettered and only the second of the two restores it.
   */
  lemma TwoRetriesClear(s: Stores, key: Key, now: nat, later: nat, restores: bool, again: bool, policy: RetryPolicy)
    ensures InBacklog(RetryEffect(RetryEffect(s, key, now, true, restores, policy), key, later, true, again, policy), key) <==>
            IsProcessed(s, key) && IsAt(s.buffers, key, InDeadLetter) && !restores && again
  {
    var t := RetryEffect(s, key, now, true, restores, policy);
    OneRetryClearsUnlessBuried(t, key, later, again, policy);
    if IsProcessed(s, key) {
      RetryEffectOnProcessed(s, key, now, true, restores, policy);
    } else {
      RetryNeverProcesses(s, key, now, true, restores, policy);
    }
  }

  /** A claimed delivery is completed, its Buffer is then not archived but buried. */
  lemma CompletedThenBuried(s: Stores, key: Key, token: nat, policy: RetryPolicy) returns (actions: seq<Action>)
    requires key in s.delivery.deliveries && IsHeldBy(s.delivery.deliveries[key], token, None, 2)
    requires IsAt(s.buffers, key, InPending)
    ensures actions == [AckProcessed(key, token, None, 2), ArchiveStep(key, false), Bury(key)]
    ensures IsRun(s, actions, policy)
    ensures var t := After(s, actions, policy); IsProcessed(t, key) && IsAt(t.buffers, key, InDeadLetter)
  {
    var acked := Apply(s, AckProcessed(key, token, None, 2), policy);
    assert IsProcessed(acked, key) && key in acked.inflight;
    var left := Apply(acked, ArchiveStep(key, false), policy);
    var buried := Apply(left, Bury(key), policy);
    actions := [];
    assert IsRun(buried, actions, policy) && After(buried, actions, policy) == buried;
    actions := RunPrepend(left, Bury(key), actions, policy);
    actions := RunPrepend(acked, ArchiveStep(key, false), actions, policy);
    actions := RunPrepend(s, AckProcessed(key, token, None, 2), actions, policy);
  }

  lemma ClaimedFromStart(key: Key, policy: RetryPolicy) returns (claimed: Stores)
    requires policy.max_attempts >= 1
    ensures var saved := Apply(EMPTY_STORES, SaveBuffer(key, Buffer("t", InPending, Present)), policy);
            var submitted := Apply(saved, AskDelivery(key, Submit("t"), 0), policy);
            claimed == Apply(submitted, AskDelivery(key, Claim("w", 10), 1), policy)
    ensures key in claimed.delivery.deliveries && IsHeldBy(claimed.delivery.deliveries[key], 1, None, 2)
    ensures IsAt(claimed.buffers, key, InPending)
  {
    var saved := Apply(EMPTY_STORES, SaveBuffer(key, Buffer("t", InPending, Present)), policy);
    var submitted := Apply(saved, AskDelivery(key, Submit("t"), 0), policy);
    assert submitted.delivery.deliveries[key] == NewDelivery("t", 0) && submitted.delivery.nextToken == 1;
    claimed := Apply(submitted, AskDelivery(key, Claim("w", 10), 1), policy);
  }

  /** Saving, submitting and claiming a delivery, completing it, and losing its Buffer to the dead letters. */
  function BuriedThoughProcessed(key: Key): seq<Action> {
    [SaveBuffer(key, Buffer("t", InPending, Present)), AskDelivery(key, Submit("t"), 0),
     AskDelivery(key, Claim("w", 10), 1), AckProcessed(key, 1, None, 2), ArchiveStep(key, false), Bury(key)]
  }

  /**
   Two retries are not always enough: from the empty stores a run leads to a processed delivery with
   a dead-lettered Buffer; if only the second retry can restore it, it ends up in the backlog.
   */
  lemma TwoRetriesNotEnough(policy: RetryPolicy)
    requires policy.max_attempts >= 1
    ensures var key := Key("r", 1);
            && IsRun(EMPTY_STORES, BuriedThoughProcessed(key), policy)
            && var s := After(EMPTY_STORES, BuriedThoughProcessed(key), policy);
               InBacklog(RetryEffect(RetryEffect(s, key, 3, true, false, policy), key, 4, true, true, policy), key)
  {
    var key := Key("r", 1);
    var saved := Apply(EMPTY_STORES, SaveBuffer(key, Buffer("t", InPending, Present)), policy);
    var submitted := Apply(saved, AskDelivery(key, Submit("t"), 0), policy);
    var claimed := ClaimedFromStart(key, policy);
    var actions := CompletedThenBuried(claimed, key, 1, policy);
    actions := RunPrepend(submitted, AskDelivery(key, Claim("w", 10), 1), actions, policy);
    actions := RunPrepend(saved, AskDelivery(key, Submit("t"), 0), actions, policy);
    actions := RunPrepend(EMPTY_STORES, SaveBuffer(key, Buffer("t", InPending, Present)), actions, policy);
    assert actions == BuriedThoughProcessed(key);
    TwoRetriesClear(After(EMPTY_STORES, actions, policy), key, 3, 4, false, true, policy);
  }

  // ----- retries with other steps in between -----

  predicate Moves(a: Action, key: Key) {
    MovesIn(a, key) || MovesOut(a, key)
  }

  function LocationOf(s: Stores, key: Key): Option<Location> {
    if key in s.buffers then Some(s.buffers[key].location) else None
  }

  /** Where a step that moves the Buffer takes it. */
  function Move(at: Option<Location>, a: Action): Option<Location> {
    match a
    case SaveBuffer(_, _) => if at == None then Some(InPending) else at
    case Restore(_) => if at == Some(InDeadLetter) then Some(InPending) else at
    case Bury(_) => if at == Some(InPending) then Some(InDeadLetter) else at
    case _ => if at == Some(InPending) then Some(InProcessed) else at
  }

  function MoveAll(at: Option<Location>, moves: seq<Action>): Option<Location>
    decreases |moves|
  {
    if moves == [] then at else MoveAll(Move(at, moves[0]), moves[1..])
  }

  function MovesOf(actions: seq<Action>, key: Key): seq<Action> {
    if actions == [] then []
    else if Moves(actions[0], key) then [actions[0]] + MovesOf(actions[1..], key)
    else MovesOf(actions[1..], key)
  }

  lemma LocationAfterStep(s: Stores, a: Action, policy: RetryPolicy, key: Key)
    requires Enabled(s, a)
    ensures LocationOf(Apply(s, a, policy), key)
         == if Moves(a, key) then Move(LocationOf(s, key), a) else LocationOf(s, key)
  {
  }

  /** Where a Buffer ends up depends on nothing but where it was and the steps that move it. */
  lemma {:induction false} LocationAfterRun(s: Stores, actions: seq<Action>, policy: RetryPolicy, key: Key)
    requires IsRun(s, actions, policy)
    ensures LocationOf(After(s, actions, policy), key) == MoveAll(LocationOf(s, key), MovesOf(actions, key))
    decreases |actions|
  {
    if actions != [] {
      var rest := MovesOf(actions[1..], key);
      LocationAfterStep(s, actions[0], policy, key);
      LocationAfterRun(Apply(s, actions[0], policy), actions[1..], policy, key);
      if Moves(actions[0], key) { assert ([actions[0]] + rest)[1..] == rest; }
    }
  }

  function Archives(key: Key, n: nat): seq<Action> {
    seq(n, i => ArchiveStep(key, true))
  }

  /**
   What two retries and any acknowledgements do to a Buffer: archives before the first retry's restore,
   between it and the second's, and after that. The second retry's own is among those between if it found
   the delivery processed.
   */
  function RetryMoves(key: Key, before: nat, first: bool, between: nat, again: bool, after: nat): seq<Action> {
    Archives(key, before) + (if first then [Restore(key)] else []) +
    Archives(key, between) + (if again then [Restore(key)] else []) + Archives(key, after)
  }

  lemma {:induction false} MoveAllConcat(at: Option<Location>, a: seq<Action>, b: seq<Action>)
    ensures MoveAll(at, a + b) == MoveAll(MoveAll(at, a), b)
    decreases |a|
  {
    if a == [] {
      assert a + b == b;
    } else {
      assert (a + b)[1..] == a[1..] + b;
      MoveAllConcat(Move(at, a[0]), a[1..], b);
    }
  }

  function AfterArchives(at: Option<Location>, n: nat): Option<Location> {
    if at == Some(InPending) && n > 0 then Some(InProcessed) else at
  }

  lemma {:induction false} ArchivesMove(at: Option<Location>, key: Key, n: nat)
    ensures MoveAll(at, Archives(key, n)) == AfterArchives(at, n)
    decreases n
  {
    if n > 0 {
      assert Archives(key, n)[1..] == Archives(key, n - 1);
      ArchivesMove(Move(at, ArchiveStep(key, true)), key, n - 1);
    }
  }

  function Restored(at: Option<Location>, restores: bool): Option<Location> {
    if at == Some(InDeadLetter) && restores then Some(InPending) else at
  }

  lemma RestoreMoves(at: Option<Location>, key: Key, restores: bool)
    ensures MoveAll(at, if restores then [Restore(key)] else []) == Restored(at, restores)
  {
    if restores { assert [Restore(key)][1..] == []; }
  }

  lemma RetryMovesEnd(at: Option<Location>, key: Key, before: nat, first: bool, between: nat, again: bool, after: nat)
    ensures MoveAll(at, RetryMoves(key, before, first, between, again, after))
         == AfterArchives(Restored(AfterArchives(Restored(AfterArchives(at, before), first), between), again), after)
  {
    var a, c, e := Archives(key, before), Archives(key, between), Archives(key, after);
    var b: seq<Action> := if first then [Restore(key)] else [];
    var d: seq<Action> := if again then [Restore(key)] else [];
    MoveAllConcat(at, a + b + c + d, e);
    MoveAllConcat(at, a + b + c, d);
    MoveAllConcat(at, a + b, c);
    MoveAllConcat(at, a, b);
    ArchivesMove(at, key, before);
    RestoreMoves(AfterArchives(at, before), key, first);
    ArchivesMove(Restored(AfterArchives(at, before), first), key, between);
    var late := AfterArchives(Restored(AfterArchives(at, before), first), between);
    RestoreMoves(late, key, again);
    ArchivesMove(Restored(late, again), key, after);
  }

  /**
   Two retries, whatever steps of others fall between their steps, and whenever the delivery becomes
   processed: as long as nobody else buries or restores the Buffer, a processed delivery is in the backlog
   afterwards exactly if its Buffer has been pending with no archive working ever since it was last
   restored, or all along. So where the second retry finds the delivery processed, only its own restore
   of a Buffer that the first did not restore can leave it there.
   */
  lemma RetriesClearInterleaved(s: Stores, actions: seq<Action>, policy: RetryPolicy, key: Key,
                                before: nat, first: bool, between: nat, again: bool, after: nat)
    requires IsRun(s, actions, policy) && IsProcessed(After(s, actions, policy), key)
    requires MovesOf(actions, key) == RetryMoves(key, before, first, between, again, after)
    ensures InBacklog(After(s, actions, policy), key) <==>
            || (IsAt(s.buffers, key, InDeadLetter) && first && between == 0 && after == 0)
            || (IsAt(s.buffers, key, InDeadLetter) && !first && again && after == 0)
            || (IsAt(s.buffers, key, InPending) && before == 0 && between == 0 && after == 0)
    ensures between > 0 ==>
            (InBacklog(After(s, actions, policy), key) <==>
             IsAt(s.buffers, key, InDeadLetter) && !first && again && after == 0)
  {
    LocationAfterRun(s, actions, policy, key);
    RetryMovesEnd(LocationOf(s, key), key, before, first, between, again, after);
  }

  /** A retry is a run of the protocol's own steps, so it keeps what every run keeps. */
  lemma RetryIsARun(s: Stores, key: Key, now: nat, works: bool, restores: bool, policy: RetryPolicy)
    returns (actions: seq<Action>)
    ensures IsRun(s, actions, policy) && After(s, actions, policy) == RetryEffect(s, key, now, works, restores, policy)
  {
    var s1 := Repaired(s, key, works);
    var s2 := Unburied(s1, key, restores);
    actions := DeliveryIsARun(s2, key, now, policy);
    if s2 != s1 { actions := RunPrepend(s1, Restore(key), actions, policy); }
    if IsProcessed(s, key) {
      var reading := Apply(s, RepairRead(key), policy);
      assert Apply(reading, ArchiveStep(key, works), policy) == s1 by {
        assert s.inflight + multiset{key} - multiset{key} == s.inflight;
      }
      actions := RunPrepend(reading, ArchiveStep(key, works), actions, policy);
      actions := RunPrepend(s, RepairRead(key), actions, policy);
    }
  }

  /** What a retry does once the Buffer is where it can be: reset a dead delivery, and submit. */
  function Resubmitted(s: Stores, key: Key, now: nat, policy: RetryPolicy): Stores {
    var t := s.(delivery := Ask(s.delivery, key, RetryDeadLetter, now, policy));
    if IsAt(t.buffers, key, InPending) then SubmitEffect(t, key, now, policy).0 else t
  }

  lemma DeliveryIsARun(s: Stores, key: Key, now: nat, policy: RetryPolicy) returns (actions: seq<Action>)
    ensures IsRun(s, actions, policy) && After(s, actions, policy) == Resubmitted(s, key, now, policy)
  {
    var reset := Apply(s, AskDelivery(key, RetryDeadLetter, now), policy);
    var t := Resubmitted(s, key, now, policy);
    if t == reset {
      actions := [];
      assert After(reset, actions, policy) == t;
    } else {
      actions := [AskDelivery(key, Submit(reset.buffers[key].task_id), now)];
      assert Apply(reset, actions[0], policy) == t;
      assert IsRun(t, actions[1..], policy) && After(t, actions[1..], policy) == t;
    }
    actions := RunPrepend(s, AskDelivery(key, RetryDeadLetter, now), actions, policy);
  }

  lemma RetryKeepsArchives(s: Stores, key: Key, now: nat, works: bool, restores: bool, policy: RetryPolicy)
    ensures ArchiveAfterProcessed(s) ==> ArchiveAfterProcessed(RetryEffect(s, key, now, works, restores, policy))
  {
    var run := RetryIsARun(s, key, now, works, restores, policy);
    if ArchiveAfterProcessed(s) { ArchivedOnlyWhenProcessed(s, run, policy); }
  }

  lemma RunPrepend(s: Stores, a: Action, rest: seq<Action>, policy: RetryPolicy) returns (actions: seq<Action>)
    requires Enabled(s, a) && IsRun(Apply(s, a, policy), rest, policy)
    ensures actions == [a] + rest && IsRun(s, actions, policy)
    ensures After(s, actions, policy) == After(Apply(s, a, policy), rest, policy)
  {
    actions := [a] + rest;
    assert actions[1..] == rest;
  }

  datatype StatusCounts = StatusCounts(pending: nat, processing: nat, processed: nat, dead_letter: nat)

  function CountStatus(items: seq<Delivery>, status: Status): nat {
    if items == [] then 0
    else CountStatus(items[..|items| - 1], status) + (if items[|items| - 1].status == status then 1 else 0)
  }

  lemma CountOneMore(items: seq<Delivery>, item: Delivery)
    ensures forall status :: CountStatus(items + [item], status)
                          == CountStatus(items, status) + if item.status == status then 1 else 0
  {
    assert (items + [item])[..|items|] == items;
  }

  /** Some item has the key and the status. */
  predicate Has(items: seq<(Key, Delivery)>, key: Key, status: Status) {
    exists i :: 0 <= i < |items| && items[i].0 == key && items[i].1.status == status
  }

  lemma HasOneMore(items: seq<(Key, Delivery)>, item: (Key, Delivery), key: Key, status: Status)
    ensures Has(items + [item], key, status) <==> Has(items, key, status) || (item.0 == key && item.1.status == status)
  {
    var more := items + [item];
    if Has(items, key, status) {
      var i :| 0 <= i < |items| && items[i].0 == key && items[i].1.status == status;
      assert more[i] == items[i];
    }
    assert more[|items|] == item;
  }

  lemma ReadKeys(items: seq<(Key, Delivery)>, deliveries: map<Key, Delivery>, role: string)
    requires Lists(items, deliveries, role)
    ensures forall key: Key, status :: Has(items, key, status) <==>
              key.role == role && key in deliveries && deliveries[key].status == status
  {
    forall key: Key, status | key.role == role && key in deliveries && deliveries[key].status == status
      ensures Has(items, key, status)
    {
      assert Listed(items, key);
    }
  }

  /** The items without their keys, the keys of those dead-lettered, and of those processed and pending. */
  method ReadItems(items: seq<(Key, Delivery)>, pending: set<Key>)
    returns (statuses: seq<Delivery>, deadLetters: seq<Key>, backlog: seq<Key>)
    requires forall i, j :: 0 <= i < j < |items| ==> items[i].0 != items[j].0
    ensures |statuses| == |items| && forall i :: 0 <= i < |items| ==> statuses[i] == items[i].1
    ensures forall key :: key in deadLetters <==> Has(items, key, DeadLetter)
    ensures forall key :: key in backlog <==> Has(items, key, Processed) && key in pending
    ensures forall i, j :: 0 <= i < j < |backlog| ==> backlog[i] != backlog[j]
    ensures |deadLetters| == CountStatus(statuses, DeadLetter) && |backlog| <= CountStatus(statuses, Processed)
  {
    statuses, deadLetters, backlog := [], [], [];
    for n := 0 to |items|
      invariant |statuses| == n && forall i :: 0 <= i < n ==> statuses[i] == items[i].1
      invariant forall key :: key in deadLetters <==> Has(items[..n], key, DeadLetter)
      invariant forall key :: key in backlog <==> Has(items[..n], key, Processed) && key in pending
      invariant forall i, j :: 0 <= i < j < |backlog| ==> backlog[i] != backlog[j]
      invariant |deadLetters| == CountStatus(statuses, DeadLetter) && |backlog| <= CountStatus(statuses, Processed)
    {
      var (key, item) := items[n];
      assert items[..n + 1] == items[..n] + [items[n]];
      forall k, status ensures Has(items[..n + 1], k, status) <==>
                               Has(items[..n], k, status) || (key == k && item.status == status) {
        HasOneMore(items[..n], items[n], k, status);
      }
      CountOneMore(statuses, item);
      assert key !in backlog;
      statuses := statuses + [item];
      if item.status == DeadLetter { deadLetters := deadLetters + [key]; }
      if item.status == Processed && key in pending { backlog := backlog + [key]; }
    }
    assert items[..|items|] == items;
  }

  /** The role's deliveries with a status. */
  ghost function WithStatus(deliveries: map<Key, Delivery>, role: string, status: Status): set<Key> {
    set key | key in deliveries && key.role == role && deliveries[key].status == status
  }

  ghost function RoleCounts(deliveries: map<Key, Delivery>, role: string): StatusCounts {
    StatusCounts(|WithStatus(deliveries, role, Pending)|, |WithStatus(deliveries, role, Processing)|,
                 |WithStatus(deliveries, role, Processed)|, |WithStatus(deliveries, role, DeadLetter)|)
  }

  ghost function ListedWith(items: seq<(Key, Delivery)>, status: Status): set<Key> {
    set i | 0 <= i < |items| && items[i].1.status == status :: items[i].0
  }

  lemma ListedOneMore(items: seq<(Key, Delivery)>, item: (Key, Delivery), status: Status)
    requires forall i :: 0 <= i < |items| ==> items[i].0 != item.0
    ensures |ListedWith(items + [item], status)| ==
            |ListedWith(items, status)| + if item.1.status == status then 1 else 0
  {
    var more, before, after := items + [item], ListedWith(items, status), ListedWith(items + [item], status);
    forall key | key in before ensures key in after {
      var i :| 0 <= i < |items| && items[i].1.status == status && items[i].0 == key;
      assert more[i] == items[i];
    }
    if item.1.status == status {
      assert more[|items|] == item;
      assert after == before + {item.0};
      assert item.0 !in before;
    } else {
      assert after == before;
    }
  }

  lemma {:induction false} CountIsListed(items: seq<(Key, Delivery)>, statuses: seq<Delivery>, status: Status)
    requires |statuses| == |items| && forall i :: 0 <= i < |items| ==> statuses[i] == items[i].1
    requires forall i, j :: 0 <= i < j < |items| ==> items[i].0 != items[j].0
    ensures CountStatus(statuses, status) == |ListedWith(items, status)|
  {
    if items == [] {
      assert ListedWith(items, status) == {};
    } else {
      var n := |items| - 1;
      CountIsListed(items[..n], statuses[..n], status);
      assert items[..n] + [items[n]] == items;
      ListedOneMore(items[..n], items[n], status);
    }
  }

  lemma CountIsWithStatus(items: seq<(Key, Delivery)>, statuses: seq<Delivery>, deliveries: map<Key, Delivery>,
      role: string, status: Status)
    requires |statuses| == |items| && forall i :: 0 <= i < |items| ==> statuses[i] == items[i].1
    requires Lists(items, deliveries, role)
    ensures CountStatus(statuses, status) == |WithStatus(deliveries, role, status)|
  {
    CountIsListed(items, statuses, status);
    var listed, wanted := ListedWith(items, status), WithStatus(deliveries, role, status);
    forall key | key in wanted ensures key in listed {
      assert Listed(items, key);
      var i :| 0 <= i < |items| && items[i].0 == key;
    }
    assert listed == wanted;
  }

  /** Every item is counted under one status. */
  lemma {:induction false} CountsAddUp(items: seq<Delivery>)
    ensures CountStatus(items, Pending) + CountStatus(items, Processing) +
            CountStatus(items, Processed) + CountStatus(items, DeadLetter) == |items|
  {
    if items != [] { CountsAddUp(items[..|items| - 1]); }
  }

  method CountDeliveryStatus(items: seq<Delivery>) returns (counts: StatusCounts)
    ensures counts == StatusCounts(CountStatus(items, Pending), CountStatus(items, Processing),
                                   CountStatus(items, Processed), CountStatus(items, DeadLetter))
    ensures counts.pending + counts.processing + counts.processed + counts.dead_letter == |items|
  {
    counts := StatusCounts(0, 0, 0, 0);
    for i := 0 to |items|
      invariant counts == StatusCounts(CountStatus(items[..i], Pending), CountStatus(items[..i], Processing),
                                       CountStatus(items[..i], Processed), CountStatus(items[..i], DeadLetter))
    {
      assert items[..i + 1][..i] == items[..i];
      match items[i].status {
        case Pending => counts := counts.(pending := counts.pending + 1);
        case Processing => counts := counts.(processing := counts.processing + 1);
        case Processed => counts := counts.(processed := counts.processed + 1);
        case DeadLetter => counts := counts.(dead_letter := counts.dead_letter + 1);
      }
    }
    assert items[..|items|] == items;
    CountsAddUp(items);
  }

  /** The memory service over its two stores. The flags say whether file moves succeed. */
  class BMemoryBackendService {
    const policy: RetryPolicy
    var delivery: Store
    var buffers: Buffers

    ghost function View(): Stores
      reads this
    {
      Stores(delivery, buffers, multiset{})
    }

    constructor (policy: RetryPolicy)
      ensures this.policy == policy && View() == EMPTY_STORES
    {
      this.policy, delivery, buffers := policy, EMPTY_STORE, map[];
    }

    method ArchiveBuffer(key: Key, works: bool) returns (outcome: ArchiveOutcome)
      modifies this`buffers
      ensures (buffers, outcome) == Archive(old(buffers), key, works)
    {
      if key !in buffers { return Missing; }
      match buffers[key].location {
        case InPending =>
          if !works { return ArchiveFailed; }
          buffers := buffers[key := buffers[key].(location := InProcessed)];
          return Archived;
        case InProcessed => return if buffers[key].context.Unreadable? then ArchiveFailed else AlreadyArchived;
        case InDeadLetter => return NotPending;
      }
    }

    /**
     An acknowledgement either does nothing, because the caller does not hold the delivery, or it
     completes the delivery and then archives, or it notes a failure and leaves the Buffer alone.
     */
    method AckDelivery(key: Key, token: nat, owner: Option<string>, processed: bool, error: Option<string>,
                       retryable: Option<bool>, now: nat, works: bool)
      returns (result: AckResult)
      modifies this
      ensures var held := old(key in delivery.deliveries && IsHeldBy(delivery.deliveries[key], token, owner, now));
              && (result.NotYours? <==> !held)
              && (!held ==> View() == old(View()))
              && (held && processed ==>
                    && result.Acknowledged?
                    && IsProcessed(View(), key) && result.delivery == delivery.deliveries[key]
                    && (buffers, result.archive) == Archive(old(buffers), key, works))
              && (held && !processed ==>
                    && result.FailureNoted?
                    && buffers == old(buffers)
                    && key in delivery.deliveries
                    && delivery.deliveries[key].status ==
                         (if OrElse(retryable, false) && old(delivery.deliveries[key].attempt_count) < policy.max_attempts
                          then Pending else DeadLetter)
                    && result.delivery == delivery.deliveries[key])
      ensures delivery == Ask(old(delivery), key,
                if processed then Complete(token, owner)
                else Fail(token, owner, OrElse(error, "Delivery failed without a reason"), OrElse(retryable, false)), now, policy)
      ensures old(ArchiveAfterProcessed(View())) ==> ArchiveAfterProcessed(View())
    {
      if processed {
        var completed := Answer(Find(delivery, key), Complete(token, owner), delivery.nextToken, now, policy);
        if completed.None? { return NotYours; }
        ghost var before := View();
        ghost var completing := Apply(before, AckProcessed(key, token, owner, now), policy);
        if ArchiveAfterProcessed(before) {
          StepArchivesAfterProcessed(before, AckProcessed(key, token, owner, now), policy);
          StepArchivesAfterProcessed(completing, ArchiveStep(key, works), policy);
        }
        delivery := Ask(delivery, key, Complete(token, owner), now, policy);
        var archive := ArchiveBuffer(key, works);
        assert View() == Apply(completing, ArchiveStep(key, works), policy);
        return Acknowledged(completed.value, archive);
      }
      var reason := OrElse(error, "Delivery failed without a reason");
      var request := Fail(token, owner, reason, OrElse(retryable, false));
      var failed := Answer(Find(delivery, key), request, delivery.nextToken, now, policy);
      if failed.None? { return NotYours; }
      delivery := Ask(delivery, key, request, now, policy);
      return FailureNoted(failed.value);
    }

    method RepairDeliveredBufferArchive(key: Key, works: bool) returns (warnings: seq<Warning>)
      modifies this`buffers
      ensures View() == Repaired(old(View()), key, works)
      ensures warnings == old(RepairWarnings(View(), key, works))
    {
      if key !in delivery.deliveries || delivery.deliveries[key].status != Processed { return []; }
      var outcome := ArchiveBuffer(key, works);
      match outcome {
        case Archived => return [ArchivedLate];
        case AlreadyArchived => return [];
        case NotPending => return [];
        case Missing => return [NothingLeftToArchive];
        case ArchiveFailed => return [StillPending];
      }
    }

    method RetryExtraction(key: Key, now: nat, works: bool, restores: bool)
      returns (warnings: seq<Warning>, evidence: Option<Evidence>)
      modifies this
      ensures View() == RetryEffect(old(View()), key, now, works, restores, policy)
      ensures evidence.None? <==> !IsAt(buffers, key, InPending)
      ensures evidence.Some? ==> EvidenceOf(evidence.value, key, old(View()), View())
      ensures NothingScheduled in warnings <==> evidence.None?
      ensures WarningsTell(warnings, old(View()), key, works, restores)
      ensures old(ArchiveAfterProcessed(View())) ==> ArchiveAfterProcessed(View())
    {
      ghost var before := View();
      RetryKeepsArchives(before, key, now, works, restores, policy);
      var repaired := RepairDeliveredBufferArchive(key, works);
      var restored := RestoreDeadLetterBuffer(key, restores);
      var reset := RetryDeadLetterDelivery(key, now);
      warnings := repaired + restored + reset;
      RetryWarningsTell(before, key, works, restores);
      if key !in buffers || buffers[key].location != InPending {
        return warnings + [NothingScheduled], None;
      }
      SubmitEvidence(View(), key, now, policy);
      var submitted, outcome := SubmitContextDelivery(key, now);
      evidence := Some(outcome);
    }

    method RestoreDeadLetterBuffer(key: Key, restores: bool) returns (warnings: seq<Warning>)
      modifies this`buffers
      ensures View() == Unburied(old(View()), key, restores)
      ensures warnings == old(RestoreWarnings(buffers, key, restores))
    {
      if key !in buffers || buffers[key].location != InDeadLetter { return []; }
      if !restores { return [NotRestored]; }
      buffers := buffers[key := buffers[key].(location := InPending)];
      return [];
    }

    method RetryDeadLetterDelivery(key: Key, now: nat) returns (warnings: seq<Warning>)
      modifies this`delivery
      ensures delivery == Ask(old(delivery), key, RetryDeadLetter, now, policy)
      ensures warnings == old(ResetWarnings(delivery.deliveries, key))
    {
      if Succeeds(delivery, key, RetryDeadLetter, now, policy) {
        delivery := Ask(delivery, key, RetryDeadLetter, now, policy);
        return [];
      }
      return if key in delivery.deliveries then [LeftUntouched(delivery.deliveries[key].status)] else [NoDeliveryYet];
    }

    method SubmitContextDelivery(key: Key, now: nat) returns (created: bool, evidence: Evidence)
      modifies this`delivery
      ensures (View(), evidence) == SubmitEffect(old(View()), key, now, policy)
      ensures created <==> evidence == Scheduled(true)
    {
      if key in delivery.deliveries { return false, Scheduled(false); }
      if key.seqNo == 0 || key !in buffers || buffers[key].location != InPending { return false, SkippedNoBuffer; }
      if buffers[key].context == Unreadable { return false, FailedUnreadable; }
      delivery := Ask(delivery, key, Submit(buffers[key].task_id), now, policy);
      return true, Scheduled(true);
    }

    /** The role's deliveries, each listed once. */
    method ListContextDeliveries(role: string) returns (items: seq<(Key, Delivery)>)
      ensures Lists(items, delivery.deliveries, role)
    {
      items := [];
      var todo := delivery.deliveries.Keys;
      while todo != {}
        invariant todo <= delivery.deliveries.Keys
        invariant forall i :: 0 <= i < |items| ==> items[i].0 !in todo
        invariant ListsAllBut(items, delivery.deliveries, todo, role)
        decreases |todo|
      {
        SomeKey(todo);
        var key :| key in todo;
        if key.role == role {
          ListOneMore(items, delivery.deliveries, todo, role, key);
          items := items + [(key, delivery.deliveries[key])];
        }
        todo := todo - {key};
      }
    }

    /**
     The delivery view of a role: how many deliveries have each status, which are dead-lettered, and
     the backlog, over the pending Buffers that were read before.
     */
    method DescribeDeliveryState(role: string, pending: set<Key>)
      returns (counts: StatusCounts, deadLetters: seq<Key>, backlog: seq<Key>)
      ensures forall key :: key in backlog <==> key in ReportedBacklog(pending, View(), role)
      ensures pending == PendingKeys(buffers) ==>
                forall key :: key in backlog <==> key.role == role && InBacklog(View(), key)
      ensures forall i, j :: 0 <= i < j < |backlog| ==> backlog[i] != backlog[j]
      ensures forall key :: key in deadLetters <==>
                key.role == role && key in delivery.deliveries && delivery.deliveries[key].status.DeadLetter?
      ensures counts == RoleCounts(delivery.deliveries, role)
      ensures |deadLetters| == counts.dead_letter && |backlog| <= counts.processed
    {
      var items := ListContextDeliveries(role);
      var statuses: seq<Delivery>;
      statuses, deadLetters, backlog := ReadItems(items, pending);
      counts := CountDeliveryStatus(statuses);
      CountIsWithStatus(items, statuses, delivery.deliveries, role, Pending);
      CountIsWithStatus(items, statuses, delivery.deliveries, role, Processing);
      CountIsWithStatus(items, statuses, delivery.deliveries, role, Processed);
      CountIsWithStatus(items, statuses, delivery.deliveries, role, DeadLetter);
      ReadKeys(items, delivery.deliveries, role);
    }
  }

  predicate Listed(items: seq<(Key, Delivery)>, key: Key) {
    exists i :: 0 <= i < |items| && items[i].0 == key
  }

  /** The items are the role's deliveries but for some keys, each once. */
  ghost predicate ListsAllBut(items: seq<(Key, Delivery)>, deliveries: map<Key, Delivery>, todo: set<Key>, role: string) {
    && (forall i :: 0 <= i < |items| ==>
          items[i].0.role == role && items[i].0 in deliveries && deliveries[items[i].0] == items[i].1)
    && (forall key :: key in deliveries && key.role == role && key !in todo ==> Listed(items, key))
    && (forall i, j :: 0 <= i < j < |items| ==> items[i].0 != items[j].0)
  }

  ghost predicate Lists(items: seq<(Key, Delivery)>, deliveries: map<Key, Delivery>, role: string) {
    ListsAllBut(items, deliveries, {}, role)
  }

  lemma ListOneMore(items: seq<(Key, Delivery)>, deliveries: map<Key, Delivery>, todo: set<Key>, role: string, key: Key)
    requires ListsAllBut(items, deliveries, todo, role)
    requires key in deliveries && key.role == role && key in todo
    requires forall i :: 0 <= i < |items| ==> items[i].0 !in todo
    ensures ListsAllBut(items + [(key, deliveries[key])], deliveries, todo - {key}, role)
  {
    var more := items + [(key, deliveries[key])];
    forall k | k in deliveries && k.role == role && k !in todo - {key} ensures Listed(more, k) {
      if k == key {
        assert more[|items|].0 == k;
      } else {
        var i :| 0 <= i < |items| && items[i].0 == k;
        assert more[i].0 == k;
      }
    }
  }

  lemma SomeKey(s: set<Key>)
    requires s != {}
    ensures exists k :: k in s
  {
    assert (forall k :: k in s ==> k in {}) ==> s <= {};
  }
}
