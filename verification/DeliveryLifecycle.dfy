/**
 The life of a context delivery: pending, claimed under a lease with a fresh fencing token, then
 processed, back to pending, or dead-lettered.

 The rules say how one record changes; each returns nothing when the change is not allowed.
 */
module DeliveryLifecycle {
  import opened Wrappers

  datatype Status = Pending | Processing | Processed | DeadLetter

  datatype Delivery = Delivery(
    task_id: string,
    status: Status,
    attempt_count: nat,
    claimed_at: Option<nat>,
    claim_owner: Option<string>,
    claim_token: Option<nat>,
    lease_expires_at: Option<nat>,
    next_retry_at: Option<nat>,
    last_error: Option<string>,
    updated_at: nat)

  datatype RetryPolicy = RetryPolicy(max_attempts: nat, base_delay_ms: nat, max_delay_ms: nat)

  function NewDelivery(task: string, now: nat): Delivery {
    Delivery(task, Pending, 0, None, None, None, None, None, None, now)
  }

  function Pow2(n: nat): nat {
    if n == 0 then 1 else 2 * Pow2(n - 1)
  }

  function RetryDelayMs(attempt: nat, policy: RetryPolicy): nat {
    var delay := policy.base_delay_ms * Pow2(if attempt > 0 then attempt - 1 else 0);
    if delay < policy.max_delay_ms then delay else policy.max_delay_ms
  }

  predicate IsDue(d: Delivery, now: nat) {
    d.status.Pending? && (d.next_retry_at.Some? ==> d.next_retry_at.value <= now)
  }

  /** A record in processing without a lease counts as expired. */
  predicate IsExpired(d: Delivery, now: nat) {
    d.status.Processing? && (d.lease_expires_at.Some? ==> d.lease_expires_at.value <= now)
  }

  predicate IsHeldBy(d: Delivery, token: nat, owner: Option<string>, now: nat) {
    && d.status.Processing?
    && d.claim_token == Some(token)
    && (owner.Some? ==> d.claim_owner == owner)
    && !IsExpired(d, now)
  }

  function Claimed(d: Delivery, owner: string, token: nat, leaseMs: nat, now: nat, policy: RetryPolicy): Option<Delivery> {
    if !IsDue(d, now) || d.attempt_count >= policy.max_attempts then None
    else Some(d.(status := Processing, attempt_count := d.attempt_count + 1, claimed_at := Some(now),
                 claim_owner := Some(owner), claim_token := Some(token), lease_expires_at := Some(now + leaseMs),
                 next_retry_at := None, updated_at := now))
  }

  function Renewed(d: Delivery, token: nat, owner: Option<string>, leaseMs: nat, now: nat): Option<Delivery> {
    if !IsHeldBy(d, token, owner, now) then None
    else Some(d.(lease_expires_at := Some(now + leaseMs), updated_at := now))
  }

  /** Without its credentials: no token, no lease, no retry time. */
  function Released(d: Delivery, status: Status, error: Option<string>, now: nat): Delivery {
    d.(status := status, claim_token := None, lease_expires_at := None, next_retry_at := None,
       last_error := error, updated_at := now)
  }

  function Completed(d: Delivery, token: nat, owner: Option<string>, now: nat): Option<Delivery> {
    if !IsHeldBy(d, token, owner, now) then None else Some(Released(d, Processed, None, now))
  }

  function Failed(d: Delivery, token: nat, owner: Option<string>, error: string, retryable: bool, now: nat, policy: RetryPolicy): Option<Delivery> {
    if !IsHeldBy(d, token, owner, now) then None
    else if !retryable || d.attempt_count >= policy.max_attempts then Some(Released(d, DeadLetter, Some(error), now))
    else Some(Released(d, Pending, Some(error), now)
              .(next_retry_at := Some(now + RetryDelayMs(d.attempt_count, policy))))
  }

  const LEASE_EXPIRED := "Claim lease expired without completion."

  function Expired(d: Delivery, now: nat, policy: RetryPolicy): Option<Delivery> {
    if !IsExpired(d, now) then None
    else Some(Released(d, if d.attempt_count >= policy.max_attempts then DeadLetter else Pending, Some(LEASE_EXPIRED), now))
  }

  function Reset(d: Delivery, now: nat): Option<Delivery> {
    if !d.status.DeadLetter? then None
    else Some(Released(d, Pending, None, now).(attempt_count := 0, claimed_at := None, claim_owner := None))
  }

  // ----- one record under every rule -----

  /** What can be asked of a delivery. The token of a claim is the store's, not the caller's. */
  datatype Request =
    | Submit(task: string)
    | Claim(worker: string, leaseMs: nat)
    | Renew(token: nat, owner: Option<string>, leaseMs: nat)
    | Complete(token: nat, owner: Option<string>)
    | Fail(token: nat, owner: Option<string>, error: string, retryable: bool)
    | RestoreExpired
    | RetryDeadLetter

  /** The record after a request, or nothing when the request changes nothing. */
  function Answer(d: Option<Delivery>, r: Request, freshToken: nat, now: nat, policy: RetryPolicy): Option<Delivery> {
    match d
    case None => if r.Submit? then Some(NewDelivery(r.task, now)) else None
    case Some(d) =>
      match r
      case Submit(_) => None
      case Claim(worker, leaseMs) => Claimed(d, worker, freshToken, leaseMs, now, policy)
      case Renew(token, owner, leaseMs) => Renewed(d, token, owner, leaseMs, now)
      case Complete(token, owner) => Completed(d, token, owner, now)
      case Fail(token, owner, error, retryable) => Failed(d, token, owner, error, retryable, now, policy)
      case RestoreExpired => Expired(d, now, policy)
      case RetryDeadLetter => Reset(d, now)
  }

  /** What every record written by these rules satisfies. */
  predicate Sound(d: Delivery, policy: RetryPolicy) {
    && (d.status.Processing? <==> d.claim_token.Some?)
    && (d.status.Processing? <==> d.lease_expires_at.Some?)
    && (d.next_retry_at.Some? ==> d.status.Pending?)
    && (d.status.Processing? ==> d.attempt_count >= 1)
    && d.attempt_count <= policy.max_attempts
  }

  lemma AnswersAreSound(d: Option<Delivery>, r: Request, freshToken: nat, now: nat, policy: RetryPolicy)
    requires d.Some? ==> Sound(d.value, policy)
    ensures var e := Answer(d, r, freshToken, now, policy); e.Some? ==> Sound(e.value, policy)
  {
  }

  /** No request moves a processed delivery, and a repeated submission changes nothing. */
  lemma ProcessedIsFinal(d: Delivery, r: Request, freshToken: nat, now: nat, policy: RetryPolicy)
    ensures d.status.Processed? || r.Submit? ==> Answer(Some(d), r, freshToken, now, policy) == None
  {
  }

  // ----- many records, tokens and history -----

  datatype Key = Key(role: string, seqNo: nat)

  datatype Entry =
    | ClaimGiven(key: Key, token: nat)
    | HolderFinished(key: Key, token: nat, ok: bool)
    | Other

  /** The delivery store, the next unused token, and the history of claims and their ends. */
  datatype Store = Store(deliveries: map<Key, Delivery>, nextToken: nat, history: seq<Entry>)

  const EMPTY_STORE := Store(map[], 0, [])

  function Find(store: Store, key: Key): Option<Delivery> {
    if key in store.deliveries then Some(store.deliveries[key]) else None
  }

  function EntryFor(key: Key, r: Request, freshToken: nat): Entry {
    match r
    case Claim(_, _) => ClaimGiven(key, freshToken)
    case Complete(token, _) => HolderFinished(key, token, true)
    case Fail(token, _, _, _) => HolderFinished(key, token, false)
    case _ => Other
  }

  function Ask(store: Store, key: Key, r: Request, now: nat, policy: RetryPolicy): Store {
    match Answer(Find(store, key), r, store.nextToken, now, policy)
    case None => store
    case Some(d) =>
      Store(store.deliveries[key := d], store.nextToken + 1, store.history + [EntryFor(key, r, store.nextToken)])
  }

  function Succeeds(store: Store, key: Key, r: Request, now: nat, policy: RetryPolicy): bool {
    Answer(Find(store, key), r, store.nextToken, now, policy).Some?
  }

  function LastClaim(history: seq<Entry>, key: Key): Option<nat> {
    if history == [] then None
    else
      var last := history[|history| - 1];
      if last.ClaimGiven? && last.key == key then Some(last.token) else LastClaim(history[..|history| - 1], key)
  }

  /** Every claim was finished at most once, by its own token, while it was the record's last claim. */
  ghost predicate Fenced(history: seq<Entry>) {
    forall i :: 0 <= i < |history| && history[i].HolderFinished? ==>
      && LastClaim(history[..i], history[i].key) == Some(history[i].token)
      && forall h :: 0 <= h < i && history[h].HolderFinished? ==> history[h].token != history[i].token
  }

  ghost predicate TokensCurrent(store: Store) {
    forall key :: key in store.deliveries && store.deliveries[key].claim_token.Some? ==>
      var token := store.deliveries[key].claim_token.value;
      && token < store.nextToken
      && LastClaim(store.history, key) == Some(token)
      && forall h :: 0 <= h < |store.history| && store.history[h].HolderFinished? ==> store.history[h].token != token
  }

  ghost predicate TokensOld(store: Store) {
    forall i :: 0 <= i < |store.history| ==>
      (store.history[i].ClaimGiven? || store.history[i].HolderFinished? ==> store.history[i].token < store.nextToken)
  }

  ghost predicate TokensDistinct(store: Store) {
    forall k, l :: k in store.deliveries && l in store.deliveries && k != l
                   && store.deliveries[k].claim_token.Some? && store.deliveries[l].claim_token.Some? ==>
      store.deliveries[k].claim_token != store.deliveries[l].claim_token
  }

  ghost predicate AllSound(store: Store, policy: RetryPolicy) {
    forall key :: key in store.deliveries ==> Sound(store.deliveries[key], policy)
  }

  ghost predicate StoreInv(store: Store, policy: RetryPolicy) {
    AllSound(store, policy) && Fenced(store.history) && TokensCurrent(store) && TokensOld(store) && TokensDistinct(store)
  }

  lemma LastClaimAppend(history: seq<Entry>, e: Entry, key: Key)
    ensures LastClaim(history + [e], key) ==
            if e.ClaimGiven? && e.key == key then Some(e.token) else LastClaim(history, key)
  {
    assert (history + [e])[..|history|] == history;
  }

  /** How a successful request changes the token of its record. */
  lemma TokenAfter(d: Option<Delivery>, r: Request, freshToken: nat, now: nat, policy: RetryPolicy)
    requires Answer(d, r, freshToken, now, policy).Some?
    ensures var e := Answer(d, r, freshToken, now, policy).value;
            && (r.Claim? ==> e.claim_token == Some(freshToken))
            && (r.Complete? || r.Fail? ==> d.Some? && d.value.claim_token == Some(r.token) && e.claim_token.None?)
            && (r.Renew? ==> d.Some? && e.claim_token == d.value.claim_token)
            && (r.Submit? || r.RestoreExpired? || r.RetryDeadLetter? ==> e.claim_token.None?)
  {
  }

  lemma AskKeepsFenced(store: Store, key: Key, r: Request, now: nat, policy: RetryPolicy)
    requires StoreInv(store, policy)
    ensures Fenced(Ask(store, key, r, now, policy).history)
  {
    var after := Ask(store, key, r, now, policy);
    if Succeeds(store, key, r, now, policy) {
      TokenAfter(Find(store, key), r, store.nextToken, now, policy);
      var n := |store.history|;
      forall i | 0 <= i <= n && after.history[i].HolderFinished?
        ensures LastClaim(after.history[..i], after.history[i].key) == Some(after.history[i].token)
        ensures forall h :: 0 <= h < i && after.history[h].HolderFinished? ==> after.history[h].token != after.history[i].token
      {
        if i < n {
          assert after.history[i] == store.history[i];
          assert after.history[..i] == store.history[..i];
        } else {
          assert after.history[..i] == store.history;
        }
      }
    }
  }

  lemma AskKeepsTokens(store: Store, key: Key, r: Request, now: nat, policy: RetryPolicy)
    requires StoreInv(store, policy)
    ensures var after := Ask(store, key, r, now, policy);
            TokensCurrent(after) && TokensOld(after) && TokensDistinct(after)
  {
    var after := Ask(store, key, r, now, policy);
    if Succeeds(store, key, r, now, policy) {
      TokenAfter(Find(store, key), r, store.nextToken, now, policy);
      var e := EntryFor(key, r, store.nextToken);
      forall k | k in after.deliveries && after.deliveries[k].claim_token.Some?
        ensures after.deliveries[k].claim_token.value < after.nextToken
        ensures LastClaim(after.history, k) == after.deliveries[k].claim_token
        ensures forall h :: 0 <= h < |after.history| && after.history[h].HolderFinished? ==>
                  after.history[h].token != after.deliveries[k].claim_token.value
      {
        LastClaimAppend(store.history, e, k);
        assert k != key ==> store.deliveries[k] == after.deliveries[k];
      }
    }
  }

  lemma AskKeepsInv(store: Store, key: Key, r: Request, now: nat, policy: RetryPolicy)
    requires StoreInv(store, policy)
    ensures StoreInv(Ask(store, key, r, now, policy), policy)
  {
    AskKeepsFenced(store, key, r, now, policy);
    AskKeepsTokens(store, key, r, now, policy);
    AnswersAreSound(Find(store, key), r, store.nextToken, now, policy);
  }

  datatype Asked = Asked(key: Key, request: Request, now: nat)

  function AskAll(store: Store, asked: seq<Asked>, policy: RetryPolicy): Store {
    if asked == [] then store
    else
      var last := asked[|asked| - 1];
      Ask(AskAll(store, asked[..|asked| - 1], policy), last.key, last.request, last.now, policy)
  }

  /**
   Over any sequence of requests at any times: attempts never exceed the policy, credentials exist
   exactly while a delivery is in processing, and a claim is finished at most once, with its own
   token, and only while no later claim has been given.
   */
  lemma {:induction false} AnyRequestsAreFenced(asked: seq<Asked>, policy: RetryPolicy)
    ensures StoreInv(AskAll(EMPTY_STORE, asked, policy), policy)
  {
    if asked != [] {
      AnyRequestsAreFenced(asked[..|asked| - 1], policy);
      var last := asked[|asked| - 1];
      AskKeepsInv(AskAll(EMPTY_STORE, asked[..|asked| - 1], policy), last.key, last.request, last.now, policy);
    }
  }

  // ----- what may be asked when -----

  /** A new claim needs a pending record whose retry time, if it has one, has come, and an attempt left. */
  lemma ClaimIff(store: Store, key: Key, worker: string, leaseMs: nat, now: nat, policy: RetryPolicy)
    requires key in store.deliveries
    ensures var d := store.deliveries[key];
            Succeeds(store, key, Claim(worker, leaseMs), now, policy) <==>
              && d.status == Pending && d.attempt_count < policy.max_attempts
              && (d.next_retry_at == None || d.next_retry_at.value <= now)
  {
  }

  /** The requests of a holder, and whether they are for good. */
  predicate IsHolders(r: Request, token: nat, owner: Option<string>) {
    match r
    case Renew(t, o, _) => t == token && o == owner
    case Complete(t, o) => t == token && o == owner
    case Fail(t, o, _, _) => t == token && o == owner
    case _ => false
  }

  /**
   After a claim, and as long as nothing else is asked of the record: with the claim's own token, and no
   owner or the claim's own, its holder may renew, complete and fail exactly before the lease is over; from
   then on exactly the recovery may take it back. Nobody else can claim it.
   */
  lemma LeaseRules(store: Store, key: Key, worker: string, leaseMs: nat, now: nat, later: nat, policy: RetryPolicy,
                   token: nat, owner: Option<string>, r: Request)
    requires Succeeds(store, key, Claim(worker, leaseMs), now, policy)
    ensures var claimed := Ask(store, key, Claim(worker, leaseMs), now, policy);
            && (IsHolders(r, token, owner) ==>
                  (Succeeds(claimed, key, r, later, policy) <==>
                     token == store.nextToken && (owner == None || owner == Some(worker)) && later < now + leaseMs))
            && (Succeeds(claimed, key, RestoreExpired, later, policy) <==> later >= now + leaseMs)
            && (r.Claim? || r.Submit? || r.RetryDeadLetter? ==> !Succeeds(claimed, key, r, later, policy))
            && claimed.deliveries[key].attempt_count == store.deliveries[key].attempt_count + 1
  {
  }

  /** A renewal before the lease is over moves its end to the new time. */
  lemma RenewedLease(store: Store, key: Key, token: nat, owner: Option<string>, leaseMs: nat, now: nat, later: nat,
                     policy: RetryPolicy)
    requires Succeeds(store, key, Renew(token, owner, leaseMs), now, policy)
    ensures var renewed := Ask(store, key, Renew(token, owner, leaseMs), now, policy);
            && (Succeeds(renewed, key, Complete(token, owner), later, policy) <==> later < now + leaseMs)
            && (Succeeds(renewed, key, RestoreExpired, later, policy) <==> later >= now + leaseMs)
            && renewed.deliveries[key].attempt_count == store.deliveries[key].attempt_count
  {
  }

  /**
   Where the delivery of a worker that has crashed goes: the recovery takes it back exactly if it is in
   processing with its lease over or without one. With an attempt left it can be claimed again at once,
   with a fresh token; otherwise it is a dead letter.
   */
  lemma CrashedIsClaimableIff(store: Store, key: Key, now: nat, worker: string, leaseMs: nat, policy: RetryPolicy)
    requires key in store.deliveries
    ensures var d := store.deliveries[key];
            var restored := Ask(store, key, RestoreExpired, now, policy);
            && (Succeeds(store, key, RestoreExpired, now, policy) <==>
                  d.status == Processing && (d.lease_expires_at == None || d.lease_expires_at.value <= now))
            && (!Succeeds(store, key, RestoreExpired, now, policy) ==> restored == store)
            && (Succeeds(store, key, RestoreExpired, now, policy) ==>
                  && (Succeeds(restored, key, Claim(worker, leaseMs), now, policy) <==> d.attempt_count < policy.max_attempts)
                  && (restored.deliveries[key].status == DeadLetter <==> d.attempt_count >= policy.max_attempts)
                  && restored.nextToken > store.nextToken
                  && restored.deliveries[key].attempt_count == d.attempt_count
                  && restored.deliveries[key].claim_token == None)
  {
  }

  lemma ClaimsFreshToken(store: Store, key: Key, worker: string, leaseMs: nat, now: nat, policy: RetryPolicy)
    requires TokensOld(store) && Succeeds(store, key, Claim(worker, leaseMs), now, policy)
    ensures var token := Ask(store, key, Claim(worker, leaseMs), now, policy).deliveries[key].claim_token;
            && token.Some?
            && forall i :: 0 <= i < |store.history| && store.history[i].ClaimGiven? ==> store.history[i].token != token.value
  {
  }

  /** A dead letter answers one request alone, which makes it claimable at once with no attempt used. */
  lemma DeadLetterRules(store: Store, key: Key, r: Request, now: nat, worker: string, leaseMs: nat, policy: RetryPolicy)
    requires key in store.deliveries && store.deliveries[key].status == DeadLetter
    ensures Succeeds(store, key, r, now, policy) <==> r == RetryDeadLetter
    ensures var reset := Ask(store, key, RetryDeadLetter, now, policy);
            && reset.deliveries[key].attempt_count == 0
            && (Succeeds(reset, key, Claim(worker, leaseMs), now, policy) <==> policy.max_attempts > 0)
  {
  }

  /** And no request but that can ever bring it back. */
  lemma {:induction false} DeadUntilRetried(store: Store, asked: seq<Asked>, policy: RetryPolicy, key: Key)
    requires key in store.deliveries && store.deliveries[key].status == DeadLetter
    requires forall i :: 0 <= i < |asked| && asked[i].key == key ==> asked[i].request != RetryDeadLetter
    ensures var after := AskAll(store, asked, policy);
            key in after.deliveries && after.deliveries[key] == store.deliveries[key]
  {
    if asked != [] {
      var n := |asked| - 1;
      DeadUntilRetried(store, asked[..n], policy, key);
      var before := AskAll(store, asked[..n], policy);
      DeadLetterRules(before, key, asked[n].request, asked[n].now, "", 0, policy);
    }
  }

  /** A submission makes a new record, claimable at once, and changes nothing if there is one. */
  lemma SubmitThenClaim(store: Store, key: Key, task: string, now: nat, worker: string, leaseMs: nat, policy: RetryPolicy)
    ensures var submitted := Ask(store, key, Submit(task), now, policy);
            && (Succeeds(store, key, Submit(task), now, policy) <==> key !in store.deliveries)
            && (key !in store.deliveries ==>
                  && submitted.deliveries[key].task_id == task
                  && submitted.deliveries[key].attempt_count == 0
                  && (Succeeds(submitted, key, Claim(worker, leaseMs), now, policy) <==> policy.max_attempts > 0))
  {
  }

  /** How long a delivery waits that has failed some times: twice as long each time, up to the limit. */
  lemma DelaysDouble(attempt: nat, policy: RetryPolicy)
    requires attempt >= 1
    ensures RetryDelayMs(1, policy) ==
            if policy.base_delay_ms <= policy.max_delay_ms then policy.base_delay_ms else policy.max_delay_ms
    ensures RetryDelayMs(attempt + 1, policy) ==
            if 2 * RetryDelayMs(attempt, policy) <= policy.max_delay_ms then 2 * RetryDelayMs(attempt, policy)
            else policy.max_delay_ms
  {
    assert Pow2(attempt) == 2 * Pow2(attempt - 1);
    var power := Pow2(attempt - 1);
    assert policy.base_delay_ms * (2 * power) == 2 * (policy.base_delay_ms * power);
  }

  /**
   After a failure: if it can be retried and attempts are left, a claim succeeds exactly from the end of
   the wait on; otherwise the delivery is a dead letter.
   */
  lemma FailThenClaim(store: Store, key: Key, token: nat, owner: Option<string>, error: string, retryable: bool,
                      now: nat, later: nat, worker: string, leaseMs: nat, policy: RetryPolicy)
    requires Succeeds(store, key, Fail(token, owner, error, retryable), now, policy)
    ensures var used := store.deliveries[key].attempt_count;
            var failed := Ask(store, key, Fail(token, owner, error, retryable), now, policy);
            && failed.deliveries[key].last_error == Some(error)
            && (if retryable && used < policy.max_attempts
                then Succeeds(failed, key, Claim(worker, leaseMs), later, policy) <==> later >= now + RetryDelayMs(used, policy)
                else failed.deliveries[key].status == DeadLetter)
  {
  }

  /** A completed delivery is processed, and nothing was changed but what a completion changes. */
  lemma CompleteProcesses(store: Store, key: Key, token: nat, owner: Option<string>, now: nat, policy: RetryPolicy)
    requires Succeeds(store, key, Complete(token, owner), now, policy)
    ensures var d, e := store.deliveries[key], Ask(store, key, Complete(token, owner), now, policy).deliveries[key];
            && e.status == Processed && e.last_error == None
            && e.task_id == d.task_id && e.claim_owner == d.claim_owner && e.claimed_at == d.claimed_at
            && e.attempt_count == d.attempt_count && e.updated_at == now
  {
  }

  /** A request to one delivery leaves all others as they are. */
  lemma OthersUntouched(store: Store, key: Key, r: Request, now: nat, policy: RetryPolicy, other: Key)
    requires other != key
    ensures Find(Ask(store, key, r, now, policy), other) == Find(store, other)
  {
  }
}
