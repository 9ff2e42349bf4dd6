/**
 The two routes a usage observation takes: folded at once into the task's accumulator, and written
 as one ledger line per observation, to be read back and folded later.
 */
module UsageLedger {
  import opened Wrappers
  import opened DriverEvents
  import opened DriverUsage
  import opened Ordering
  import AuditLog

  const RECORD_SCHEMA := "newide.driver-usage-record.v1"
  const METRIC := "context_tokens_used"

  /** A ledger line; the fields the reader checks are kept as the JSON values they are. */
  datatype UsageRecord = UsageRecord(
    schema_version: string,
    metric: string,
    recorded_at: Option<Timestamp>,
    run_id: string,
    task_id: string,
    stream_sequence: nat,
    session_id: Option<Json>,
    role_id: Option<Json>,
    context_tokens_used: Option<Json>,
    context_window_size: Option<Json>,
    reported_cost: Option<Json>)

  /** What becomes of a write to the coordination store; there may be no store. */
  datatype StoreFate = Stores | StoreThrows | NoStore

  /** What becomes of the writes made for an event: to the log, to the usage ledger, to the store. */
  datatype Fate = Fate(log: AuditLog.Outcome, ledger: bool, store: StoreFate)

  /** An event as the backend receives it: whose it is, the time stamp given to it, and its writes' fate. */
  datatype Arrival = Arrival(run_id: string, task_id: string, event: DriverStreamEvent, at: Timestamp, fate: Fate)

  function CostFrom(value: Option<Json>): Option<Cost> {
    var cost := AsRecord(value);
    var amount := FiniteNonnegative(Get(cost, "amount"));
    var currency := NonemptyString(Get(cost, "currency"));
    if amount.Some? && currency.Some? then Some(Cost(amount.value, currency.value)) else None
  }

  function ObservationFromEvent(event: DriverStreamEvent, at: Timestamp, complete: bool): Option<Observation> {
    if event.event_type != "usage_update" then None
    else
      var payload := AsRecord(event.payload);
      var update := AsRecord(Get(payload, "update"));
      var used := FiniteNonnegative(Get(update, "used"));
      var own := Nonempty(event.session_id);
      var session := if own.Some? then own else NonemptyString(Get(payload, "sessionId"));
      if used.None? || session.None? then None
      else
        var cost := CostFrom(Get(update, "cost"));
        Some(Observation(session.value, Nonempty(event.role_id), used.value, FiniteNonnegative(Get(update, "size")),
                         cost, if cost.Some? then Some(at) else None, complete))
  }

  function CostJson(cost: Cost): Json {
    JObj(map["amount" := JNum(cost.amount), "currency" := JStr(cost.currency)])
  }

  function RecordFromObservation(o: Observation, run: string, task: string, streamSequence: nat, at: Timestamp): UsageRecord {
    UsageRecord(
      RECORD_SCHEMA, METRIC, Some(at), run, task, streamSequence,
      Some(JStr(o.session)),
      if o.role.Some? && o.role.value != "" then Some(JStr(o.role.value)) else None,
      Some(JNum(o.tokens)),
      if o.window.Some? then Some(JNum(o.window.value)) else None,
      if o.cost.Some? then Some(CostJson(o.cost.value)) else None)
  }

  function ObservationFromRecord(r: UsageRecord): Option<Observation> {
    if r.schema_version != RECORD_SCHEMA || r.metric != METRIC then None
    else
      var session := NonemptyString(r.session_id);
      var used := FiniteNonnegative(r.context_tokens_used);
      if session.None? || used.None? then None
      else
        var cost := CostFrom(r.reported_cost);
        Some(Observation(session.value, NonemptyString(r.role_id), used.value, FiniteNonnegative(r.context_window_size),
                         cost, if cost.Some? then Some(OrElse(r.recorded_at, 0)) else None, cost.Some?))
  }

  /** What `ObservationFromEvent` guarantees of an observation stamped `at`. */
  predicate StampedAt(o: Observation, at: Timestamp) {
    && WellFormed(o)
    && (o.cost.Some? ==> o.cost.value.amount >= 0.0 && o.cost.value.currency != "" && o.costAt == Some(at))
  }

  lemma EventsGiveStamped(event: DriverStreamEvent, at: Timestamp, complete: bool)
    ensures var o := ObservationFromEvent(event, at, complete);
            o.Some? ==> StampedAt(o.value, at) && o.value.complete == complete
  {
  }

  predicate IsAmount(value: Option<Json>) {
    value.Some? && value.value.JNum? && value.value.num >= 0.0
  }

  predicate IsText(value: Option<Json>) {
    value.Some? && value.value.JStr? && value.value.text != ""
  }

  /**
   What is observed of an event, place by place: one that updates usage, has a nonnegative number used and
   names a session, itself or in its payload. Window, role and cost are there if they are at their places.
   */
  lemma ObservationTold(event: DriverStreamEvent, at: Timestamp, complete: bool)
    ensures var o := ObservationFromEvent(event, at, complete);
            var used, size := Along(event.payload, ["update", "used"]), Along(event.payload, ["update", "size"]);
            var amount := Along(event.payload, ["update", "cost", "amount"]);
            var currency := Along(event.payload, ["update", "cost", "currency"]);
            var named := Along(event.payload, ["sessionId"]);
            var own := event.session_id.Some? && event.session_id.value != "";
            && (o.Some? <==> event.event_type == "usage_update" && IsAmount(used) && (own || IsText(named)))
            && (o.Some? ==>
                  && o.value.session == (if own then event.session_id.value else named.value.text)
                  && o.value.role == (if event.role_id == Some("") then None else event.role_id)
                  && o.value.tokens == used.value.num
                  && o.value.window == (if IsAmount(size) then Some(size.value.num) else None)
                  && o.value.cost ==
                       (if IsAmount(amount) && IsText(currency) then Some(Cost(amount.value.num, currency.value.text)) else None)
                  && o.value.costAt == (if IsAmount(amount) && IsText(currency) then Some(at) else None)
                  && o.value.complete == complete)
  {
    Along2(event.payload, "update", "used");
    Along2(event.payload, "update", "size");
    Along3(event.payload, "update", "cost", "amount");
    Along3(event.payload, "update", "cost", "currency");
    Along1(event.payload, "sessionId");
  }

  /** A ledger line as it is written, and that lines of another schema or metric are not read. */
  lemma RecordTold(o: Observation, run: string, task: string, n: nat, at: Timestamp, r: UsageRecord)
    requires StampedAt(o, at)
    ensures var r := RecordFromObservation(o, run, task, n, at);
            && r.schema_version == "newide.driver-usage-record.v1" && r.metric == "context_tokens_used"
            && r.recorded_at == Some(at) && r.run_id == run && r.task_id == task && r.stream_sequence == n
            && r.session_id == Some(JStr(o.session)) && r.context_tokens_used == Some(JNum(o.tokens))
            && (o.role.Some? ==> r.role_id == Some(JStr(o.role.value)))
            && (o.window.Some? ==> r.context_window_size == Some(JNum(o.window.value)))
            && (o.cost.Some? ==>
                  && Along(r.reported_cost, ["amount"]) == Some(JNum(o.cost.value.amount))
                  && Along(r.reported_cost, ["currency"]) == Some(JStr(o.cost.value.currency)))
            && (o.role.None? ==> r.role_id.None?) && (o.window.None? ==> r.context_window_size.None?)
            && (o.cost.None? ==> r.reported_cost.None?)
    ensures r.schema_version != "newide.driver-usage-record.v1" || r.metric != "context_tokens_used" ==>
              ObservationFromRecord(r).None?
  {
    var cost := RecordFromObservation(o, run, task, n, at).reported_cost;
    Along1(cost, "amount");
    Along1(cost, "currency");
  }

  function OnlyTerminalComplete(o: Observation): Observation {
    o.(complete := o.cost.Some?)
  }

  /** Writing an observation and reading it back loses nothing; only a cost makes it complete. */
  lemma RecordRoundTrip(o: Observation, run: string, task: string, n: nat, at: Timestamp)
    requires StampedAt(o, at)
    ensures ObservationFromRecord(RecordFromObservation(o, run, task, n, at)) == Some(OnlyTerminalComplete(o))
  {
    if o.cost.Some? {
      var fields := AsRecord(Some(CostJson(o.cost.value)));
      assert Get(fields, "amount") == Some(JNum(o.cost.value.amount));
      assert Get(fields, "currency") == Some(JStr(o.cost.value.currency));
    }
  }

  // ----- the two views of a sequence of arrivals -----

  /** What the accumulator of `task` has observed. */
  function Observed(arrivals: seq<Arrival>, task: string): seq<Observation> {
    if arrivals == [] then []
    else
      var n := |arrivals| - 1;
      var o := ObservationFromEvent(arrivals[n].event, arrivals[n].at, true);
      Observed(arrivals[..n], task) + (if arrivals[n].task_id == task && o.Some? then [o.value] else [])
  }

  /** The numbers `nextDriverStreamSequence` has given out for `run`. */
  function NumberOf(arrivals: seq<Arrival>, run: string): nat {
    if arrivals == [] then 0
    else NumberOf(arrivals[..|arrivals| - 1], run) + (if arrivals[|arrivals| - 1].run_id == run then 1 else 0)
  }

  /** The ledger of `run`: a line for every usage observation, whichever task it is for. */
  function Ledger(arrivals: seq<Arrival>, run: string): seq<UsageRecord> {
    if arrivals == [] then []
    else
      var n := |arrivals| - 1;
      var a := arrivals[n];
      var o := ObservationFromEvent(a.event, a.at, true);
      Ledger(arrivals[..n], run) +
      (if a.run_id == run && o.Some?
       then [RecordFromObservation(o.value, a.run_id, a.task_id, NumberOf(arrivals, run), a.at)] else [])
  }

  function ReadLedger(records: seq<UsageRecord>, task: string): seq<Observation> {
    if records == [] then []
    else
      var n := |records| - 1;
      var o := ObservationFromRecord(records[n]);
      ReadLedger(records[..n], task) + (if records[n].task_id == task && o.Some? then [o.value] else [])
  }

  function OnlyTerminalCompleteAll(obs: seq<Observation>): seq<Observation> {
    seq(|obs|, i requires 0 <= i < |obs| => OnlyTerminalComplete(obs[i]))
  }

  lemma {:induction false} ReadLedgerStep(records: seq<UsageRecord>, r: UsageRecord, task: string)
    ensures ReadLedger(records + [r], task) == ReadLedger(records, task) +
            (if r.task_id == task && ObservationFromRecord(r).Some? then [ObservationFromRecord(r).value] else [])
  {
    assert (records + [r])[..|records|] == records;
  }

  lemma {:induction false} ObservedWellFormed(arrivals: seq<Arrival>, task: string)
    ensures AllWellFormed(Observed(arrivals, task))
    ensures forall i :: 0 <= i < |Observed(arrivals, task)| ==> Observed(arrivals, task)[i].complete
  {
    if arrivals != [] {
      var n := |arrivals| - 1;
      ObservedWellFormed(arrivals[..n], task);
      EventsGiveStamped(arrivals[n].event, arrivals[n].at, true);
    }
  }

  ghost predicate OneRun(arrivals: seq<Arrival>, run: string, task: string) {
    forall i :: 0 <= i < |arrivals| && arrivals[i].task_id == task ==> arrivals[i].run_id == run
  }

  /** One more arrival adds to what is read back its own observation, if it is of this run and task. */
  lemma ReadBackStep(arrivals: seq<Arrival>, run: string, task: string)
    requires arrivals != []
    ensures var n := |arrivals| - 1; var a := arrivals[n];
            var o := ObservationFromEvent(a.event, a.at, true);
            ReadLedger(Ledger(arrivals, run), task) == ReadLedger(Ledger(arrivals[..n], run), task) +
            (if a.run_id == run && a.task_id == task && o.Some? then [OnlyTerminalComplete(o.value)] else [])
  {
    var n := |arrivals| - 1;
    var a := arrivals[n];
    var o := ObservationFromEvent(a.event, a.at, true);
    if a.run_id == run && o.Some? {
      EventsGiveStamped(a.event, a.at, true);
      var r := RecordFromObservation(o.value, a.run_id, a.task_id, NumberOf(arrivals, run), a.at);
      RecordRoundTrip(o.value, a.run_id, a.task_id, NumberOf(arrivals, run), a.at);
      ReadLedgerStep(Ledger(arrivals[..n], run), r, task);
    } else {
      assert Ledger(arrivals, run) == Ledger(arrivals[..n], run);
    }
  }

  lemma ObservedStep(arrivals: seq<Arrival>, task: string)
    requires arrivals != []
    ensures var n := |arrivals| - 1; var a := arrivals[n];
            var o := ObservationFromEvent(a.event, a.at, true);
            OnlyTerminalCompleteAll(Observed(arrivals, task)) == OnlyTerminalCompleteAll(Observed(arrivals[..n], task)) +
            (if a.task_id == task && o.Some? then [OnlyTerminalComplete(o.value)] else [])
  {
    var n := |arrivals| - 1;
    var o := ObservationFromEvent(arrivals[n].event, arrivals[n].at, true);
    OnlyTerminalConcat(Observed(arrivals[..n], task), if arrivals[n].task_id == task && o.Some? then [o.value] else []);
  }

  lemma OnlyTerminalConcat(a: seq<Observation>, b: seq<Observation>)
    ensures OnlyTerminalCompleteAll(a + b) == OnlyTerminalCompleteAll(a) + OnlyTerminalCompleteAll(b)
    ensures |b| == 1 ==> OnlyTerminalCompleteAll(b) == [OnlyTerminalComplete(b[0])]
    ensures b == [] ==> OnlyTerminalCompleteAll(b) == []
  {
  }

  /** Reading a run's ledger gives the accumulator's own observations, in order. */
  lemma {:induction false} LedgerReplaysObserved(arrivals: seq<Arrival>, run: string, task: string)
    requires OneRun(arrivals, run, task)
    ensures ReadLedger(Ledger(arrivals, run), task) == OnlyTerminalCompleteAll(Observed(arrivals, task))
  {
    if arrivals != [] {
      var n := |arrivals| - 1;
      var a, front := arrivals[n], arrivals[..n];
      assert forall i :: 0 <= i < n ==> front[i] == arrivals[i];
      LedgerReplaysObserved(front, run, task);
      ReadBackStep(arrivals, run, task);
      ObservedStep(arrivals, task);
      assert a.task_id == task ==> a.run_id == run;
    }
  }

  function Blank(o: Observation): Observation {
    o.(complete := false)
  }

  function BlankAll(obs: seq<Observation>): seq<Observation> {
    seq(|obs|, i requires 0 <= i < |obs| => Blank(obs[i]))
  }

  function BlankRecord(o: Option<Observation>): Option<Observation> {
    if o.Some? then Some(Blank(o.value)) else None
  }

  lemma {:induction false} FoldIgnoresComplete(obs: seq<Observation>, x: string)
    ensures Lookup(FoldAll(map[], BlankAll(obs)), x) == BlankRecord(Lookup(FoldAll(map[], obs), x))
  {
    if obs != [] {
      var n := |obs| - 1;
      assert BlankAll(obs)[..n] == BlankAll(obs[..n]);
      FoldIgnoresComplete(obs[..n], x);
      FoldIgnoresComplete(obs[..n], obs[n].session);
    }
  }

  ghost predicate SawCost(obs: seq<Observation>, x: string) {
    exists i :: Seen(obs, x, i) && obs[i].cost.Some?
  }

  lemma CompletenessOfViews(obs: seq<Observation>, x: string)
    requires AllWellFormed(obs) && forall i :: 0 <= i < |obs| ==> obs[i].complete
    ensures var live, ledger := FoldAll(map[], obs), FoldAll(map[], OnlyTerminalCompleteAll(obs));
            && (x in live ==> live[x].complete)
            && (x in ledger ==> (ledger[x].complete <==> SawCost(obs, x)))
  {
    var t := OnlyTerminalCompleteAll(obs);
    FoldSummarises(obs, x);
    FoldSummarises(t, x);
    assert forall i :: Seen(t, x, i) <==> Seen(obs, x, i);
  }

  /**
   With no write failure, the ledger of a run projects to the sessions the live accumulator holds,
   in every field but one: the accumulator calls every session complete, the ledger exactly those
   for which an update carried a cost.
   */
  lemma LedgerAgreesWithAccumulator(arrivals: seq<Arrival>, run: string, task: string, x: string)
    requires OneRun(arrivals, run, task)
    ensures var obs := Observed(arrivals, task);
            var live, ledger := FoldAll(map[], obs), FoldAll(map[], ReadLedger(Ledger(arrivals, run), task));
            && BlankRecord(Lookup(live, x)) == BlankRecord(Lookup(ledger, x))
            && (x in live ==> live[x].complete)
            && (x in ledger ==> (ledger[x].complete <==> SawCost(obs, x)))
  {
    var obs := Observed(arrivals, task);
    LedgerReplaysObserved(arrivals, run, task);
    ObservedWellFormed(arrivals, task);
    var read := OnlyTerminalCompleteAll(obs);
    assert BlankAll(read) == BlankAll(obs);
    FoldIgnoresComplete(obs, x);
    FoldIgnoresComplete(read, x);
    CompletenessOfViews(obs, x);
  }

  lemma ListedAlike(live: Observation, ledger: Observation, saw: bool)
    requires Blank(live) == Blank(ledger) && (ledger.complete <==> saw)
    ensures Project(ledger) == Project(live).(complete := saw)
  {
  }

  /**
   So the two finished aggregates list the same sessions with the same values but for `complete`, and
   have the same tokens, the same sums by currency and the same availability. The live one is always
   complete; the ledger's is exactly if some update of every session carried a cost.
   */
  lemma LedgerTotalsAgree(arrivals: seq<Arrival>, run: string, task: string)
    requires OneRun(arrivals, run, task)
    ensures var obs := Observed(arrivals, task);
            var live := Aggregate(FoldAll(map[], obs));
            var ledger := Aggregate(FoldAll(map[], ReadLedger(Ledger(arrivals, run), task)));
            && |ledger.sessions| == |live.sessions|
            && (forall i :: 0 <= i < |live.sessions| ==>
                  ledger.sessions[i] == live.sessions[i].(complete := SawCost(obs, live.sessions[i].session)))
            && ledger.tokens == live.tokens && ledger.costs == live.costs && ledger.available == live.available
            && live.complete == live.available
            && (ledger.complete <==>
                  live.available && forall i :: 0 <= i < |live.sessions| ==> SawCost(obs, live.sessions[i].session))
  {
    var obs := Observed(arrivals, task);
    var live, ledger := FoldAll(map[], obs), FoldAll(map[], ReadLedger(Ledger(arrivals, run), task));
    forall x
      ensures x in live <==> x in ledger
      ensures x in live ==> Blank(live[x]) == Blank(ledger[x]) && live[x].complete
                            && (ledger[x].complete <==> SawCost(obs, x))
    {
      LedgerAgreesWithAccumulator(arrivals, run, task, x);
      assert BlankRecord(Lookup(live, x)) == BlankRecord(Lookup(ledger, x));
    }
    assert live.Keys == ledger.Keys;
    ObservedWellFormed(arrivals, task);
    FoldKeepsGood(map[], obs);
    var l, m := ProjectedSessions(live), ProjectedSessions(ledger);
    forall i | 0 <= i < |SortedSeq(live.Keys)|
      ensures i < |l| == |m| && m[i] == l[i].(complete := SawCost(obs, l[i].session)) && l[i].complete
    {
      ProjectionsAt(live, ledger, i);
      var x := SortedSeq(live.Keys)[i];
      ListedAlike(live[x], ledger[x], SawCost(obs, x));
    }
    TotalsOfAlike(obs, l, m);
  }

  lemma TotalsOfAlike(obs: seq<Observation>, l: seq<SessionUsage>, m: seq<SessionUsage>)
    requires |l| == |m|
    requires forall i :: 0 <= i < |l| ==> m[i] == l[i].(complete := SawCost(obs, l[i].session)) && l[i].complete
    ensures var u, v := AggregateOf(l), AggregateOf(m);
            && v.tokens == u.tokens && v.costs == u.costs && v.available == u.available && u.complete == u.available
            && (v.complete <==> u.available && forall i :: 0 <= i < |l| ==> SawCost(obs, l[i].session))
  {
    TokenSumPointwise(l, m);
    CostsPointwise(l, m);
  }

  // ----- the accumulator and the sink -----

  /** `TaskDriverUsageAccumulator`: folds every usage event as it arrives. */
  class TaskDriverUsageAccumulator {
    var sessions: Sessions
    ghost var observations: seq<Observation>

    ghost predicate Valid()
      reads this
    {
      sessions == FoldAll(map[], observations)
    }

    constructor ()
      ensures Valid() && observations == []
    {
      sessions, observations := map[], [];
    }

    method Observe(event: DriverStreamEvent, recordedAt: Timestamp)
      requires Valid()
      modifies this
      ensures Valid()
      ensures var o := ObservationFromEvent(event, recordedAt, true);
              observations == old(observations) + (if o.Some? then [o.value] else [])
    {
      var observation := ObservationFromEvent(event, recordedAt, true);
      if observation.Some? {
        sessions := Fold(sessions, observation.value);
        assert (observations + [observation.value])[..|observations|] == observations;
        observations := observations + [observation.value];
      }
    }

    method Finalize() returns (usage: TaskUsage)
      requires Valid()
      ensures usage == Aggregate(FoldAll(map[], observations))
    {
      usage := FinalizeUsageSessions(sessions);
    }
  }

  function LinesOf(ledgers: map<string, seq<UsageRecord>>, run: string): seq<UsageRecord> {
    if run in ledgers then ledgers[run] else []
  }

  /** The records emitted for `run` up to, not including, its first failing write. */
  function WrittenBeforeFailure(emits: seq<(UsageRecord, bool)>, run: string): (seq<UsageRecord>, bool) {
    if emits == [] then ([], true)
    else
      var (lines, alive) := WrittenBeforeFailure(emits[..|emits| - 1], run);
      var (record, writes) := emits[|emits| - 1];
      if record.run_id != run || !alive then (lines, alive)
      else if writes then (lines + [record], true)
      else (lines, false)
  }

  function EmittedFor(emits: seq<(UsageRecord, bool)>, run: string): seq<UsageRecord> {
    if emits == [] then []
    else
      var (record, _) := emits[|emits| - 1];
      EmittedFor(emits[..|emits| - 1], run) + (if record.run_id == run then [record] else [])
  }

  /** A run's ledger is a prefix of what was emitted for it, and all of it until a write fails. */
  lemma {:induction false} LedgerIsPrefixOfEmits(emits: seq<(UsageRecord, bool)>, run: string)
    ensures var (lines, alive) := WrittenBeforeFailure(emits, run);
            lines <= EmittedFor(emits, run) && (alive ==> lines == EmittedFor(emits, run))
    ensures WrittenBeforeFailure(emits, run).1 <==>
            forall i :: 0 <= i < |emits| && emits[i].0.run_id == run ==> emits[i].1
  {
    if emits != [] {
      LedgerIsPrefixOfEmits(emits[..|emits| - 1], run);
    }
  }

  /** What the arrivals make the ledgers' sink write, and whether each write works. */
  function Emits(arrivals: seq<Arrival>): seq<(UsageRecord, bool)> {
    if arrivals == [] then []
    else
      var n := |arrivals| - 1;
      var a, front := arrivals[n], Emits(arrivals[..n]);
      var o := ObservationFromEvent(a.event, a.at, true);
      if o.None? then front
      else front + [(RecordFromObservation(o.value, a.run_id, a.task_id, NumberOf(arrivals, a.run_id), a.at), a.fate.ledger)]
  }

  lemma {:induction false} EmittedIsLedger(arrivals: seq<Arrival>, run: string)
    ensures EmittedFor(Emits(arrivals), run) == Ledger(arrivals, run)
  {
    if arrivals != [] {
      var front := Emits(arrivals[..|arrivals| - 1]);
      EmittedIsLedger(arrivals[..|arrivals| - 1], run);
      if Emits(arrivals) != front { assert Emits(arrivals)[..|front|] == front; }
      assert EmittedFor(front, run) + [] == EmittedFor(front, run);
    }
  }

  lemma {:induction false} EmitsWork(arrivals: seq<Arrival>, run: string)
    requires forall i :: 0 <= i < |arrivals| && arrivals[i].run_id == run ==> arrivals[i].fate.ledger
    ensures forall i :: 0 <= i < |Emits(arrivals)| && Emits(arrivals)[i].0.run_id == run ==> Emits(arrivals)[i].1
  {
    if arrivals != [] { EmitsWork(arrivals[..|arrivals| - 1], run); }
  }

  /** Whatever writes fail, a run's ledger file is a prefix of its ledger, and all of it if none fails. */
  lemma LedgerFileIsPrefix(arrivals: seq<Arrival>, run: string)
    ensures WrittenBeforeFailure(Emits(arrivals), run).0 <= Ledger(arrivals, run)
    ensures (forall i :: 0 <= i < |arrivals| && arrivals[i].run_id == run ==> arrivals[i].fate.ledger) ==>
              WrittenBeforeFailure(Emits(arrivals), run).0 == Ledger(arrivals, run)
  {
    LedgerIsPrefixOfEmits(Emits(arrivals), run);
    EmittedIsLedger(arrivals, run);
    if forall i :: 0 <= i < |arrivals| && arrivals[i].run_id == run ==> arrivals[i].fate.ledger { EmitsWork(arrivals, run); }
  }

  /** The files and the runs given up are what the writes so far have made of them. */
  ghost predicate Holds(ledgers: map<string, seq<UsageRecord>>, failedRuns: set<string>, emits: seq<(UsageRecord, bool)>) {
    forall run :: run != "" ==> WrittenBeforeFailure(emits, run) == (LinesOf(ledgers, run), run !in failedRuns)
  }

  /** `FileRunDriverUsageJsonlSink`: appends synchronously, and gives a run up at its first failure. */
  class FileRunDriverUsageJsonlSink {
    var ledgers: map<string, seq<UsageRecord>>
    var failedRuns: set<string>
    ghost var emits: seq<(UsageRecord, bool)>

    ghost predicate Valid()
      reads this
    {
      Holds(ledgers, failedRuns, emits)
    }

    constructor ()
      ensures Valid() && emits == []
    {
      ledgers, failedRuns, emits := map[], {}, [];
    }

    /** `writes` says whether the file system takes the line. */
    method Emit(record: UsageRecord, writes: bool)
      requires Valid()
      modifies this
      ensures Valid()
      ensures emits == old(emits) + [(record, writes)]
    {
      var runId := record.run_id;
      assert (emits + [(record, writes)])[..|emits|] == emits;
      emits := emits + [(record, writes)];
      if runId == "" || runId in failedRuns { return; }
      if writes {
        ledgers := ledgers[runId := LinesOf(ledgers, runId) + [record]];
      } else {
        failedRuns := failedRuns + {runId};
      }
    }
  }
}
