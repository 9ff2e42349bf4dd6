/**
 What the backend does with one driver event: number it within its run, fold its usage into the
 task's accumulator, write it to the usage ledger and to the capped log, and project it into the
 run's registry and, for state events, into the coordination store.

 All of these are views of one sequence of arrivals. The views of a run are defined here as
 functions of that sequence, the pipeline object keeps them, and the theorems relate them. Each of
 the three writes made for an event may fail; what fails stays without effect on the other views.
 */
module EventPipeline {
  import opened Wrappers
  import opened DriverEvents
  import opened DriverUsage
  import opened UsageLedger
  import AuditLog
  import opened StreamRefs
  import opened StreamProjection
  import opened Reconcile

  /** The sizes that matter: of a value's JSON text, and of the lines written for an event. */
  datatype Sizes = Sizes(bytes: Json -> nat, lineBytes: (DriverStreamEvent, nat) -> nat, markerBytes: nat)

  /** The arrivals of a run; the n-th of them has stream sequence n. */
  function OfRun(arrivals: seq<Arrival>, run: string): seq<Arrival> {
    if arrivals == [] then []
    else
      var n := |arrivals| - 1;
      var front := OfRun(arrivals[..n], run);
      if arrivals[n].run_id == run then front + [arrivals[n]] else front
  }

  lemma {:induction false} NumbersCountArrivals(arrivals: seq<Arrival>, run: string)
    ensures NumberOf(arrivals, run) == |OfRun(arrivals, run)|
  {
    if arrivals != [] { NumbersCountArrivals(arrivals[..|arrivals| - 1], run); }
  }

  function AppendOp(a: Arrival, n: nat, sizes: Sizes): AuditLog.Op {
    AuditLog.Append(AuditLog.Call(Some(n), a.event, sizes.lineBytes(a.event, n), sizes.markerBytes), a.fate.log)
  }

  /** The appends to a run's log, in call order. */
  function Appends(events: seq<Arrival>, sizes: Sizes): seq<AuditLog.Op> {
    if events == [] then []
    else Appends(events[..|events| - 1], sizes) + [AppendOp(events[|events| - 1], |events|, sizes)]
  }

  function LogOf(events: seq<Arrival>, cap: Option<nat>, sizes: Sizes): AuditLog.Log {
    AuditLog.RunFrom(cap, AuditLog.NEW_LOG, Appends(events, sizes))
  }

  function Projected(a: Arrival, n: nat, sizes: Sizes): ProjectedEvent {
    Projection(a.event, Some(n), sizes.bytes, a.at)
  }

  /** What number n, arriving at its time, is projected to. */
  lemma ProjectedTold(a: Arrival, n: nat, sizes: Sizes)
    ensures EnvelopeTold(Projected(a, n, sizes), a.event, Some(n), a.at)
    ensures TellsOf(Projected(a, n, sizes).payload, a.event, sizes.bytes, true)
  {
    ProjectionTold(a.event, Some(n), sizes.bytes, a.at);
    PayloadTells(a.event, Some(n), sizes.bytes);
  }

  /** Whether an event of this type and with these signatures may go into the registry of the run. */
  predicate Takes(run: string, task: string, eventType: string, runId: Option<string>, taskId: Option<string>) {
    && eventType != "run.completed" && eventType != "run.failed"
    && (runId.Some? ==> runId.value == run)
    && (taskId.Some? ==> taskId.value == task)
  }

  /** Whether the run's registry takes the projected event: it must not be signed by another run or task. */
  predicate Accepts(run: string, task: string, e: ProjectedEvent) {
    Takes(run, task, e.event_type, e.run_id, e.task_id)
  }

  /** Whether it takes what the arrival is projected to. */
  predicate Accepted(a: Arrival) {
    Takes(a.run_id, a.task_id, ProjectedType(a.event), Nonempty(a.event.run_id), Nonempty(a.event.task_id))
  }

  lemma AcceptedIsAccepts(a: Arrival, n: nat, sizes: Sizes)
    ensures Accepted(a) <==> Accepts(a.run_id, a.task_id, Projected(a, n, sizes))
  {
  }

  /** The events in a run's registry. */
  function Registry(events: seq<Arrival>, sizes: Sizes): seq<ProjectedEvent> {
    if events == [] then []
    else
      var n := |events|;
      var front := Registry(events[..n - 1], sizes);
      if Accepted(events[n - 1]) then front + [Projected(events[n - 1], n, sizes)] else front
  }

  function OnlyCoordination(events: seq<ProjectedEvent>): seq<ProjectedEvent> {
    if events == [] then []
    else
      var last := events[|events| - 1];
      var front := OnlyCoordination(events[..|events| - 1]);
      if IsCoordination(last.event_type) then front + [last] else front
  }

  /** Whether the event is written to the store, if the store lets it. */
  predicate GoesToStore(a: Arrival, e: ProjectedEvent) {
    Accepts(a.run_id, a.task_id, e) && IsCoordination(e.event_type)
  }

  /** The driver events of a run in the coordination store. */
  function StoreOf(events: seq<Arrival>, sizes: Sizes): seq<ProjectedEvent> {
    if events == [] then []
    else
      var n := |events|;
      var front, e := StoreOf(events[..n - 1], sizes), Projected(events[n - 1], n, sizes);
      if GoesToStore(events[n - 1], e) && events[n - 1].fate.store.Stores? then front + [e] else front
  }

  /** While the store takes what it is given, it holds the state events of the registry. */
  lemma {:induction false} StoreIsStateOfRegistry(events: seq<Arrival>, sizes: Sizes)
    requires forall i :: 0 <= i < |events| ==> events[i].fate.store.Stores?
    ensures StoreOf(events, sizes) == OnlyCoordination(Registry(events, sizes))
  {
    if events != [] {
      var front, e := Registry(events[..|events| - 1], sizes), Projected(events[|events| - 1], |events|, sizes);
      StoreIsStateOfRegistry(events[..|events| - 1], sizes);
      assert (front + [e])[..|front|] == front;
    }
  }

  // ----- what the registry and the store take, from the arriving event itself -----

  /** The event is signed by no other run or task than those it arrives for. */
  predicate SignedHere(a: Arrival) {
    && (a.event.run_id == None || a.event.run_id == Some("") || a.event.run_id == Some(a.run_id))
    && (a.event.task_id == None || a.event.task_id == Some("") || a.event.task_id == Some(a.task_id))
  }

  lemma AcceptedIffSignedHere(a: Arrival)
    ensures Accepted(a) <==> SignedHere(a)
  {
    NeverEndsRun(a.event);
  }

  /** The registry takes exactly the events not signed by another run or task. */
  lemma RegistryTakes(events: seq<Arrival>, a: Arrival, sizes: Sizes)
    ensures Registry(events + [a], sizes) ==
            if SignedHere(a) then Registry(events, sizes) + [Projected(a, |events| + 1, sizes)] else Registry(events, sizes)
  {
    assert (events + [a])[..|events|] == events;
    AcceptedIffSignedHere(a);
  }

  /** Whether a failure to store the event must reach its sender: it is a fact that a recovery will need. */
  predicate MustTell(a: Arrival) {
    && SignedHere(a) && a.fate.store == StoreThrows
    && a.event.event_type in {"driver.prompt_dispatching", "driver.session_initializing"}
  }

  lemma MustTellIff(a: Arrival)
    ensures Accepted(a) && IsRecoveryFact(ProjectedType(a.event)) && a.fate.store.StoreThrows? <==> MustTell(a)
  {
    AcceptedIffSignedHere(a);
    OnlyOwnNames(a.event, "driver.prompt_dispatching");
    OnlyOwnNames(a.event, "driver.session_initializing");
  }

  /** The store, where it works, takes exactly those of them that are no mere piece of a stream. */
  lemma StoreTakes(events: seq<Arrival>, a: Arrival, sizes: Sizes)
    ensures StoreOf(events + [a], sizes) ==
            if SignedHere(a) && !IsPiece(a.event) && a.fate.store == Stores
            then StoreOf(events, sizes) + [Projected(a, |events| + 1, sizes)]
            else StoreOf(events, sizes)
  {
    assert (events + [a])[..|events|] == events;
    AcceptedIffSignedHere(a);
    PiecesStayOut(a.event);
  }

  // ----- what the log has -----

  ghost predicate AllLogged(events: seq<Arrival>) {
    forall i :: 0 <= i < |events| ==> events[i].fate.log.Written?
  }

  lemma {:induction false} AppendsSucceed(events: seq<Arrival>, sizes: Sizes)
    requires AllLogged(events)
    ensures AuditLog.NoFailures(Appends(events, sizes))
  {
    if events != [] { AppendsSucceed(events[..|events| - 1], sizes); }
  }

  lemma {:induction false} AppendsAreNumbered(events: seq<Arrival>, sizes: Sizes)
    ensures var calls := AuditLog.Calls(Appends(events, sizes));
            && |calls| == |events| && Numbered(calls)
            && forall i :: 0 <= i < |events| ==> calls[i] == AppendOp(events[i], i + 1, sizes).call
  {
    if events != [] {
      AppendsAreNumbered(events[..|events| - 1], sizes);
      var front := Appends(events[..|events| - 1], sizes);
      assert Appends(events, sizes)[..|front|] == front;
    }
  }

  predicate Within(numbers: seq<nat>, m: nat) {
    forall i :: 0 <= i < |numbers| ==> 1 <= numbers[i] <= m
  }

  ghost predicate Increasing(numbers: seq<nat>) {
    forall i, j :: 0 <= i < j < |numbers| ==> numbers[i] < numbers[j]
  }

  function UpTo(m: nat): (r: seq<nat>)
    ensures |r| == m && forall i :: 0 <= i < m ==> r[i] == i + 1
  {
    seq(m, i requires 0 <= i < m => i + 1)
  }

  /** The numbers of the events a run's log has: a line was written for each, below the cap. */
  function LoggedNumbers(events: seq<Arrival>, cap: Option<nat>, sizes: Sizes): (numbers: seq<nat>)
    ensures Within(numbers, |events|)
  {
    if events == [] then []
    else
      var n := |events|;
      var front := LoggedNumbers(events[..n - 1], cap, sizes);
      var line := AuditLog.NewLine(cap, LogOf(events[..n - 1], cap, sizes), AppendOp(events[n - 1], n, sizes));
      if line.Some? && line.value.EventLine? then front + [n] else front
  }

  /** The log line of the n-th event. */
  function LineAt(events: seq<Arrival>, n: nat, sizes: Sizes): (line: AuditLog.Line)
    requires 1 <= n <= |events|
    ensures line.EventLine? && line.streamSequence == Some(n) && line.event == events[n - 1].event
  {
    AuditLog.LineOf(AppendOp(events[n - 1], n, sizes).call)
  }

  function LinesAt(events: seq<Arrival>, numbers: seq<nat>, sizes: Sizes): (r: seq<AuditLog.Line>)
    requires Within(numbers, |events|)
    ensures |r| == |numbers| && forall i :: 0 <= i < |numbers| ==> r[i] == LineAt(events, numbers[i], sizes)
  {
    seq(|numbers|, i requires 0 <= i < |numbers| => LineAt(events, numbers[i], sizes))
  }

  lemma LinesAtLonger(events: seq<Arrival>, a: Arrival, numbers: seq<nat>, sizes: Sizes)
    requires Within(numbers, |events|)
    ensures LinesAt(events + [a], numbers, sizes) == LinesAt(events, numbers, sizes)
  {
    forall i | 0 <= i < |numbers| ensures LineAt(events + [a], numbers[i], sizes) == LineAt(events, numbers[i], sizes) {}
  }

  lemma LinesAtOneMore(events: seq<Arrival>, numbers: seq<nat>, n: nat, sizes: Sizes)
    requires Within(numbers, |events|) && 1 <= n <= |events|
    ensures Within(numbers + [n], |events|)
    ensures LinesAt(events, numbers + [n], sizes) == LinesAt(events, numbers, sizes) + [LineAt(events, n, sizes)]
  {
  }

  lemma LogStep(events: seq<Arrival>, a: Arrival, cap: Option<nat>, sizes: Sizes)
    ensures LogOf(events + [a], cap, sizes) ==
            AuditLog.Step(cap, LogOf(events, cap, sizes), AppendOp(a, |events| + 1, sizes))
  {
    assert (events + [a])[..|events|] == events;
    var ops, op := Appends(events, sizes), AppendOp(a, |events| + 1, sizes);
    assert (ops + [op])[..|ops|] == ops;
  }

  lemma {:induction false} LoggedIncreasing(events: seq<Arrival>, cap: Option<nat>, sizes: Sizes)
    ensures Increasing(LoggedNumbers(events, cap, sizes))
  {
    if events != [] { LoggedIncreasing(events[..|events| - 1], cap, sizes); }
  }

  lemma LogLinesStep(events: seq<Arrival>, a: Arrival, cap: Option<nat>, sizes: Sizes)
    ensures var log := LogOf(events, cap, sizes);
            var line := AuditLog.NewLine(cap, log, AppendOp(a, |events| + 1, sizes));
            AuditLog.EventLines(LogOf(events + [a], cap, sizes).lines) ==
              if line.Some? && line.value.EventLine?
              then AuditLog.EventLines(log.lines) + [LineAt(events + [a], |events| + 1, sizes)]
              else AuditLog.EventLines(log.lines)
  {
    LogStep(events, a, cap, sizes);
    var log := LogOf(events, cap, sizes);
    var line := AuditLog.NewLine(cap, log, AppendOp(a, |events| + 1, sizes));
    if line.Some? { AuditLog.EventLinesOneMore(log.lines, line.value); }
  }

  /** The event lines of the log are those of its numbers, in order. */
  lemma {:induction false} LoggedLines(events: seq<Arrival>, cap: Option<nat>, sizes: Sizes)
    ensures AuditLog.EventLines(LogOf(events, cap, sizes).lines) == LinesAt(events, LoggedNumbers(events, cap, sizes), sizes)
  {
    if events == [] {
      assert LinesAt(events, [], sizes) == [];
    } else {
      var n := |events|;
      var front, a := events[..n - 1], events[n - 1];
      var numbers := LoggedNumbers(front, cap, sizes);
      assert events == front + [a];
      LoggedLines(front, cap, sizes);
      LogLinesStep(front, a, cap, sizes);
      LinesAtLonger(front, a, numbers, sizes);
      LinesAtOneMore(events, numbers, n, sizes);
    }
  }

  /** How many of a run's events fit under the cap. */
  function KeptCount(events: seq<Arrival>, cap: Option<nat>, sizes: Sizes): nat {
    |AuditLog.Kept(cap, AuditLog.Calls(Appends(events, sizes)))|
  }

  lemma FirstNumbers(events: seq<Arrival>, numbers: seq<nat>, sizes: Sizes, kept: seq<AuditLog.Call>)
    requires Within(numbers, |events|) && LinesAt(events, numbers, sizes) == AuditLog.LinesOf(kept)
    requires forall i :: 0 <= i < |kept| ==> kept[i].streamSequence == Some(i + 1)
    ensures numbers == UpTo(|kept|)
  {
    var lines := LinesAt(events, numbers, sizes);
    assert |lines| == |numbers| && |AuditLog.LinesOf(kept)| == |kept|;
    forall i | 0 <= i < |numbers| ensures numbers[i] == i + 1 {
      assert lines[i] == LineAt(events, numbers[i], sizes);
      assert AuditLog.LinesOf(kept)[i] == AuditLog.LineOf(kept[i]);
    }
  }

  lemma KeptAreNumbered(events: seq<Arrival>, cap: Option<nat>, sizes: Sizes)
    ensures var kept := AuditLog.Kept(cap, AuditLog.Calls(Appends(events, sizes)));
            |kept| <= |events| && forall i :: 0 <= i < |kept| ==> kept[i].streamSequence == Some(i + 1)
  {
    AppendsAreNumbered(events, sizes);
    var calls := AuditLog.Calls(Appends(events, sizes));
    assert forall i :: 0 <= i < |AuditLog.Kept(cap, calls)| ==> AuditLog.Kept(cap, calls)[i] == calls[i];
  }

  /** When no write to it fails, the log has the first events of the run, as many as fit. */
  lemma LogHasFirst(events: seq<Arrival>, cap: Option<nat>, sizes: Sizes)
    requires AllLogged(events)
    ensures KeptCount(events, cap, sizes) <= |events|
    ensures LoggedNumbers(events, cap, sizes) == UpTo(KeptCount(events, cap, sizes))
  {
    AppendsSucceed(events, sizes);
    KeptAreNumbered(events, cap, sizes);
    AuditLog.EventLinesAreKept(cap, Appends(events, sizes));
    LoggedLines(events, cap, sizes);
    FirstNumbers(events, LoggedNumbers(events, cap, sizes), sizes,
                 AuditLog.Kept(cap, AuditLog.Calls(Appends(events, sizes))));
  }

  predicate IsFull(events: seq<Arrival>, cap: Option<nat>, sizes: Sizes) {
    AuditLog.AtCap(cap, AuditLog.Size(LogOf(events, cap, sizes).lines))
  }

  lemma FullStays(events: seq<Arrival>, a: Arrival, cap: Option<nat>, sizes: Sizes)
    requires IsFull(events, cap, sizes)
    ensures IsFull(events + [a], cap, sizes)
  {
    LogStep(events, a, cap, sizes);
    SizeStep(cap, LogOf(events, cap, sizes), AppendOp(a, |events| + 1, sizes));
  }

  /** The last event is missing from the log only because its own write failed or the log is full. */
  lemma LastMissing(events: seq<Arrival>, a: Arrival, cap: Option<nat>, sizes: Sizes)
    requires AuditLog.NewLine(cap, LogOf(events, cap, sizes), AppendOp(a, |events| + 1, sizes))
          != Some(AuditLog.LineOf(AppendOp(a, |events| + 1, sizes).call))
    ensures !AuditLog.Writes(a.fate.log) || IsFull(events, cap, sizes)
  {
    MarkedIsFull(events, cap, sizes);
  }

  /** And so is every event. */
  lemma {:induction false} MissingOnlyIfFailedOrFull(events: seq<Arrival>, cap: Option<nat>, sizes: Sizes, n: nat)
    requires 1 <= n <= |events| && n !in LoggedNumbers(events, cap, sizes)
    ensures !AuditLog.Writes(events[n - 1].fate.log) || IsFull(events, cap, sizes)
  {
    var m := |events|;
    var front, a := events[..m - 1], events[m - 1];
    assert events == front + [a];
    if n < m {
      assert n !in LoggedNumbers(front, cap, sizes);
      MissingOnlyIfFailedOrFull(front, cap, sizes, n);
    } else {
      LastMissing(front, a, cap, sizes);
    }
    if IsFull(front, cap, sizes) { FullStays(front, a, cap, sizes); }
  }

  lemma SizeStep(cap: Option<nat>, log: AuditLog.Log, op: AuditLog.Op)
    ensures AuditLog.Size(AuditLog.Step(cap, log, op).lines) >= AuditLog.Size(log.lines)
  {
    var line := AuditLog.NewLine(cap, log, op);
    if line.Some? { AuditLog.SizeOneMore(log.lines, line.value); }
  }

  lemma {:induction false} MarkedIsFull(events: seq<Arrival>, cap: Option<nat>, sizes: Sizes)
    ensures LogOf(events, cap, sizes).marked ==> IsFull(events, cap, sizes)
  {
    if events != [] {
      var front, a := events[..|events| - 1], events[|events| - 1];
      MarkedIsFull(front, cap, sizes);
      assert events == front + [a];
      LogStep(front, a, cap, sizes);
      SizeStep(cap, LogOf(front, cap, sizes), AppendOp(a, |events|, sizes));
    }
  }

  // ----- references -----

  /** The lines carry ascending numbers up to m. */
  ghost predicate InOrder(lines: seq<AuditLog.Line>, m: nat) {
    && (forall i :: 0 <= i < |lines| ==> lines[i].streamSequence.Some? && lines[i].streamSequence.value <= m)
    && (forall i, j :: 0 <= i < j < |lines| ==> lines[i].streamSequence.value < lines[j].streamSequence.value)
  }

  /** Events and markers alike bear the number of their own append, so no number comes twice. */
  lemma {:induction false} LinesNumberedInOrder(events: seq<Arrival>, cap: Option<nat>, sizes: Sizes)
    ensures InOrder(LogOf(events, cap, sizes).lines, |events|)
  {
    if events != [] {
      var front, a := events[..|events| - 1], events[|events| - 1];
      LinesNumberedInOrder(front, cap, sizes);
      assert events == front + [a];
      LogStep(front, a, cap, sizes);
    }
  }

  /** The reference n brings back the n-th event if the log has it, and otherwise nothing. */
  lemma ResolvesIffLogged(events: seq<Arrival>, cap: Option<nat>, sizes: Sizes, n: nat)
    requires 1 <= n <= |events|
    ensures Resolve(LogOf(events, cap, sizes).lines, StreamRef(n)) ==
            if n in LoggedNumbers(events, cap, sizes) then Some(events[n - 1].event) else None
  {
    var lines, numbers := LogOf(events, cap, sizes).lines, LoggedNumbers(events, cap, sizes);
    LoggedLines(events, cap, sizes);
    LinesNumberedInOrder(events, cap, sizes);
    ResolvesAmong(lines, events, numbers, sizes, n);
  }

  lemma ResolvesAmong(lines: seq<AuditLog.Line>, events: seq<Arrival>, numbers: seq<nat>, sizes: Sizes, n: nat)
    requires Within(numbers, |events|) && 1 <= n <= |events|
    requires InOrder(lines, |events|) && AuditLog.EventLines(lines) == LinesAt(events, numbers, sizes)
    ensures Resolve(lines, StreamRef(n)) == if n in numbers then Some(events[n - 1].event) else None
  {
    forall k ensures IsListed(lines, n, k) <==> 0 <= k < |numbers| && numbers[k] == n {
      if 0 <= k < |numbers| { assert LinesAt(events, numbers, sizes)[k] == LineAt(events, numbers[k], sizes); }
    }
    forall k | IsListed(lines, n, k)
      ensures AuditLog.EventLines(lines)[k].EventLine? && AuditLog.EventLines(lines)[k].event == events[n - 1].event
    {
      assert LinesAt(events, numbers, sizes)[k] == LineAt(events, numbers[k], sizes);
    }
    ResolvesToListed(lines, n, events[n - 1].event);
    if n in numbers {
      var k :| 0 <= k < |numbers| && numbers[k] == n;
      assert IsListed(lines, n, k);
    }
  }

  /**
   No large field is lost, whatever writes fail: the n-th event's projection has it inline, or refers
   to a place from which the whole event comes back exactly if the log has it; a reference never
   leads to any other event. And the log has it unless its own write failed or the log is full.
   */
  lemma NothingIsLost(events: seq<Arrival>, cap: Option<nat>, sizes: Sizes, n: nat, k: Name)
    requires 1 <= n <= |events|
    requires k in LargeFields(BranchOf(events[n - 1].event.event_type), events[n - 1].event)
    ensures var event := events[n - 1].event;
            var payload := Projected(events[n - 1], n, sizes).payload;
            var log := LogOf(events, cap, sizes);
            if k in payload then payload[k] == LargeFields(BranchOf(event.event_type), event)[k]
            else
              && PayloadRef in payload && payload[PayloadRef].JStr?
              && Resolve(log.lines, payload[PayloadRef].text) ==
                 (if n in LoggedNumbers(events, cap, sizes) then Some(event) else None)
              && (n in LoggedNumbers(events, cap, sizes) || !AuditLog.Writes(events[n - 1].fate.log) || IsFull(events, cap, sizes))
  {
    var event := events[n - 1].event;
    LargeFieldsInlinedOrReferred(event, Some(n), sizes.bytes, k);
    ResolvesIffLogged(events, cap, sizes, n);
    if n !in LoggedNumbers(events, cap, sizes) { MissingOnlyIfFailedOrFull(events, cap, sizes, n); }
  }

  // ----- reconciling the log with a timeline -----

  /** `buildReplay`: the events a log replays to, projected again. */
  function Replay(lines: seq<AuditLog.Line>): seq<Item> {
    if lines == [] then []
    else
      var last := lines[|lines| - 1];
      var front := Replay(lines[..|lines| - 1]);
      if last.EventLine?
      then front + [Item(OrElse(last.event.sequence, -1), last.streamSequence, ProjectedType(last.event))]
      else front
  }

  function NumberIn(payload: Record, name: Name): Option<int> {
    if name in payload && payload[name].JNum? then Some(payload[name].num.Floor) else None
  }

  /** The driver events of a stored timeline: those that carry one of the two numbers. */
  function TimelineItems(events: seq<ProjectedEvent>): seq<Item> {
    if events == [] then []
    else
      var last := events[|events| - 1];
      var front := TimelineItems(events[..|events| - 1]);
      var own, stream := NumberIn(last.payload, EventSequence), NumberIn(last.payload, StreamSequenceNumber);
      if own.None? && stream.None? then front
      else front + [Item(OrElse(own, -1), stream, last.event_type)]
  }

  /** The item by which event number n of the run is known on either side. */
  function ItemOf(events: seq<Arrival>, n: nat): Item
    requires 1 <= n <= |events|
  {
    Item(OrElse(events[n - 1].event.sequence, -1), Some(n), ProjectedType(events[n - 1].event))
  }

  /** An event without a number of the driver's own is known under -1. */
  predicate IsItemOf(item: Item, event: DriverStreamEvent, n: nat) {
    && item.stream_sequence == Some(n)
    && (event.sequence.Some? ==> item.sequence == event.sequence.value)
    && (event.sequence.None? ==> item.sequence == -1)
  }

  function ItemsOf(events: seq<Arrival>, numbers: seq<nat>): (r: seq<Item>)
    requires Within(numbers, |events|)
    ensures |r| == |numbers|
  {
    seq(|numbers|, i requires 0 <= i < |numbers| => ItemOf(events, numbers[i]))
  }

  lemma {:induction false} ReplayOfEventLines(lines: seq<AuditLog.Line>)
    ensures Replay(lines) == Replay(AuditLog.EventLines(lines))
  {
    if lines != [] {
      var front, last := lines[..|lines| - 1], lines[|lines| - 1];
      ReplayOfEventLines(front);
      if last.EventLine? {
        assert AuditLog.EventLines(lines)[..|AuditLog.EventLines(front)|] == AuditLog.EventLines(front);
      }
    }
  }

  lemma ReplayOneMore(lines: seq<AuditLog.Line>, events: seq<Arrival>, n: nat, sizes: Sizes)
    requires 1 <= n <= |events|
    ensures Replay(lines + [LineAt(events, n, sizes)]) == Replay(lines) + [ItemOf(events, n)]
  {
    assert (lines + [LineAt(events, n, sizes)])[..|lines|] == lines;
  }

  lemma {:induction false} ReplayOfLines(events: seq<Arrival>, numbers: seq<nat>, sizes: Sizes)
    requires Within(numbers, |events|)
    ensures Replay(LinesAt(events, numbers, sizes)) == ItemsOf(events, numbers)
  {
    if numbers == [] {
      assert LinesAt(events, numbers, sizes) == [];
    } else {
      var m := |numbers| - 1;
      ReplayOfLines(events, numbers[..m], sizes);
      assert numbers == numbers[..m] + [numbers[m]];
      LinesAtOneMore(events, numbers[..m], numbers[m], sizes);
      ReplayOneMore(LinesAt(events, numbers[..m], sizes), events, numbers[m], sizes);
      ItemsOneMore(events, numbers);
    }
  }

  /** Replaying a run's log gives the items of the events the log has: the first that fit, if no write fails. */
  lemma LogReplaysLogged(events: seq<Arrival>, cap: Option<nat>, sizes: Sizes)
    ensures Replay(LogOf(events, cap, sizes).lines) == ItemsOf(events, LoggedNumbers(events, cap, sizes))
    ensures AllLogged(events) ==> LoggedNumbers(events, cap, sizes) == UpTo(KeptCount(events, cap, sizes))
  {
    LoggedLines(events, cap, sizes);
    ReplayOfEventLines(LogOf(events, cap, sizes).lines);
    ReplayOfLines(events, LoggedNumbers(events, cap, sizes), sizes);
    if AllLogged(events) { LogHasFirst(events, cap, sizes); }
  }

  /** Line by line: the i-th item has the two numbers of the i-th event. */
  lemma ItemsHaveBothNumbers(events: seq<Arrival>, numbers: seq<nat>, i: nat)
    requires Within(numbers, |events|) && i < |numbers|
    ensures IsItemOf(ItemsOf(events, numbers)[i], events[numbers[i] - 1].event, numbers[i])
  {
  }

  /** The stored events of a timeline that has retained these numbers of the run. */
  function Stored(events: seq<Arrival>, numbers: seq<nat>, sizes: Sizes): seq<ProjectedEvent>
    requires Within(numbers, |events|)
  {
    if numbers == [] then []
    else
      var last := numbers[|numbers| - 1];
      Stored(events, numbers[..|numbers| - 1], sizes) + [Projected(events[last - 1], last, sizes)]
  }

  lemma EnvelopeNumbers(event: DriverStreamEvent, n: nat, bytes: Json -> nat)
    ensures var payload := Payload(event, Some(n), bytes);
            && NumberIn(payload, StreamSequenceNumber) == Some(n)
            && NumberIn(payload, EventSequence) == event.sequence
  {
    var branch := BranchOf(event.event_type);
    LargeFieldsAreLarge(branch, event);
    SmallFieldsAreNot(branch, event);
    EnvelopeAlone(event, n);
    NumbersFromEnvelope(Envelope(event, Some(n)), SmallFields(branch, event),
      InlinedFields(LargeFields(branch, event), HasRef(event, Some(n)), bytes));
  }

  lemma EnvelopeAlone(event: DriverStreamEvent, n: nat)
    ensures NumberIn(Envelope(event, Some(n)), StreamSequenceNumber) == Some(n)
    ensures NumberIn(Envelope(event, Some(n)), EventSequence) == event.sequence
  {
    assert (n as real).Floor == n;
    assert event.sequence.Some? ==> (event.sequence.value as real).Floor == event.sequence.value;
  }

  lemma NumbersFromEnvelope(envelope: Record, small: Record, large: Record)
    requires StreamSequenceNumber !in small && EventSequence !in small
    requires forall k :: k in large ==> IsLarge(k)
    ensures NumberIn(envelope + small + large, StreamSequenceNumber) == NumberIn(envelope, StreamSequenceNumber)
    ensures NumberIn(envelope + small + large, EventSequence) == NumberIn(envelope, EventSequence)
  {
  }

  lemma ItemsOneMore(events: seq<Arrival>, numbers: seq<nat>)
    requires numbers != [] && Within(numbers, |events|)
    ensures var m := |numbers| - 1;
            ItemsOf(events, numbers) == ItemsOf(events, numbers[..m]) + [ItemOf(events, numbers[m])]
  {
  }

  /** How a stored event is read from a timeline. */
  lemma StoredItem(front: seq<ProjectedEvent>, events: seq<Arrival>, n: nat, sizes: Sizes)
    requires 1 <= n <= |events|
    ensures TimelineItems(front + [Projected(events[n - 1], n, sizes)]) == TimelineItems(front) + [ItemOf(events, n)]
  {
    var e := Projected(events[n - 1], n, sizes);
    EnvelopeNumbers(events[n - 1].event, n, sizes.bytes);
    ReadItem(front, e);
  }

  lemma ReadItem(front: seq<ProjectedEvent>, e: ProjectedEvent)
    requires NumberIn(e.payload, StreamSequenceNumber).Some?
    ensures TimelineItems(front + [e]) == TimelineItems(front) +
      [Item(OrElse(NumberIn(e.payload, EventSequence), -1), NumberIn(e.payload, StreamSequenceNumber), e.event_type)]
  {
    assert (front + [e])[..|front|] == front;
  }

  lemma {:induction false} TimelineOfStored(events: seq<Arrival>, numbers: seq<nat>, sizes: Sizes)
    requires Within(numbers, |events|)
    ensures TimelineItems(Stored(events, numbers, sizes)) == ItemsOf(events, numbers)
  {
    if numbers != [] {
      var m := |numbers| - 1;
      TimelineOfStored(events, numbers[..m], sizes);
      StoredItem(Stored(events, numbers[..m], sizes), events, numbers[m], sizes);
      ItemsOneMore(events, numbers);
    }
  }

  lemma LastIsNew(numbers: seq<nat>, key: int)
    requires numbers != [] && Increasing(numbers)
    ensures var m := |numbers| - 1;
            numbers[m] !in numbers[..m] && (key in numbers <==> key in numbers[..m] || key == numbers[m])
  {
    var m := |numbers| - 1;
    assert numbers == numbers[..m] + [numbers[m]];
  }

  lemma TypesOneMore(events: seq<Arrival>, numbers: seq<nat>, key: int)
    requires numbers != [] && Within(numbers, |events|)
    ensures var m := |numbers| - 1;
            var front := TypesAt(KeyAll(true, ItemsOf(events, numbers[..m])), key);
            TypesAt(KeyAll(true, ItemsOf(events, numbers)), key) ==
            if numbers[m] == key then front + multiset{ItemOf(events, numbers[m]).event_type} else front
  {
    var m := |numbers| - 1;
    assert ItemsOf(events, numbers)[..m] == ItemsOf(events, numbers[..m]);
    assert KeyAll(true, ItemsOf(events, numbers))[..m] == KeyAll(true, ItemsOf(events, numbers[..m]));
  }

  /** The types the items of some of a run's numbers have at a key: one, at those numbers only. */
  lemma {:induction false} OneTypePerNumber(events: seq<Arrival>, numbers: seq<nat>, key: int)
    requires Within(numbers, |events|) && Increasing(numbers)
    ensures TypesAt(KeyAll(true, ItemsOf(events, numbers)), key)
            == if key >= 0 && key in numbers then multiset{ItemOf(events, key).event_type} else multiset{}
  {
    if numbers != [] {
      var m := |numbers| - 1;
      var front := numbers[..m];
      OneTypePerNumber(events, front, key);
      TypesOneMore(events, numbers, key);
      LastIsNew(numbers, key);
    }
  }

  lemma {:induction false} UntouchedKey(index: Index, replayed: seq<Keyed>, key: int)
    requires forall i :: 0 <= i < |replayed| ==> replayed[i].key != key
    ensures At(ConsumeAll(index, replayed).index, key) == At(index, key)
  {
    if replayed != [] {
      UntouchedKey(index, replayed[..|replayed| - 1], key);
      ConsumeEffect(ConsumeAll(index, replayed[..|replayed| - 1]), replayed[|replayed| - 1], key);
    }
  }

  /** Where every key has at most its one type, nothing can be mismatched. */
  lemma {:induction false} NoMismatches(index: Index, replayed: seq<Keyed>)
    requires forall i, j :: 0 <= i < j < |replayed| ==> replayed[i].key != replayed[j].key
    requires forall i :: 0 <= i < |replayed| ==>
      At(index, replayed[i].key) == multiset{} || At(index, replayed[i].key) == multiset{replayed[i].event_type}
    ensures ConsumeAll(index, replayed).mismatches == []
  {
    if replayed != [] {
      var n := |replayed| - 1;
      NoMismatches(index, replayed[..n]);
      UntouchedKey(index, replayed[..n], replayed[n].key);
    }
  }

  ghost predicate SameMembers(a: seq<nat>, b: seq<nat>) {
    forall k :: k in a <==> k in b
  }

  lemma LastIsLargest(a: seq<nat>, k: nat)
    requires Increasing(a) && k in a
    ensures a != [] && k <= a[|a| - 1]
  {
    var i :| 0 <= i < |a| && a[i] == k;
  }

  lemma MemberIfNonempty(numbers: seq<nat>)
    ensures numbers != [] <==> exists k :: k in numbers
  {
    if numbers != [] { assert numbers[0] in numbers; }
  }

  /** Increasing numbers are determined by which they are. */
  lemma {:induction false} IncreasingDetermined(a: seq<nat>, b: seq<nat>)
    requires Increasing(a) && Increasing(b) && SameMembers(a, b)
    ensures a == b
  {
    MemberIfNonempty(a);
    MemberIfNonempty(b);
    if a != [] {
      var x, y := a[|a| - 1], b[|b| - 1];
      assert x in b && y in a;
      LastIsLargest(a, y);
      LastIsLargest(b, x);
      var f, g := a[..|a| - 1], b[..|b| - 1];
      LastIsNew(a, x);
      LastIsNew(b, x);
      forall k ensures k in f <==> k in g {
        LastIsNew(a, k);
        LastIsNew(b, k);
      }
      IncreasingDetermined(f, g);
    }
  }

  /** The items of a side have, at each key, the one type of the event with that number, or none. */
  ghost predicate TypedByNumber(events: seq<Arrival>, items: seq<Keyed>, numbers: seq<nat>) {
    forall k: int :: TypesAt(items, k) == TypeAt(events, numbers, k)
  }

  function TypeAt(events: seq<Arrival>, numbers: seq<nat>, k: int): multiset<string> {
    if 1 <= k <= |events| && k in numbers then multiset{ItemOf(events, k).event_type} else multiset{}
  }

  lemma ItemsTypedByNumber(events: seq<Arrival>, numbers: seq<nat>)
    requires Within(numbers, |events|) && Increasing(numbers)
    ensures TypedByNumber(events, KeyAll(true, ItemsOf(events, numbers)), numbers)
  {
    forall k: int
      ensures TypesAt(KeyAll(true, ItemsOf(events, numbers)), k) == TypeAt(events, numbers, k)
    {
      OneTypePerNumber(events, numbers, k);
    }
  }

  lemma SameNumbersSameTypes(events: seq<Arrival>, logged: seq<nat>, retained: seq<nat>, r: seq<Keyed>, t: seq<Keyed>)
    requires Within(logged, |events|) && Increasing(logged) && Within(retained, |events|) && Increasing(retained)
    requires TypedByNumber(events, r, logged) && TypedByNumber(events, t, retained)
    ensures SameTypes(r, t) <==> retained == logged
  {
    if SameTypes(r, t) {
      forall k ensures k in retained <==> k in logged {
        assert TypesAt(r, k) == TypesAt(t, k);
        assert TypeAt(events, retained, k) == TypeAt(events, logged, k);
        assert k in retained || k in logged ==> 1 <= k <= |events|;
      }
      IncreasingDetermined(retained, logged);
    }
    if retained == logged {
      forall k: int ensures TypesAt(r, k) == TypesAt(t, k) {
        assert TypesAt(r, k) == TypeAt(events, retained, k);
      }
    }
  }

  lemma DifferenceAtKey(events: seq<Arrival>, logged: seq<nat>, retained: seq<nat>, r: seq<Keyed>, t: seq<Keyed>, key: int)
    requires Within(logged, |events|) && Within(retained, |events|)
    requires TypedByNumber(events, r, logged) && TypedByNumber(events, t, retained)
    ensures var p := ConsumeAll(IndexOf(t), r);
            && (key in p.missing <==> key in logged && key !in retained)
            && (At(p.index, key) != multiset{} <==> key in retained && key !in logged)
  {
    MissingAndUnexpectedDisjoint(t, r, key);
    assert TypesAt(r, key) == TypeAt(events, logged, key) && TypesAt(t, key) == TypeAt(events, retained, key);
    assert key in logged || key in retained ==> 1 <= key <= |events|;
  }

  lemma TypesNeverClash(events: seq<Arrival>, logged: seq<nat>, retained: seq<nat>, t: seq<Keyed>)
    requires Within(logged, |events|) && Increasing(logged) && Within(retained, |events|)
    requires TypedByNumber(events, t, retained)
    ensures ConsumeAll(IndexOf(t), KeyAll(true, ItemsOf(events, logged))).mismatches == []
  {
    var r := KeyAll(true, ItemsOf(events, logged));
    forall i | 0 <= i < |r|
      ensures r[i].key == logged[i]
      ensures At(IndexOf(t), r[i].key) == multiset{} || At(IndexOf(t), r[i].key) == multiset{r[i].event_type}
    {
      assert r[i] == KeyOf(true, ItemOf(events, logged[i]));
      assert TypesAt(t, logged[i]) == TypeAt(events, retained, logged[i]);
    }
    NoMismatches(IndexOf(t), r);
  }

  /**
   Reconciling a log that has some of a run's events with a timeline that has retained some: the
   keys reported are exactly the numbers that one side has and the other has not, no type ever
   mismatches, and all is well exactly when both sides have the same numbers. So whatever is
   reported tells what failure, truncation, rejection or retention removed, and nothing else.
   */
  lemma ReconcileFindsTheDifference(events: seq<Arrival>, logged: seq<nat>, retained: seq<nat>, key: int)
    requires Within(logged, |events|) && Increasing(logged) && Within(retained, |events|) && Increasing(retained)
    ensures var r, t := KeyAll(true, ItemsOf(events, logged)), KeyAll(true, ItemsOf(events, retained));
            var p := ConsumeAll(IndexOf(t), r);
            && (key in p.missing <==> key in logged && key !in retained)
            && (At(p.index, key) != multiset{} <==> key in retained && key !in logged)
            && p.mismatches == []
            && (Clean(p) && NothingLeft(p.index) <==> retained == logged)
  {
    var r, t := KeyAll(true, ItemsOf(events, logged)), KeyAll(true, ItemsOf(events, retained));
    ItemsTypedByNumber(events, logged);
    ItemsTypedByNumber(events, retained);
    DifferenceAtKey(events, logged, retained, r, t, key);
    TypesNeverClash(events, logged, retained, t);
    OkIffSameTypes(t, r);
    SameNumbersSameTypes(events, logged, retained, r, t);
  }

  /** The numbers of the events a run's registry has accepted. */
  function AcceptedNumbers(events: seq<Arrival>): (numbers: seq<nat>)
    ensures Within(numbers, |events|)
  {
    if events == [] then []
    else
      var n := |events|;
      var front := AcceptedNumbers(events[..n - 1]);
      if Accepted(events[n - 1]) then front + [n] else front
  }

  /** The numbers of the events that are signed by no other run or task. */
  function SignedNumbers(events: seq<Arrival>): seq<nat> {
    if events == [] then []
    else
      var front := SignedNumbers(events[..|events| - 1]);
      if SignedHere(events[|events| - 1]) then front + [|events|] else front
  }

  lemma {:induction false} AcceptedAreSigned(events: seq<Arrival>)
    ensures AcceptedNumbers(events) == SignedNumbers(events)
  {
    if events != [] {
      AcceptedAreSigned(events[..|events| - 1]);
      AcceptedIffSignedHere(events[|events| - 1]);
    }
  }

  lemma {:induction false} SignedMembers(events: seq<Arrival>, n: nat)
    ensures n in SignedNumbers(events) <==> 1 <= n <= |events| && SignedHere(events[n - 1])
  {
    if events != [] { SignedMembers(events[..|events| - 1], n); }
  }

  /** An event is among the accepted exactly if it is not signed by another run or task. */
  lemma AcceptedAreSignedHere(events: seq<Arrival>, n: nat)
    ensures n in AcceptedNumbers(events) <==> 1 <= n <= |events| && SignedHere(events[n - 1])
  {
    AcceptedAreSigned(events);
    SignedMembers(events, n);
  }

  ghost predicate AllSignedHere(events: seq<Arrival>) {
    forall i :: 0 <= i < |events| ==> SignedHere(events[i])
  }

  lemma AllAccepted(events: seq<Arrival>)
    requires AllSignedHere(events)
    ensures AcceptedNumbers(events) == UpTo(|events|)
  {
    var accepted, all := AcceptedNumbers(events), UpTo(|events|);
    AcceptedIncreasing(events);
    forall k: nat ensures k in accepted <==> k in all {
      AcceptedAreSignedHere(events, k);
      if 1 <= k <= |events| { assert all[k - 1] == k; }
    }
    IncreasingDetermined(accepted, all);
  }

  /** The projections of all arrivals, in order, each under its own number. */
  function AllProjected(events: seq<Arrival>, sizes: Sizes): seq<ProjectedEvent> {
    if events == [] then []
    else AllProjected(events[..|events| - 1], sizes) + [Projected(events[|events| - 1], |events|, sizes)]
  }

  /** Where no arrival is signed by another run or task, the registry has them all. */
  lemma {:induction false} RegistryHasAll(events: seq<Arrival>, sizes: Sizes)
    requires AllSignedHere(events)
    ensures Registry(events, sizes) == AllProjected(events, sizes)
  {
    if events != [] {
      RegistryHasAll(events[..|events| - 1], sizes);
      AcceptedIffSignedHere(events[|events| - 1]);
    }
  }

  /** And then the log has every event exactly if it has as many numbers. */
  lemma LoggedAllIff(events: seq<Arrival>, cap: Option<nat>, sizes: Sizes)
    ensures LoggedNumbers(events, cap, sizes) == UpTo(|events|) <==>
            forall n :: 1 <= n <= |events| ==> n in LoggedNumbers(events, cap, sizes)
  {
    var logged, all := LoggedNumbers(events, cap, sizes), UpTo(|events|);
    LoggedIncreasing(events, cap, sizes);
    forall k: nat ensures k in all <==> 1 <= k <= |events| {
      if 1 <= k <= |events| { assert all[k - 1] == k; }
    }
    if forall n :: 1 <= n <= |events| ==> n in logged { IncreasingDetermined(logged, all); }
  }

  lemma {:induction false} AcceptedIncreasing(events: seq<Arrival>)
    ensures Increasing(AcceptedNumbers(events))
  {
    if events != [] {
      AcceptedIncreasing(events[..|events| - 1]);
    }
  }

  lemma {:induction false} StoredOfPrefix(events: seq<Arrival>, m: nat, numbers: seq<nat>, sizes: Sizes)
    requires m <= |events| && Within(numbers, m)
    ensures Stored(events[..m], numbers, sizes) == Stored(events, numbers, sizes)
  {
    if numbers != [] { StoredOfPrefix(events, m, numbers[..|numbers| - 1], sizes); }
  }

  lemma {:induction false} RegistryIsStored(events: seq<Arrival>, sizes: Sizes)
    ensures Registry(events, sizes) == Stored(events, AcceptedNumbers(events), sizes)
  {
    if events != [] {
      var n := |events|;
      var front := AcceptedNumbers(events[..n - 1]);
      RegistryIsStored(events[..n - 1], sizes);
      StoredOfPrefix(events, n - 1, front, sizes);
      assert (front + [n])[..|front|] == front;
    }
  }

  /**
   End to end: a run's own log and its own registry have the same types at every key exactly when the
   events the registry accepted are the events the log has, whichever key is used and whatever is empty.
   */
  lemma RunReconciles(events: seq<Arrival>, cap: Option<nat>, sizes: Sizes)
    ensures var replayed, stored := Replay(LogOf(events, cap, sizes).lines), TimelineItems(Registry(events, sizes));
            var byStream := UsesStreamKey(replayed, Some(stored));
            && (byStream <==> LoggedNumbers(events, cap, sizes) != [] && AcceptedNumbers(events) != [])
            && (SameTypes(KeyAll(byStream, replayed), KeyAll(byStream, stored)) <==>
                  AcceptedNumbers(events) == LoggedNumbers(events, cap, sizes))
  {
    var logged, accepted := LoggedNumbers(events, cap, sizes), AcceptedNumbers(events);
    LogReplaysLogged(events, cap, sizes);
    LoggedIncreasing(events, cap, sizes);
    RegistryIsStored(events, sizes);
    TimelineOfStored(events, accepted, sizes);
    AcceptedIncreasing(events);
    var r, t := ItemsOf(events, logged), ItemsOf(events, accepted);
    if logged != [] && accepted != [] {
      ItemsReconcile(events, logged, accepted);
    } else {
      EmptySide(KeyAll(false, r), KeyAll(false, t));
    }
  }

  lemma EmptySide(r: seq<Keyed>, t: seq<Keyed>)
    requires r == [] || t == []
    ensures SameTypes(r, t) <==> r == t
  {
    if r != [] {
      var last := r[|r| - 1];
      assert last.event_type in TypesAt(r, last.key) && TypesAt(t, last.key) == multiset{};
    } else if t != [] {
      var last := t[|t| - 1];
      assert last.event_type in TypesAt(t, last.key) && TypesAt(r, last.key) == multiset{};
    }
  }

  lemma ItemsReconcile(events: seq<Arrival>, logged: seq<nat>, accepted: seq<nat>)
    requires Within(logged, |events|) && Increasing(logged) && logged != []
    requires Within(accepted, |events|) && Increasing(accepted) && accepted != []
    ensures var r, t := ItemsOf(events, logged), ItemsOf(events, accepted);
            && UsesStreamKey(r, Some(t))
            && (SameTypes(KeyAll(true, r), KeyAll(true, t)) <==> accepted == logged)
  {
    ItemsTypedByNumber(events, logged);
    ItemsTypedByNumber(events, accepted);
    SameNumbersSameTypes(events, logged, accepted,
      KeyAll(true, ItemsOf(events, logged)), KeyAll(true, ItemsOf(events, accepted)));
  }

  // ----- the pipeline object -----

  function LinesIn<T>(files: map<string, seq<T>>, key: string): seq<T> {
    if key in files then files[key] else []
  }

  function SessionsIn(usage: map<string, Sessions>, task: string): Sessions {
    if task in usage then usage[task] else map[]
  }

  lemma OfRunStep(arrivals: seq<Arrival>, a: Arrival, run: string)
    ensures OfRun(arrivals + [a], run) == if run == a.run_id then OfRun(arrivals, run) + [a] else OfRun(arrivals, run)
  {
    assert (arrivals + [a])[..|arrivals|] == arrivals;
  }

  lemma UsageStep(arrivals: seq<Arrival>, a: Arrival, task: string)
    ensures var o := ObservationFromEvent(a.event, a.at, true);
            var before := FoldAll(map[], Observed(arrivals, task));
            FoldAll(map[], Observed(arrivals + [a], task)) ==
            if task == a.task_id && o.Some? then Fold(before, o.value) else before
  {
    assert (arrivals + [a])[..|arrivals|] == arrivals;
    var obs := Observed(arrivals, task);
    var o := ObservationFromEvent(a.event, a.at, true);
    assert obs + [] == obs;
    if o.Some? { assert (obs + [o.value])[..|obs|] == obs; }
  }

  /** With the task's sessions folded once more, every task has the sessions of its arrivals. */
  lemma UsageView(usage: map<string, Sessions>, arrivals: seq<Arrival>, a: Arrival)
    requires forall task :: SessionsIn(usage, task) == FoldAll(map[], Observed(arrivals, task))
    ensures var before := SessionsIn(usage, a.task_id);
            var o := ObservationFromEvent(a.event, a.at, true);
            var more := usage[a.task_id := if o.Some? then Fold(before, o.value) else before];
            forall task :: SessionsIn(more, task) == FoldAll(map[], Observed(arrivals + [a], task))
  {
    var before := SessionsIn(usage, a.task_id);
    var o := ObservationFromEvent(a.event, a.at, true);
    var more := usage[a.task_id := if o.Some? then Fold(before, o.value) else before];
    forall task ensures SessionsIn(more, task) == FoldAll(map[], Observed(arrivals + [a], task)) {
      UsageStep(arrivals, a, task);
    }
  }

  lemma EmitStep(arrivals: seq<Arrival>, a: Arrival)
    ensures var o := ObservationFromEvent(a.event, a.at, true);
            Emits(arrivals + [a]) ==
            if o.Some?
            then Emits(arrivals) +
                 [(RecordFromObservation(o.value, a.run_id, a.task_id, |OfRun(arrivals, a.run_id)| + 1, a.at), a.fate.ledger)]
            else Emits(arrivals)
  {
    assert (arrivals + [a])[..|arrivals|] == arrivals;
    NumbersCountArrivals(arrivals + [a], a.run_id);
    OfRunStep(arrivals, a, a.run_id);
  }

  /** What the registry and the store of a run gain by an arrival projected as e. */
  ghost predicate IsNext(events: seq<Arrival>, a: Arrival, e: ProjectedEvent, sizes: Sizes) {
    && Registry(events + [a], sizes) ==
       (if Accepts(a.run_id, a.task_id, e) then Registry(events, sizes) + [e] else Registry(events, sizes))
    && StoreOf(events + [a], sizes) ==
       (if GoesToStore(a, e) && a.fate.store.Stores? then StoreOf(events, sizes) + [e] else StoreOf(events, sizes))
  }

  lemma RegistryStep(events: seq<Arrival>, a: Arrival, sizes: Sizes)
    ensures IsNext(events, a, Projected(a, |events| + 1, sizes), sizes)
  {
    assert (events + [a])[..|events|] == events;
  }

  lemma ProjectedIsNext(events: seq<Arrival>, a: Arrival, n: nat, e: ProjectedEvent, sizes: Sizes)
    requires n == |events| + 1 && e == Projected(a, n, sizes)
    ensures e.event_type == ProjectedType(a.event) && IsNext(events, a, e, sizes)
    ensures Accepts(a.run_id, a.task_id, e) <==> Accepted(a)
  {
    RegistryStep(events, a, sizes);
    AcceptedIsAccepts(a, n, sizes);
  }

  function WithLine<T>(files: map<string, seq<T>>, key: string, line: T): map<string, seq<T>> {
    files[key := LinesIn(files, key) + [line]]
  }

  /** When a view of one run gets a line or not, as the run's new arrival says, the views of all runs are right. */
  lemma RunView<T>(files: map<string, seq<T>>, view: seq<Arrival> -> seq<T>, arrivals: seq<Arrival>, a: Arrival,
      taken: bool, line: T)
    requires forall r :: LinesIn(files, r) == view(OfRun(arrivals, r))
    requires var events := OfRun(arrivals, a.run_id);
             view(events + [a]) == if taken then view(events) + [line] else view(events)
    ensures var more := if taken then WithLine(files, a.run_id, line) else files;
            forall r :: LinesIn(more, r) == view(OfRun(arrivals + [a], r))
  {
    var more := if taken then WithLine(files, a.run_id, line) else files;
    forall r ensures LinesIn(more, r) == view(OfRun(arrivals + [a], r)) {
      OfRunStep(arrivals, a, r);
    }
  }

  // ----- the views of all runs and tasks -----

  ghost predicate NumbersAre(numbers: map<string, nat>, arrivals: seq<Arrival>) {
    forall run :: (if run in numbers then numbers[run] else 0) == |OfRun(arrivals, run)|
  }

  ghost predicate UsageIs(usage: map<string, Sessions>, arrivals: seq<Arrival>) {
    forall task :: SessionsIn(usage, task) == FoldAll(map[], Observed(arrivals, task))
  }

  ghost predicate LogsAre(files: map<string, seq<AuditLog.Line>>, marked: set<string>, arrivals: seq<Arrival>,
                          cap: Option<nat>, sizes: Sizes) {
    forall run :: AuditLog.Log(LinesIn(files, run), run in marked) == LogOf(OfRun(arrivals, run), cap, sizes)
  }

  ghost predicate RegistryIs(registry: map<string, seq<ProjectedEvent>>, arrivals: seq<Arrival>, sizes: Sizes) {
    forall run :: LinesIn(registry, run) == Registry(OfRun(arrivals, run), sizes)
  }

  ghost predicate StoreIs(store: map<string, seq<ProjectedEvent>>, arrivals: seq<Arrival>, sizes: Sizes) {
    forall run :: LinesIn(store, run) == StoreOf(OfRun(arrivals, run), sizes)
  }

  /** Facts a later recovery needs: failing to store one of these is not swallowed. */
  predicate IsRecoveryFact(eventType: string) {
    eventType == "driver.prompt_dispatching" || eventType == "driver.session_initializing"
  }

  /**
   The part of the backend service that handles driver events, with its log writer and its ledger
   sink. The files and the other views are maps by run or task.
   */
  class DriverStreamPipeline {
    const driverStreamAuditWriter: AuditLog.FileDriverStreamAuditWriter
    const driverUsageSink: FileRunDriverUsageJsonlSink
    const cap: Option<nat>
    const sizes: Sizes
    var driverStreamSequences: map<string, nat>
    var driverUsageByTask: map<string, Sessions>
    var registry: map<string, seq<ProjectedEvent>>
    var coordination: map<string, seq<ProjectedEvent>>
    ghost var arrivals: seq<Arrival>

    ghost predicate NumbersMatch(arrivals: seq<Arrival>)
      reads this`driverStreamSequences
    {
      NumbersAre(driverStreamSequences, arrivals)
    }

    ghost predicate UsageMatches(arrivals: seq<Arrival>)
      reads this`driverUsageByTask
    {
      UsageIs(driverUsageByTask, arrivals)
    }

    ghost predicate LedgersMatch(arrivals: seq<Arrival>)
      reads driverUsageSink
    {
      driverUsageSink.Valid() && driverUsageSink.emits == Emits(arrivals)
    }

    ghost predicate LogsMatch(arrivals: seq<Arrival>)
      reads driverStreamAuditWriter
    {
      && driverStreamAuditWriter.maxBytesPerRun == cap
      && LogsAre(driverStreamAuditWriter.files, driverStreamAuditWriter.truncatedRuns, arrivals, cap, sizes)
    }

    ghost predicate RegistryMatches(arrivals: seq<Arrival>)
      reads this`registry
    {
      RegistryIs(registry, arrivals, sizes)
    }

    ghost predicate StoreMatches(arrivals: seq<Arrival>)
      reads this`coordination
    {
      StoreIs(coordination, arrivals, sizes)
    }

    /** What is recorded of every event. */
    ghost predicate RecordsMatch(arrivals: seq<Arrival>)
      reads this`driverStreamSequences, this`driverUsageByTask, driverUsageSink, driverStreamAuditWriter
    {
      NumbersMatch(arrivals) && UsageMatches(arrivals) && LedgersMatch(arrivals) && LogsMatch(arrivals)
    }

    /** What is made of its projection. */
    ghost predicate ProjectionsMatch(arrivals: seq<Arrival>)
      reads this`registry, this`coordination
    {
      RegistryMatches(arrivals) && StoreMatches(arrivals)
    }

    /** Every view is that of the arrivals so far. */
    ghost predicate Valid()
      reads this, driverUsageSink, driverStreamAuditWriter
    {
      RecordsMatch(arrivals) && ProjectionsMatch(arrivals)
    }

    constructor (cap: Option<nat>, sizes: Sizes)
      ensures Valid() && arrivals == [] && this.cap == cap && this.sizes == sizes
      ensures fresh(driverStreamAuditWriter) && fresh(driverUsageSink)
    {
      this.cap, this.sizes := cap, sizes;
      driverStreamAuditWriter := new AuditLog.FileDriverStreamAuditWriter(cap, map[]);
      driverUsageSink := new FileRunDriverUsageJsonlSink();
      driverStreamSequences, driverUsageByTask, registry, coordination := map[], map[], map[], map[];
      arrivals := [];
    }

    method NextDriverStreamSequence(run: string, ghost a: Arrival) returns (next: nat)
      requires NumbersMatch(arrivals) && a.run_id == run
      modifies this`driverStreamSequences
      ensures NumbersMatch(arrivals + [a]) && next == |OfRun(arrivals, run)| + 1
    {
      next := (if run in driverStreamSequences then driverStreamSequences[run] else 0) + 1;
      driverStreamSequences := driverStreamSequences[run := next];
      forall r ensures (if r in driverStreamSequences then driverStreamSequences[r] else 0) == |OfRun(arrivals + [a], r)| {
        OfRunStep(arrivals, a, r);
      }
    }

    method ObserveUsage(a: Arrival)
      requires UsageMatches(arrivals)
      modifies this`driverUsageByTask
      ensures UsageMatches(arrivals + [a])
    {
      var sessions := SessionsIn(driverUsageByTask, a.task_id);
      var observation := ObservationFromEvent(a.event, a.at, true);
      if observation.Some? { sessions := Fold(sessions, observation.value); }
      UsageView(driverUsageByTask, arrivals, a);
      driverUsageByTask := driverUsageByTask[a.task_id := sessions];
    }

    method WriteDriverUsageRecord(a: Arrival, n: nat)
      requires LedgersMatch(arrivals) && n == |OfRun(arrivals, a.run_id)| + 1
      modifies driverUsageSink
      ensures LedgersMatch(arrivals + [a])
    {
      EmitStep(arrivals, a);
      var observation := ObservationFromEvent(a.event, a.at, true);
      if observation.Some? {
        driverUsageSink.Emit(RecordFromObservation(observation.value, a.run_id, a.task_id, n, a.at), a.fate.ledger);
      }
    }

    method AccountUsage(a: Arrival, n: nat)
      requires UsageMatches(arrivals) && LedgersMatch(arrivals) && n == |OfRun(arrivals, a.run_id)| + 1
      modifies this`driverUsageByTask, driverUsageSink
      ensures UsageMatches(arrivals + [a]) && LedgersMatch(arrivals + [a])
    {
      ObserveUsage(a);
      WriteDriverUsageRecord(a, n);
    }

    method AppendLog(a: Arrival, n: nat)
      requires LogsMatch(arrivals) && n == |OfRun(arrivals, a.run_id)| + 1
      modifies driverStreamAuditWriter
      ensures LogsMatch(arrivals + [a])
    {
      driverStreamAuditWriter.Append(a.run_id, AppendOp(a, n, sizes).call, a.fate.log);
      forall r ensures driverStreamAuditWriter.LogOf(r) == LogOf(OfRun(arrivals + [a], r), cap, sizes) {
        OfRunStep(arrivals, a, r);
        LogStep(OfRun(arrivals, a.run_id), a, cap, sizes);
        assert old(driverStreamAuditWriter.LogOf(r)) == LogOf(OfRun(arrivals, r), cap, sizes);
      }
    }

    /** The registry takes what is not signed by another run or task, and says whether it did. */
    method AppendDomainEvent(a: Arrival, projected: ProjectedEvent) returns (accepted: bool)
      requires RegistryMatches(arrivals) && IsNext(OfRun(arrivals, a.run_id), a, projected, sizes)
      modifies this`registry
      ensures RegistryMatches(arrivals + [a])
      ensures accepted <==> Accepts(a.run_id, a.task_id, projected)
      ensures projected == Projected(a, |OfRun(arrivals, a.run_id)| + 1, sizes) ==> (accepted <==> SignedHere(a))
    {
      AcceptedIffSignedHere(a);
      accepted := Accepts(a.run_id, a.task_id, projected);
      RunView(registry, events => Registry(events, sizes), arrivals, a, accepted, projected);
      if accepted { registry := registry[a.run_id := LinesIn(registry, a.run_id) + [projected]]; }
    }

    /** The store takes state events the registry has taken. A failure is swallowed, except for recovery facts. */
    method PersistRunEvent(a: Arrival, projected: ProjectedEvent, accepted: bool) returns (throws: bool)
      requires StoreMatches(arrivals) && IsNext(OfRun(arrivals, a.run_id), a, projected, sizes)
      requires accepted <==> Accepts(a.run_id, a.task_id, projected)
      modifies this`coordination
      ensures StoreMatches(arrivals + [a])
      ensures throws <==> accepted && IsRecoveryFact(projected.event_type) && a.fate.store.StoreThrows?
    {
      var taken := accepted && IsCoordination(projected.event_type) && a.fate.store.Stores?;
      RunView(coordination, events => StoreOf(events, sizes), arrivals, a, taken, projected);
      if taken { coordination := coordination[a.run_id := LinesIn(coordination, a.run_id) + [projected]]; }
      throws := accepted && IsRecoveryFact(projected.event_type) && a.fate.store.StoreThrows?;
    }

    method RecordArrival(a: Arrival) returns (streamSequence: nat)
      requires RecordsMatch(arrivals) && ProjectionsMatch(arrivals)
      modifies this`driverStreamSequences, this`driverUsageByTask, driverUsageSink, driverStreamAuditWriter
      ensures RecordsMatch(arrivals + [a]) && ProjectionsMatch(arrivals)
      ensures streamSequence == |OfRun(arrivals, a.run_id)| + 1
    {
      streamSequence := NextDriverStreamSequence(a.run_id, a);
      AccountUsage(a, streamSequence);
      AppendLog(a, streamSequence);
    }

    method Project(a: Arrival, n: nat) returns (projected: ProjectedEvent)
      requires n == |OfRun(arrivals, a.run_id)| + 1
      ensures projected.event_type == ProjectedType(a.event) && IsNext(OfRun(arrivals, a.run_id), a, projected, sizes)
      ensures Accepts(a.run_id, a.task_id, projected) <==> Accepted(a)
    {
      projected := ProjectDriverStreamLifecycleEvent(a.event, Some(n), sizes.bytes, a.at);
      ProjectedIsNext(OfRun(arrivals, a.run_id), a, n, projected, sizes);
    }

    method ProjectAndAppend(a: Arrival, n: nat) returns (throws: bool)
      requires ProjectionsMatch(arrivals) && n == |OfRun(arrivals, a.run_id)| + 1
      modifies this`registry, this`coordination
      ensures ProjectionsMatch(arrivals + [a])
      ensures throws <==> Accepted(a) && IsRecoveryFact(ProjectedType(a.event)) && a.fate.store.StoreThrows?
    {
      var projected := Project(a, n);
      var accepted := AppendDomainEvent(a, projected);
      throws := PersistRunEvent(a, projected, accepted);
    }

    /** The second half leaves the records of the first as they are. */
    method ProjectRecorded(a: Arrival, n: nat, ghost recorded: seq<Arrival>) returns (throws: bool)
      requires RecordsMatch(recorded) && ProjectionsMatch(arrivals) && n == |OfRun(arrivals, a.run_id)| + 1
      modifies this`registry, this`coordination
      ensures RecordsMatch(recorded) && ProjectionsMatch(arrivals + [a])
      ensures throws <==> MustTell(a)
    {
      throws := ProjectAndAppend(a, n);
      MustTellIff(a);
    }

    method Deliver(a: Arrival) returns (throws: bool)
      requires RecordsMatch(arrivals) && ProjectionsMatch(arrivals)
      modifies this`driverStreamSequences, this`driverUsageByTask, driverUsageSink, driverStreamAuditWriter
      modifies this`registry, this`coordination
      ensures RecordsMatch(arrivals + [a]) && ProjectionsMatch(arrivals + [a])
      ensures throws <==> MustTell(a)
    {
      var streamSequence := RecordArrival(a);
      throws := ProjectRecorded(a, streamSequence, arrivals + [a]);
    }

    /**
     `appendDriverStreamEvent`: every view gets the event, under one number and one time. What the
     fate says of its writes is the file systems' and the store's; no failure reaches another view,
     and none reaches the caller but that of storing a recovery fact.
     */
    method AppendDriverStreamEvent(run: string, task: string, event: DriverStreamEvent, now: Timestamp, fate: Fate)
      returns (throws: bool)
      requires Valid()
      modifies this, driverUsageSink, driverStreamAuditWriter
      ensures Valid()
      ensures arrivals == old(arrivals) + [Arrival(run, task, event, OrElse(event.created_at, now), fate)]
      ensures throws <==> MustTell(Arrival(run, task, event, OrElse(event.created_at, now), fate))
    {
      var a := Arrival(run, task, event, OrElse(event.created_at, now), fate);
      throws := Deliver(a);
      arrivals := arrivals + [a];
    }

    /** Replaying a run's log against its registry is all right exactly if both have the same events. */
    method ReconcileRun(run: string) returns (report: Report)
      requires Valid()
      ensures var events := OfRun(arrivals, run);
              && (report.ok <==> AcceptedNumbers(events) == LoggedNumbers(events, cap, sizes))
              && (AllSignedHere(events) ==>
                    (report.ok <==> forall n :: 1 <= n <= |events| ==> n in LoggedNumbers(events, cap, sizes)))
    {
      ghost var events := OfRun(arrivals, run);
      LoggedAllIff(events, cap, sizes);
      if AllSignedHere(events) { AllAccepted(events); }
      var lines := if run in driverStreamAuditWriter.files then driverStreamAuditWriter.files[run] else [];
      RunReconciles(OfRun(arrivals, run), cap, sizes);
      report := ReconcileDriverStream(Replay(lines), Some(TimelineItems(LinesIn(registry, run))));
    }
  }
}
