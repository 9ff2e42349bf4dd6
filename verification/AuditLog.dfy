/**
 The size-capped log of one run's driver events, `driver-stream.jsonl`.

 Appends to a run are queued one behind the other. Each looks at the size of the file: at the cap
 it writes a truncation marker instead of its event, once per writer; below the cap it writes its
 event line. Any of this can fail. A new process finds the file but not the old writer's memory of having marked it.
 */
module AuditLog {
  import opened Wrappers
  import opened DriverEvents

  /** One call of `append`, with the sizes its two possible lines would have. */
  datatype Call = Call(streamSequence: Option<nat>, event: DriverStreamEvent, eventBytes: nat, markerBytes: nat)

  /** A line of the log: an event, or the marker that later events are missing. */
  datatype Line =
    | EventLine(streamSequence: Option<nat>, event: DriverStreamEvent, bytes: nat)
    | Marker(streamSequence: Option<nat>, bytes: nat)

  /**
   What becomes of a queued append. It may never run behind a failed one, fail to make the directory, or
   fail to write. And the size of the file may not be read: then it counts as 0, and a line is written or not.
   */
  datatype Outcome = Written | WriteFails | NeverRuns | NoDirectory | SizeUnread(written: bool)

  predicate Writes(outcome: Outcome) {
    outcome.Written? || outcome == SizeUnread(true)
  }

  datatype Op = Append(call: Call, outcome: Outcome) | Restart

  /** The file, and whether the present writer has already marked it. */
  datatype Log = Log(lines: seq<Line>, marked: bool)

  const NEW_LOG := Log([], false)

  function Size(lines: seq<Line>): nat {
    if lines == [] then 0 else Size(lines[..|lines| - 1]) + lines[|lines| - 1].bytes
  }

  /** No cap (`Infinity`) never truncates. */
  predicate AtCap(cap: Option<nat>, size: nat) {
    cap.Some? && size >= cap.value
  }

  /** Whether the append gets as far as the size of the file. */
  predicate BodyRuns(log: Log, op: Op) {
    op.Append? && !op.outcome.NeverRuns? && !op.outcome.NoDirectory? && !log.marked
  }

  /** The size the append goes by. */
  function SeenSize(log: Log, op: Op): nat {
    if op.Append? && op.outcome.SizeUnread? then 0 else Size(log.lines)
  }

  /** The line an operation adds, if it adds one. */
  function NewLine(cap: Option<nat>, log: Log, op: Op): Option<Line> {
    if !BodyRuns(log, op) || !Writes(op.outcome) then None
    else if AtCap(cap, SeenSize(log, op)) then Some(Marker(op.call.streamSequence, op.call.markerBytes))
    else Some(LineOf(op.call))
  }

  function LineOf(call: Call): Line {
    EventLine(call.streamSequence, call.event, call.eventBytes)
  }

  function WithLine(lines: seq<Line>, line: Option<Line>): seq<Line> {
    if line.Some? then lines + [line.value] else lines
  }

  /** The run is remembered as marked before the marker is written, whether or not that works. */
  function Step(cap: Option<nat>, log: Log, op: Op): Log {
    Log(WithLine(log.lines, NewLine(cap, log, op)),
        !op.Restart? && (log.marked || (BodyRuns(log, op) && AtCap(cap, SeenSize(log, op)))))
  }

  function RunFrom(cap: Option<nat>, log: Log, ops: seq<Op>): Log {
    if ops == [] then log else Step(cap, RunFrom(cap, log, ops[..|ops| - 1]), ops[|ops| - 1])
  }

  lemma RunOneMore(cap: Option<nat>, log: Log, ops: seq<Op>, op: Op)
    ensures RunFrom(cap, log, ops + [op]) == Step(cap, RunFrom(cap, log, ops), op)
  {
    assert (ops + [op])[..|ops|] == ops;
  }

  function Calls(ops: seq<Op>): seq<Call> {
    if ops == [] then []
    else
      var last := ops[|ops| - 1];
      var front := Calls(ops[..|ops| - 1]);
      if last.Append? then front + [last.call] else front
  }

  function EventLines(lines: seq<Line>): seq<Line> {
    if lines == [] then []
    else
      var last := lines[|lines| - 1];
      var front := EventLines(lines[..|lines| - 1]);
      if last.EventLine? then front + [last] else front
  }

  function LinesOf(calls: seq<Call>): (r: seq<Line>)
    ensures |r| == |calls|
  {
    seq(|calls|, i requires 0 <= i < |calls| => LineOf(calls[i]))
  }

  /** The first sequence can be had from the second by leaving elements out. */
  ghost predicate Subsequence<T>(a: seq<T>, b: seq<T>) {
    a == [] ||
    (b != [] &&
     (Subsequence(a, b[..|b| - 1]) ||
      (a[|a| - 1] == b[|b| - 1] && Subsequence(a[..|a| - 1], b[..|b| - 1]))))
  }

  lemma {:induction false} SubsequenceSkip<T>(a: seq<T>, b: seq<T>, x: T)
    requires Subsequence(a, b)
    ensures Subsequence(a, b + [x]) && Subsequence(a + [x], b + [x])
  {
    assert (b + [x])[..|b|] == b && (a + [x])[..|a|] == a;
  }

  // ----- what holds of the file after any operations -----

  ghost predicate MarkersLast(lines: seq<Line>) {
    forall i, j :: 0 <= i < j < |lines| && lines[i].Marker? ==> lines[j].Marker?
  }

  /** Every event line was below the cap when it was written, and every marker at it. */
  ghost predicate CapRespected(cap: Option<nat>, lines: seq<Line>) {
    forall i :: 0 <= i < |lines| ==> (lines[i].EventLine? <==> !AtCap(cap, Size(lines[..i])))
  }

  lemma {:induction false} SizeGrows(lines: seq<Line>, i: nat)
    requires i <= |lines|
    ensures Size(lines[..i]) <= Size(lines)
  {
    if i < |lines| {
      SizeGrows(lines[..|lines| - 1], i);
      assert lines[..|lines| - 1][..i] == lines[..i];
    } else {
      assert lines[..i] == lines;
    }
  }

  lemma CapOneMore(cap: Option<nat>, lines: seq<Line>, x: Line)
    ensures CapRespected(cap, lines + [x]) <==> CapRespected(cap, lines) && (x.EventLine? <==> !AtCap(cap, Size(lines)))
  {
    var more := lines + [x];
    assert more[..|lines|] == lines && more[|lines|] == x;
    forall i | 0 <= i < |lines| ensures more[i] == lines[i] && more[..i] == lines[..i] {}
  }

  lemma CapPutsMarkersLast(cap: Option<nat>, lines: seq<Line>)
    requires CapRespected(cap, lines)
    ensures MarkersLast(lines)
  {
    forall i, j | 0 <= i < j < |lines| && lines[i].Marker? ensures lines[j].Marker? {
      SizeGrows(lines[..j], i);
      assert lines[..j][..i] == lines[..i];
    }
  }

  /** An append that could not read the size and puts its event at the cap, or behind it. */
  predicate WritesBlindly(cap: Option<nat>, log: Log, op: Op) {
    && BodyRuns(log, op) && op.outcome == SizeUnread(true)
    && !AtCap(cap, 0) && AtCap(cap, Size(log.lines))
  }

  ghost predicate NeverBlind(cap: Option<nat>, log: Log, ops: seq<Op>) {
    forall i :: 0 <= i < |ops| ==> !WritesBlindly(cap, RunFrom(cap, log, ops[..i]), ops[i])
  }

  lemma NeverBlindStep(cap: Option<nat>, log: Log, ops: seq<Op>)
    requires ops != []
    ensures var front, last := ops[..|ops| - 1], ops[|ops| - 1];
            NeverBlind(cap, log, ops) <==> NeverBlind(cap, log, front) && !WritesBlindly(cap, RunFrom(cap, log, front), last)
  {
    var front := ops[..|ops| - 1];
    forall i | 0 <= i < |front| ensures front[..i] == ops[..i] && front[i] == ops[i] {}
    if NeverBlind(cap, log, ops) {
      forall i | 0 <= i < |front| ensures !WritesBlindly(cap, RunFrom(cap, log, front[..i]), front[i]) {
        assert !WritesBlindly(cap, RunFrom(cap, log, ops[..i]), ops[i]);
      }
    }
    if NeverBlind(cap, log, front) && !WritesBlindly(cap, RunFrom(cap, log, front), ops[|front|]) {
      forall i | 0 <= i < |ops| ensures !WritesBlindly(cap, RunFrom(cap, log, ops[..i]), ops[i]) {
        if i < |front| { assert !WritesBlindly(cap, RunFrom(cap, log, front[..i]), front[i]); }
      }
    }
  }

  lemma StepRespectsCap(cap: Option<nat>, log: Log, op: Op)
    ensures CapRespected(cap, Step(cap, log, op).lines) <==> CapRespected(cap, log.lines) && !WritesBlindly(cap, log, op)
  {
    var line := NewLine(cap, log, op);
    if line.Some? { CapOneMore(cap, log.lines, line.value); }
  }

  /** Operations keep a file respecting the cap exactly if none of them writes blindly. */
  lemma {:induction false} RunRespectsCap(cap: Option<nat>, log: Log, ops: seq<Op>)
    requires CapRespected(cap, log.lines)
    ensures CapRespected(cap, RunFrom(cap, log, ops).lines) <==> NeverBlind(cap, log, ops)
  {
    if ops != [] {
      var front, last := ops[..|ops| - 1], ops[|ops| - 1];
      RunRespectsCap(cap, log, front);
      NeverBlindStep(cap, log, ops);
      StepRespectsCap(cap, RunFrom(cap, log, front), last);
    }
  }

  /** So it always does where no size query fails. */
  lemma SizesReadNeverBlind(cap: Option<nat>, log: Log, ops: seq<Op>)
    requires forall i :: 0 <= i < |ops| && ops[i].Append? ==> !ops[i].outcome.SizeUnread?
    ensures NeverBlind(cap, log, ops)
  {
  }

  lemma RunFour(cap: Option<nat>, p: Op, q: Op, r: Op, s: Op)
    ensures RunFrom(cap, NEW_LOG, [p, q, r, s]) == Step(cap, Step(cap, Step(cap, Step(cap, NEW_LOG, p), q), r), s)
  {
    var none: seq<Op> := [];
    assert none + [p] == [p] && [p] + [q] == [p, q] && [p, q] + [r] == [p, q, r] && [p, q, r] + [s] == [p, q, r, s];
    RunOneMore(cap, NEW_LOG, none, p);
    RunOneMore(cap, NEW_LOG, [p], q);
    RunOneMore(cap, NEW_LOG, [p, q], r);
    RunOneMore(cap, NEW_LOG, [p, q, r], s);
  }

  lemma StepsBehindMarker(a: Call, b: Call, c: Call)
    requires a.eventBytes >= 10
    ensures var one, two := LineOf(a), Marker(b.streamSequence, b.markerBytes);
            && Step(Some(10), NEW_LOG, Append(a, Written)) == Log([one], false)
            && Step(Some(10), Log([one], false), Append(b, Written)) == Log([one, two], true)
            && Step(Some(10), Log([one, two], true), Restart) == Log([one, two], false)
            && Step(Some(10), Log([one, two], false), Append(c, SizeUnread(true))) == Log([one, two, LineOf(c)], false)
  {
    SizeOneMore([], LineOf(a));
    assert [] + [LineOf(a)] == [LineOf(a)];
  }

  /** And it happens: behind the marker of an earlier writer a new one writes an event whose size query fails. */
  lemma EventBehindMarker(a: Call, b: Call, c: Call)
    requires a.eventBytes >= 10
    ensures var ops := [Append(a, Written), Append(b, Written), Restart, Append(c, SizeUnread(true))];
            RunFrom(Some(10), NEW_LOG, ops).lines == [LineOf(a), Marker(b.streamSequence, b.markerBytes), LineOf(c)]
  {
    var first, second, third := Append(a, Written), Append(b, Written), Append(c, SizeUnread(true));
    RunFour(Some(10), first, second, Restart, third);
    StepsBehindMarker(a, b, c);
  }

  lemma StepFollowsCalls(cap: Option<nat>, before: Log, op: Op, calls: seq<Line>)
    requires Subsequence(EventLines(before.lines), calls)
    ensures Subsequence(EventLines(Step(cap, before, op).lines), if op.Append? then calls + [LineOf(op.call)] else calls)
  {
    if op.Append? { SubsequenceSkip(EventLines(before.lines), calls, LineOf(op.call)); }
    var line := NewLine(cap, before, op);
    if line.Some? { EventLinesOneMore(before.lines, line.value); }
  }

  lemma CallsOneMore(ops: seq<Op>)
    requires ops != []
    ensures var front, last := ops[..|ops| - 1], ops[|ops| - 1];
            LinesOf(Calls(ops)) == if last.Append? then LinesOf(Calls(front)) + [LineOf(last.call)] else LinesOf(Calls(front))
  {
    var front, last := ops[..|ops| - 1], ops[|ops| - 1];
    if last.Append? {
      assert LinesOf(Calls(front) + [last.call]) == LinesOf(Calls(front)) + [LineOf(last.call)];
    } else {
      assert Calls(ops) == Calls(front);
    }
  }

  /**
   Over any appends, failures and restarts, the event lines are a subsequence of the calls in call
   order.
   */
  lemma {:induction false} EventLinesFollowCalls(cap: Option<nat>, ops: seq<Op>)
    ensures Subsequence(EventLines(RunFrom(cap, NEW_LOG, ops).lines), LinesOf(Calls(ops)))
  {
    if ops != [] {
      var front, last := ops[..|ops| - 1], ops[|ops| - 1];
      EventLinesFollowCalls(cap, front);
      CallsOneMore(ops);
      StepFollowsCalls(cap, RunFrom(cap, NEW_LOG, front), last, LinesOf(Calls(front)));
    }
  }

  lemma EventLinesOneMore(lines: seq<Line>, x: Line)
    ensures EventLines(lines + [x]) == if x.EventLine? then EventLines(lines) + [x] else EventLines(lines)
  {
    assert (lines + [x])[..|lines|] == lines;
  }

  function EventBytes(lines: seq<Line>): nat {
    Size(EventLines(lines))
  }

  /** Unless one was written blindly, no event line follows a marker, and all but the last stay below the cap. */
  lemma LogIsCapped(cap: nat, ops: seq<Op>)
    ensures var lines := RunFrom(Some(cap), NEW_LOG, ops).lines;
            NeverBlind(Some(cap), NEW_LOG, ops) ==>
              && MarkersLast(lines)
              && (forall i :: 0 <= i < |lines| && lines[i].EventLine? ==>
                    EventBytes(lines[..i]) < cap && EventBytes(lines[..i + 1]) < cap + lines[i].bytes)
  {
    RunRespectsCap(Some(cap), NEW_LOG, ops);
    var lines := RunFrom(Some(cap), NEW_LOG, ops).lines;
    if NeverBlind(Some(cap), NEW_LOG, ops) {
      CapPutsMarkersLast(Some(cap), lines);
      forall i | 0 <= i < |lines| && lines[i].EventLine?
        ensures EventBytes(lines[..i]) < cap && EventBytes(lines[..i + 1]) < cap + lines[i].bytes
      {
        EventBytesWithinSize(lines[..i]);
        assert lines[..i + 1] == lines[..i] + [lines[i]];
        EventLinesOneMore(lines[..i], lines[i]);
        var e := EventLines(lines[..i]);
        assert (e + [lines[i]])[..|e|] == e;
      }
    }
  }

  /** A marker is only ever written at the cap. */
  lemma MarkersAtCap(cap: nat, ops: seq<Op>)
    ensures var lines := RunFrom(Some(cap), NEW_LOG, ops).lines;
            NeverBlind(Some(cap), NEW_LOG, ops) ==>
              forall i :: 0 <= i < |lines| && lines[i].Marker? ==> Size(lines[..i]) >= cap
  {
    RunRespectsCap(Some(cap), NEW_LOG, ops);
  }

  lemma {:induction false} EventBytesWithinSize(lines: seq<Line>)
    ensures EventBytes(lines) <= Size(lines)
  {
    if lines != [] {
      var front := lines[..|lines| - 1];
      EventBytesWithinSize(front);
      var e := EventLines(front);
      assert (e + [lines[|lines| - 1]])[..|e|] == e;
    }
  }

  function Markers(lines: seq<Line>): nat {
    if lines == [] then 0 else Markers(lines[..|lines| - 1]) + (if lines[|lines| - 1].Marker? then 1 else 0)
  }

  lemma MarkersOneMore(lines: seq<Line>, x: Line)
    ensures Markers(lines + [x]) == Markers(lines) + (if x.Marker? then 1 else 0)
  {
    assert (lines + [x])[..|lines|] == lines;
  }

  function Restarts(ops: seq<Op>): nat {
    if ops == [] then 0 else Restarts(ops[..|ops| - 1]) + (if ops[|ops| - 1].Restart? then 1 else 0)
  }

  /** Operations of one writer: there is no restart among them. */
  ghost predicate OneWriter(ops: seq<Op>) {
    forall i :: 0 <= i < |ops| ==> ops[i].Append?
  }

  /** A writer that has marked the run adds no line to it any more; one that has not adds at most one marker. */
  lemma {:induction false} WriterMarksOnce(cap: Option<nat>, log: Log, ops: seq<Op>)
    requires OneWriter(ops)
    ensures var after := RunFrom(cap, log, ops);
            && (log.marked ==> after == log)
            && Markers(after.lines) <= Markers(log.lines) + (if after.marked then 1 else 0)
  {
    if ops != [] {
      var front, last := ops[..|ops| - 1], ops[|ops| - 1];
      WriterMarksOnce(cap, log, front);
      var before := RunFrom(cap, log, front);
      var line := NewLine(cap, before, last);
      if line.Some? { MarkersOneMore(before.lines, line.value); }
      if before.marked { assert Step(cap, before, last) == before; }
    }
  }

  lemma {:induction false} RunFromAppend(cap: Option<nat>, log: Log, a: seq<Op>, b: seq<Op>)
    ensures RunFrom(cap, log, a + b) == RunFrom(cap, RunFrom(cap, log, a), b)
  {
    if b == [] {
      assert a + b == a;
    } else {
      RunFromAppend(cap, log, a, b[..|b| - 1]);
      assert (a + b)[..|a + b| - 1] == a + b[..|b| - 1];
    }
  }

  /**
   In any run from any file each writer adds at most one marker: between its first operation and its
   last there is at most one marker more, and none once it has marked the run.
   */
  lemma OneMarkerPerWriter(cap: Option<nat>, log: Log, ops: seq<Op>, i: nat, j: nat)
    requires i <= j <= |ops| && OneWriter(ops[i..j])
    ensures var before, after := RunFrom(cap, log, ops[..i]), RunFrom(cap, log, ops[..j]);
            && Markers(after.lines) <= Markers(before.lines) + 1
            && (before.marked ==> after == before)
  {
    assert ops[..j] == ops[..i] + ops[i..j];
    RunFromAppend(cap, log, ops[..i], ops[i..j]);
    WriterMarksOnce(cap, RunFrom(cap, log, ops[..i]), ops[i..j]);
  }

  lemma {:induction false} LastRestart(ops: seq<Op>) returns (r: nat)
    requires !OneWriter(ops)
    ensures r < |ops| && ops[r].Restart? && OneWriter(ops[r + 1..])
    ensures Restarts(ops) == Restarts(ops[..r]) + 1
  {
    var n := |ops| - 1;
    if ops[n].Restart? {
      r := n;
    } else {
      r := LastRestart(ops[..n]);
      assert ops[..n][..r] == ops[..r];
      var tail, shorter := ops[r + 1..], ops[..n][r + 1..];
      forall i | 0 <= i < |tail| ensures tail[i].Append? {
        assert i < |shorter| ==> tail[i] == shorter[i];
      }
    }
  }

  /** So there are at most as many markers as there were writers, beside those found in the file. */
  lemma {:induction false} MarkersAtMostWriters(cap: Option<nat>, log: Log, ops: seq<Op>)
    ensures Markers(RunFrom(cap, log, ops).lines) <= Markers(log.lines) + Restarts(ops) + 1
    decreases |ops|
  {
    assert ops[..|ops|] == ops && ops[..0] == [];
    if OneWriter(ops) {
      assert ops[0..] == ops;
      OneMarkerPerWriter(cap, log, ops, 0, |ops|);
    } else {
      var r := LastRestart(ops);
      MarkersAtMostWriters(cap, log, ops[..r]);
      assert ops[..r + 1][..r] == ops[..r];
      assert ops[r + 1..] == ops[r + 1..|ops|];
      OneMarkerPerWriter(cap, log, ops, r + 1, |ops|);
    }
  }

  // ----- without write failures the kept events are a prefix of the calls -----

  /** The calls that fit: all up to and including the first that brings the log to its cap. */
  function Kept(cap: Option<nat>, calls: seq<Call>): (k: seq<Call>)
    ensures k <= calls
  {
    if calls == [] then []
    else
      var front := calls[..|calls| - 1];
      var k := Kept(cap, front);
      if |k| == |front| && !AtCap(cap, Size(LinesOf(front))) then calls else k
  }

  /** `Kept` is the longest prefix of the calls whose every proper prefix is below the cap. */
  lemma {:induction false} KeptIsLongestFit(cap: Option<nat>, calls: seq<Call>)
    ensures var n := |Kept(cap, calls)|;
            && (forall i :: 0 <= i < n ==> cap == None || Size(LinesOf(calls[..i])) < cap.value)
            && (n < |calls| ==> cap.Some? && Size(LinesOf(calls[..n])) >= cap.value)
  {
    if calls != [] {
      var front := calls[..|calls| - 1];
      KeptIsLongestFit(cap, front);
      assert forall i :: 0 <= i <= |front| ==> front[..i] == calls[..i];
      assert front[..|front|] == front;
    }
  }

  ghost predicate NoFailures(ops: seq<Op>) {
    forall i :: 0 <= i < |ops| && ops[i].Append? ==> ops[i].outcome.Written?
  }

  /** While calls fit, the file is just their lines; once they do not, the file is at its cap. */
  ghost predicate Faithful(cap: Option<nat>, log: Log, calls: seq<Call>) {
    && EventLines(log.lines) == LinesOf(Kept(cap, calls))
    && (log.marked ==> AtCap(cap, Size(log.lines)))
    && (|Kept(cap, calls)| < |calls| ==> AtCap(cap, Size(log.lines)))
    && (log.lines == EventLines(log.lines) || AtCap(cap, EventBytes(log.lines)))
  }

  lemma KeptOneMore(cap: Option<nat>, calls: seq<Call>, c: Call)
    ensures Kept(cap, calls + [c]) ==
            if Kept(cap, calls) == calls && !AtCap(cap, Size(LinesOf(calls))) then calls + [c] else Kept(cap, calls)
  {
    assert (calls + [c])[..|calls|] == calls;
  }

  lemma FaithfulAppend(cap: Option<nat>, log: Log, calls: seq<Call>, op: Op)
    requires Faithful(cap, log, calls) && op.Append? && op.outcome.Written?
    ensures Faithful(cap, Step(cap, log, op), calls + [op.call])
  {
    EventBytesWithinSize(log.lines);
    if AtCap(cap, Size(log.lines)) {
      FullStaysFull(cap, log, calls, op);
    } else {
      assert Kept(cap, calls) == calls && log.lines == LinesOf(calls);
      KeptOneMore(cap, calls, op.call);
      FaithfulRoom(cap, log, calls, op);
    }
  }

  lemma RoomStep(cap: Option<nat>, log: Log, op: Op)
    requires op.Append? && op.outcome.Written? && !log.marked && !AtCap(cap, Size(log.lines))
    ensures Step(cap, log, op) == Log(log.lines + [LineOf(op.call)], false)
  {
  }

  lemma LinesOfOneMore(calls: seq<Call>, c: Call)
    ensures LinesOf(calls + [c]) == LinesOf(calls) + [LineOf(c)]
  {
  }

  lemma FaithfulRoom(cap: Option<nat>, log: Log, calls: seq<Call>, op: Op)
    requires op.Append? && op.outcome.Written? && !log.marked && !AtCap(cap, Size(log.lines))
    requires Kept(cap, calls + [op.call]) == calls + [op.call] && log.lines == LinesOf(calls)
    requires log.lines == EventLines(log.lines)
    ensures Faithful(cap, Step(cap, log, op), calls + [op.call])
  {
    RoomStep(cap, log, op);
    LinesOfOneMore(calls, op.call);
    EventLinesOneMore(log.lines, LineOf(op.call));
  }

  lemma FullStaysFull(cap: Option<nat>, log: Log, calls: seq<Call>, op: Op)
    requires Faithful(cap, log, calls) && op.Append? && op.outcome.Written? && AtCap(cap, Size(log.lines))
    ensures Faithful(cap, Step(cap, log, op), calls + [op.call])
  {
    var c := op.call;
    KeptOneMore(cap, calls, c);
    assert AtCap(cap, EventBytes(log.lines));
    if !log.marked {
      EventLinesOneMore(log.lines, Marker(c.streamSequence, c.markerBytes));
      SizeOneMore(log.lines, Marker(c.streamSequence, c.markerBytes));
    }
  }

  /** Without write failures, and whatever restarts happen, the event lines are the calls that fit. */
  lemma {:induction false} EventLinesAreKept(cap: Option<nat>, ops: seq<Op>)
    requires NoFailures(ops)
    ensures Faithful(cap, RunFrom(cap, NEW_LOG, ops), Calls(ops))
  {
    if ops != [] {
      var front, last := ops[..|ops| - 1], ops[|ops| - 1];
      EventLinesAreKept(cap, front);
      if last.Append? {
        FaithfulAppend(cap, RunFrom(cap, NEW_LOG, front), Calls(front), last);
      } else {
        assert Calls(ops) == Calls(front);
      }
    }
  }

  lemma SizeOneMore(lines: seq<Line>, x: Line)
    ensures Size(lines + [x]) == Size(lines) + x.bytes
  {
    assert (lines + [x])[..|lines|] == lines;
  }

  /** `FileDriverStreamAuditWriter`: the files of all runs, and the runs this writer has marked. */
  class FileDriverStreamAuditWriter {
    const maxBytesPerRun: Option<nat>
    var files: map<string, seq<Line>>
    var truncatedRuns: set<string>

    ghost function LogOf(runId: string): Log
      reads this
    {
      Log(if runId in files then files[runId] else [], runId in truncatedRuns)
    }

    /** A new process over the files an earlier one has left. */
    constructor (maxBytesPerRun: Option<nat>, files: map<string, seq<Line>>)
      ensures this.maxBytesPerRun == maxBytesPerRun && this.files == files && truncatedRuns == {}
    {
      this.maxBytesPerRun, this.files, this.truncatedRuns := maxBytesPerRun, files, {};
    }

    method Append(runId: string, call: Call, outcome: Outcome)
      modifies this
      ensures LogOf(runId) == Step(maxBytesPerRun, old(LogOf(runId)), Op.Append(call, outcome))
      ensures forall other :: other != runId ==> LogOf(other) == old(LogOf(other))
    {
      if outcome.NeverRuns? || runId in truncatedRuns { return; }
      if outcome.NoDirectory? { return; }
      var lines := if runId in files then files[runId] else [];
      var size := if outcome.SizeUnread? then 0 else Size(lines);
      if AtCap(maxBytesPerRun, size) {
        truncatedRuns := truncatedRuns + {runId};
        if Writes(outcome) {
          files := files[runId := lines + [Marker(call.streamSequence, call.markerBytes)]];
        }
        return;
      }
      if Writes(outcome) {
        files := files[runId := lines + [EventLine(call.streamSequence, call.event, call.eventBytes)]];
      }
    }
  }
}
