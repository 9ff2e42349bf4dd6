/** References into the driver event log: how they are written, read and resolved. */
module StreamRefs {
  import opened Wrappers
  import opened DriverEvents
  import opened Decimal
  import opened AuditLog

  const STREAM_REF_PREFIX := "driver-stream.jsonl#stream_sequence="
  const LEGACY_REF_PREFIX := "driver-stream.jsonl#sequence="

  datatype RefKey = StreamSequence(value: nat) | Sequence(value: nat)

  /** What `String(n)` prints for an integer. */
  function PrintInt(n: int): string {
    if n >= 0 then Print(n) else "-" + Print(-n)
  }

  function StreamRef(n: nat): string {
    STREAM_REF_PREFIX + PrintInt(n)
  }

  function LegacyRef(n: int): string {
    LEGACY_REF_PREFIX + PrintInt(n)
  }

  /** The digits after the prefix, when the reference is the prefix and nothing but digits. */
  function DigitsAfter(ref: string, prefix: string): Option<string> {
    if prefix <= ref && |ref| > |prefix| && AllDigits(ref[|prefix|..]) then Some(ref[|prefix|..]) else None
  }

  function ParseRef(ref: string): Option<RefKey> {
    var stream := DigitsAfter(ref, STREAM_REF_PREFIX);
    if stream.Some? && AllDigits(stream.value) then Some(StreamSequence(Value(stream.value)))
    else
      var legacy := DigitsAfter(ref, LEGACY_REF_PREFIX);
      if legacy.Some? && AllDigits(legacy.value) then Some(Sequence(Value(legacy.value))) else None
  }

  lemma PrefixesDiffer()
    ensures STREAM_REF_PREFIX[21] != LEGACY_REF_PREFIX[21]
    ensures |STREAM_REF_PREFIX| == 36 && |LEGACY_REF_PREFIX| == 29
  {
  }

  /** A stream reference is read back as the number it was written with. */
  lemma StreamRefRoundTrip(n: nat)
    ensures ParseRef(StreamRef(n)) == Some(StreamSequence(n))
  {
    PrintThenValue(n);
    var ref := StreamRef(n);
    assert ref[..|STREAM_REF_PREFIX|] == STREAM_REF_PREFIX;
    assert ref[|STREAM_REF_PREFIX|..] == Print(n);
  }

  /** A legacy reference is read back exactly when its number is not negative. */
  lemma LegacyRefRoundTrip(n: int)
    ensures ParseRef(LegacyRef(n)) == if n >= 0 then Some(Sequence(n)) else None
  {
    PrefixesDiffer();
    var ref := LegacyRef(n);
    assert ref[21] == LEGACY_REF_PREFIX[21];
    assert !(STREAM_REF_PREFIX <= ref);
    assert ref[|LEGACY_REF_PREFIX|..] == PrintInt(n);
    if n >= 0 {
      PrintThenValue(n);
    } else {
      assert !IsDigit(PrintInt(n)[0]);
    }
  }

  /** The text is the prefix and then a numeral of n, which may have leading zeros. */
  ghost predicate IsRefText(ref: string, prefix: string, n: nat) {
    exists digits :: digits != "" && AllDigits(digits) && Value(digits) == n && ref == prefix + digits
  }

  lemma DigitsFound(ref: string, prefix: string, n: nat)
    ensures IsRefText(ref, prefix, n) <==>
            DigitsAfter(ref, prefix).Some? && AllDigits(DigitsAfter(ref, prefix).value)
            && Value(DigitsAfter(ref, prefix).value) == n
  {
    if digits :| digits != "" && AllDigits(digits) && Value(digits) == n && ref == prefix + digits {
      assert ref[|prefix|..] == digits;
    }
    if DigitsAfter(ref, prefix).Some? { assert ref == prefix + ref[|prefix|..]; }
  }

  /** Which texts are references, and to which numbers. */
  lemma ParsesIffRefText(ref: string, n: nat)
    ensures ParseRef(ref) == Some(StreamSequence(n)) <==> IsRefText(ref, "driver-stream.jsonl#stream_sequence=", n)
    ensures ParseRef(ref) == Some(Sequence(n)) <==> IsRefText(ref, "driver-stream.jsonl#sequence=", n)
  {
    DigitsFound(ref, "driver-stream.jsonl#stream_sequence=", n);
    DigitsFound(ref, "driver-stream.jsonl#sequence=", n);
    PrefixesDiffer();
    if IsRefText(ref, LEGACY_REF_PREFIX, n) {
      assert ref[21] == LEGACY_REF_PREFIX[21];
      assert !(STREAM_REF_PREFIX <= ref);
    }
  }

  predicate Answers(line: Line, key: RefKey) {
    match key
    case StreamSequence(n) => line.streamSequence == Some(n)
    case Sequence(n) => line.EventLine? && line.event.sequence == Some(n)
  }

  function FirstAnswer(lines: seq<Line>, key: RefKey): Option<Line> {
    if lines == [] then None
    else if Answers(lines[0], key) then Some(lines[0])
    else FirstAnswer(lines[1..], key)
  }

  /** The event of the first line that answers; a marker carries a number but no event. */
  function Resolve(lines: seq<Line>, ref: string): Option<DriverStreamEvent> {
    match ParseRef(ref)
    case None => None
    case Some(key) =>
      match FirstAnswer(lines, key)
      case Some(EventLine(_, event, _)) => Some(event)
      case _ => None
  }

  lemma {:induction false} FirstAnswerIsFirst(lines: seq<Line>, key: RefKey)
    ensures FirstAnswer(lines, key).None? <==> forall i :: 0 <= i < |lines| ==> !Answers(lines[i], key)
    ensures FirstAnswer(lines, key).Some? ==>
            exists i :: 0 <= i < |lines| && lines[i] == FirstAnswer(lines, key).value && Answers(lines[i], key)
                        && forall h :: 0 <= h < i ==> !Answers(lines[h], key)
  {
    if lines != [] {
      FirstAnswerIsFirst(lines[1..], key);
      if !Answers(lines[0], key) {
        assert forall i :: 0 < i < |lines| ==> lines[i] == lines[1..][i - 1];
        if FirstAnswer(lines[1..], key).Some? {
          var i :| 0 <= i < |lines[1..]| && lines[1..][i] == FirstAnswer(lines[1..], key).value
                   && Answers(lines[1..][i], key) && forall h :: 0 <= h < i ==> !Answers(lines[1..][h], key);
          assert lines[i + 1] == FirstAnswer(lines, key).value;
          forall h | 0 <= h < i + 1 ensures !Answers(lines[h], key) {
            assert h > 0 ==> lines[h] == lines[1..][h - 1];
          }
        } else {
          forall i | 0 <= i < |lines| ensures !Answers(lines[i], key) {
            assert i > 0 ==> lines[i] == lines[1..][i - 1];
          }
        }
      } else {
        assert lines[0] == FirstAnswer(lines, key).value;
      }
    }
  }

  // ----- references within one process -----

  /** The calls of one process carry the numbers 1, 2, 3, ... in call order. */
  ghost predicate Numbered(calls: seq<Call>) {
    forall i :: 0 <= i < |calls| ==> calls[i].streamSequence == Some(i + 1)
  }

  /** A line that one of the calls wrote, with that call's number. */
  ghost predicate FromCall(line: Line, calls: seq<Call>) {
    && line.streamSequence.Some? && 1 <= line.streamSequence.value <= |calls|
    && (line.EventLine? ==> line.event == calls[line.streamSequence.value - 1].event)
  }

  lemma {:induction false} NewLinesComeFromCalls(cap: Option<nat>, log: Log, ops: seq<Op>, k: int)
    requires Numbered(Calls(ops))
    ensures var lines := RunFrom(cap, log, ops).lines;
            log.lines <= lines && (|log.lines| <= k < |lines| ==> FromCall(lines[k], Calls(ops)))
  {
    if ops != [] {
      var front, last := ops[..|ops| - 1], ops[|ops| - 1];
      assert forall i :: 0 <= i < |Calls(front)| ==> Calls(front)[i] == Calls(ops)[i];
      NewLinesComeFromCalls(cap, log, front, k);
      var before := RunFrom(cap, log, front);
      var line := NewLine(cap, before, last);
      var lines := RunFrom(cap, log, ops).lines;
      assert lines == WithLine(before.lines, line);
      if |log.lines| <= k < |before.lines| {
        assert FromCall(before.lines[k], Calls(front)) && lines[k] == before.lines[k];
      } else if |log.lines| <= k < |lines| {
        assert line.Some? && lines[k] == line.value;
        assert Calls(ops) == Calls(front) + [last.call];
        assert Calls(ops)[|Calls(front)|] == last.call;
        assert last.call.streamSequence == Some(|Calls(ops)|);
      }
    }
  }

  lemma {:induction false} FirstAnswerAppend(a: seq<Line>, b: seq<Line>, key: RefKey)
    ensures FirstAnswer(a + b, key) == if FirstAnswer(a, key).Some? then FirstAnswer(a, key) else FirstAnswer(b, key)
  {
    if a == [] {
      assert a + b == b;
    } else {
      assert (a + b)[1..] == a[1..] + b;
      FirstAnswerAppend(a[1..], b, key);
    }
  }

  ghost predicate OwnOrNothing(found: Option<DriverStreamEvent>, own: DriverStreamEvent) {
    found.None? || found.value == own
  }

  /**
   A process numbers its events from 1. Whatever it then appends, with whatever failures, the
   reference of its n-th event resolves to that event or to nothing if and only if it did so
   already in the file the process found: lines of an earlier process with the same number win.
   */
  lemma RefResolvesToOwnEvent(cap: Option<nat>, found: seq<Line>, ops: seq<Op>, n: nat)
    requires Numbered(Calls(ops)) && 1 <= n <= |Calls(ops)|
    ensures var lines := RunFrom(cap, Log(found, false), ops).lines;
            OwnOrNothing(Resolve(lines, StreamRef(n)), Calls(ops)[n - 1].event) <==>
            OwnOrNothing(Resolve(found, StreamRef(n)), Calls(ops)[n - 1].event)
  {
    var lines := RunFrom(cap, Log(found, false), ops).lines;
    NewLinesComeFromCalls(cap, Log(found, false), ops, 0);
    var added := lines[|found|..];
    assert lines == found + added;
    StreamRefRoundTrip(n);
    var key := StreamSequence(n);
    FirstAnswerAppend(found, added, key);
    AddedAnswerIsOwn(cap, found, ops, n);
  }

  /** What the process itself has added answers its reference with its own event. */
  lemma AddedAnswerIsOwn(cap: Option<nat>, found: seq<Line>, ops: seq<Op>, n: nat)
    requires Numbered(Calls(ops)) && 1 <= n <= |Calls(ops)|
    requires found <= RunFrom(cap, Log(found, false), ops).lines
    ensures var added := RunFrom(cap, Log(found, false), ops).lines[|found|..];
            var answer := FirstAnswer(added, StreamSequence(n));
            answer.Some? ==> answer.value.EventLine? ==> answer.value.event == Calls(ops)[n - 1].event
  {
    var lines := RunFrom(cap, Log(found, false), ops).lines;
    var added, key := lines[|found|..], StreamSequence(n);
    FirstAnswerIsFirst(added, key);
    if FirstAnswer(added, key).Some? {
      var i :| 0 <= i < |added| && added[i] == FirstAnswer(added, key).value && Answers(added[i], key);
      NewLinesComeFromCalls(cap, Log(found, false), ops, |found| + i);
      assert added[i] == lines[|found| + i];
    }
  }

  /** A restart can send a reference to the wrong event: the second process starts from 1 again. */
  lemma RestartReusesNumbers(a: DriverStreamEvent, b: DriverStreamEvent)
    requires a != b
    ensures var first := Call(Some(1), a, 10, 10);
            var second := Call(Some(1), b, 10, 10);
            var lines := RunFrom(None, NEW_LOG, [Append(first, Written), Restart, Append(second, Written)]).lines;
            lines == [LineOf(first), LineOf(second)] && Resolve(lines, StreamRef(1)) == Some(a)
  {
    var first, second := Append(Call(Some(1), a, 10, 10), Written), Append(Call(Some(1), b, 10, 10), Written);
    var none: seq<Op> := [];
    assert none + [first] == [first] && [first] + [Restart] == [first, Restart];
    assert [first, Restart] + [second] == [first, Restart, second];
    RunOneMore(None, NEW_LOG, none, first);
    RunOneMore(None, NEW_LOG, [first], Restart);
    RunOneMore(None, NEW_LOG, [first, Restart], second);
    var lines := [LineOf(first.call), LineOf(second.call)];
    assert RunFrom(None, NEW_LOG, [first, Restart, second]).lines == lines;
    StreamRefRoundTrip(1);
    assert Answers(lines[0], StreamSequence(1));
  }

  lemma {:induction false} EventLineIndices(lines: seq<Line>, i: nat)
    requires i < |EventLines(lines)|
    ensures EventLines(lines)[i].EventLine?
    ensures exists j :: 0 <= j < |lines| && lines[j] == EventLines(lines)[i]
  {
    var front := lines[..|lines| - 1];
    if i < |EventLines(front)| {
      EventLineIndices(front, i);
      var j :| 0 <= j < |front| && front[j] == EventLines(front)[i];
      assert lines[j] == EventLines(lines)[i];
    } else {
      assert lines[|lines| - 1] == EventLines(lines)[i];
    }
  }

  lemma {:induction false} EventLinesHold(lines: seq<Line>, j: int)
    requires 0 <= j < |lines| && lines[j].EventLine?
    ensures lines[j] in EventLines(lines)
  {
    if j < |lines| - 1 {
      EventLinesHold(lines[..|lines| - 1], j);
    }
  }

  /** No marker that answers stands before an event line that does. */
  ghost predicate MarkersYield(lines: seq<Line>, key: RefKey) {
    forall i, j :: 0 <= i < j < |lines| && lines[i].Marker? && Answers(lines[i], key) && lines[j].EventLine? ==>
      !Answers(lines[j], key)
  }

  lemma ListedLineAnswersFirst(lines: seq<Line>, key: RefKey, k: nat)
    requires MarkersYield(lines, key) && k < |EventLines(lines)| && Answers(EventLines(lines)[k], key)
    ensures FirstAnswer(lines, key).Some? && FirstAnswer(lines, key).value.EventLine?
  {
    FirstAnswerIsFirst(lines, key);
    EventLineIndices(lines, k);
    var j :| 0 <= j < |lines| && lines[j] == EventLines(lines)[k];
    assert Answers(lines[j], key) && lines[j].EventLine?;
    var i :| 0 <= i < |lines| && lines[i] == FirstAnswer(lines, key).value
             && forall h :: 0 <= h < i ==> !Answers(lines[h], key);
    assert i <= j;
  }

  lemma FirstEventAnswerIsListed(lines: seq<Line>, key: RefKey)
    requires FirstAnswer(lines, key).Some? && FirstAnswer(lines, key).value.EventLine?
    ensures FirstAnswer(lines, key).value in EventLines(lines) && Answers(FirstAnswer(lines, key).value, key)
  {
    FirstAnswerIsFirst(lines, key);
    var i :| 0 <= i < |lines| && lines[i] == FirstAnswer(lines, key).value && Answers(lines[i], key);
    EventLinesHold(lines, i);
  }

  /** In a fresh log without write failures the n-th event can be had back exactly when it was kept. */
  lemma RefResolvesIffKept(cap: Option<nat>, ops: seq<Op>, n: nat)
    requires NoFailures(ops) && Numbered(Calls(ops)) && 1 <= n <= |Calls(ops)|
    ensures var calls := Calls(ops);
            Resolve(RunFrom(cap, NEW_LOG, ops).lines, StreamRef(n))
            == if n <= |Kept(cap, calls)| then Some(calls[n - 1].event) else None
  {
    var calls := Calls(ops);
    var lines := RunFrom(cap, NEW_LOG, ops).lines;
    EventLinesAreKept(cap, ops);
    SizesReadNeverBlind(cap, NEW_LOG, ops);
    RunRespectsCap(cap, NEW_LOG, ops);
    CapPutsMarkersLast(cap, lines);
    ResolvesIffListed(lines, calls, Kept(cap, calls), n);
  }

  lemma KeptLine(calls: seq<Call>, kept: seq<Call>, i: nat)
    requires kept <= calls && Numbered(calls) && i < |kept|
    ensures |LinesOf(kept)| == |kept|
    ensures LinesOf(kept)[i] == LineOf(calls[i]) && calls[i].streamSequence == Some(i + 1)
  {
    assert kept[i] == calls[i];
  }

  lemma ResolvesIffListed(lines: seq<Line>, calls: seq<Call>, kept: seq<Call>, n: nat)
    requires kept <= calls && Numbered(calls) && 1 <= n <= |calls|
    requires MarkersLast(lines) && EventLines(lines) == LinesOf(kept)
    ensures Resolve(lines, StreamRef(n)) == if n <= |kept| then Some(calls[n - 1].event) else None
  {
    forall i | 0 <= i < |kept| ensures EventLines(lines)[i] == LineOf(calls[i]) && calls[i].streamSequence == Some(i + 1) {
      KeptLine(calls, kept, i);
    }
    if n <= |kept| { assert IsListed(lines, n, n - 1); }
    ResolvesToListed(lines, n, calls[n - 1].event);
  }

  /** The i-th line is the first event line with this number of the driver's own. */
  ghost predicate IsFirstOf(lines: seq<Line>, n: nat, i: int) {
    && 0 <= i < |lines| && lines[i].EventLine? && lines[i].event.sequence == Some(n)
    && forall h :: 0 <= h < i && lines[h].EventLine? ==> lines[h].event.sequence != Some(n)
  }

  /** An old reference brings back the first event with that number of the driver's own. */
  lemma LegacyRefResolves(lines: seq<Line>, n: nat, own: DriverStreamEvent)
    ensures Resolve(lines, LegacyRef(n)) == Some(own) <==>
            exists i :: IsFirstOf(lines, n, i) && lines[i].event == own
  {
    LegacyRefRoundTrip(n);
    FirstAnswerIsFirst(lines, Sequence(n));
    if FirstAnswer(lines, Sequence(n)).Some? {
      var i :| 0 <= i < |lines| && lines[i] == FirstAnswer(lines, Sequence(n)).value && Answers(lines[i], Sequence(n))
               && forall h :: 0 <= h < i ==> !Answers(lines[h], Sequence(n));
      assert IsFirstOf(lines, n, i);
      forall k | IsFirstOf(lines, n, k) ensures k == i {
        assert Answers(lines[k], Sequence(n));
      }
    }
  }

  /** The k-th event line of the log has the number n. */
  predicate IsListed(lines: seq<Line>, n: nat, k: int) {
    0 <= k < |EventLines(lines)| && EventLines(lines)[k].streamSequence == Some(n)
  }

  /** In a log whose lines numbered n all hold one event, the reference n brings it back if there is one. */
  lemma ResolvesToListed(lines: seq<Line>, n: nat, own: DriverStreamEvent)
    requires MarkersYield(lines, StreamSequence(n))
    requires forall k :: IsListed(lines, n, k) ==> EventLines(lines)[k].EventLine? && EventLines(lines)[k].event == own
    ensures Resolve(lines, StreamRef(n)) == if exists k :: IsListed(lines, n, k) then Some(own) else None
  {
    var key := StreamSequence(n);
    StreamRefRoundTrip(n);
    if k :| IsListed(lines, n, k) { ListedLineAnswersFirst(lines, key, k); }
    if FirstAnswer(lines, key).Some? && FirstAnswer(lines, key).value.EventLine? {
      FirstEventAnswerIsListed(lines, key);
      var m :| 0 <= m < |EventLines(lines)| && EventLines(lines)[m] == FirstAnswer(lines, key).value;
      assert IsListed(lines, n, m);
    }
  }
}
