/**
 The usage of a task that was driven in several runs, projected from the files of their directories.

 The ledgers of the runs are read one after another in whatever order the directories are listed.
 What that order can change, and when, is proved here.
 */
module UsageRuns {
  import opened Wrappers
  import opened DriverEvents
  import opened DriverUsage
  import opened UsageLedger
  import opened Ordering
  import AuditLog

  // ----- several runs of one task -----

  /** Reading one ledger after another, in whatever order the directories are listed. */
  function ReadLedgers(arrivals: seq<Arrival>, runs: seq<string>, task: string): seq<Observation> {
    if runs == [] then []
    else ReadLedgers(arrivals, runs[..|runs| - 1], task) + ReadLedger(Ledger(arrivals, runs[|runs| - 1]), task)
  }

  ghost predicate Gives(a: Arrival, task: string, o: Observation) {
    a.task_id == task && BlankRecord(ObservationFromEvent(a.event, a.at, true)) == Some(o)
  }

  lemma {:induction false} ObservedElements(arrivals: seq<Arrival>, task: string, o: Observation)
    ensures o in Observed(arrivals, task) <==>
            exists a :: a in arrivals && a.task_id == task && ObservationFromEvent(a.event, a.at, true) == Some(o)
  {
    if arrivals != [] {
      var n := |arrivals| - 1;
      ObservedElements(arrivals[..n], task, o);
      assert arrivals == arrivals[..n] + [arrivals[n]];
    }
  }

  lemma ReadBackBlank(arrivals: seq<Arrival>, run: string, task: string, o: Observation)
    requires arrivals != []
    ensures var n := |arrivals| - 1;
            o in BlankAll(ReadLedger(Ledger(arrivals, run), task)) <==>
            o in BlankAll(ReadLedger(Ledger(arrivals[..n], run), task))
            || (arrivals[n].run_id == run && Gives(arrivals[n], task, o))
  {
    var n := |arrivals| - 1;
    var a := arrivals[n];
    var seen := ObservationFromEvent(a.event, a.at, true);
    var before := ReadLedger(Ledger(arrivals[..n], run), task);
    ReadBackStep(arrivals, run, task);
    if a.run_id == run && a.task_id == task && seen.Some? {
      BlankConcat(before, [OnlyTerminalComplete(seen.value)], o);
      assert BlankAll([OnlyTerminalComplete(seen.value)]) == [Blank(seen.value)];
    } else {
      assert before + [] == before;
    }
  }

  /** A run's ledger, read for a task, holds the observations of that run's arrivals. */
  lemma {:induction false} LedgerElements(arrivals: seq<Arrival>, run: string, task: string, o: Observation)
    ensures o in BlankAll(ReadLedger(Ledger(arrivals, run), task)) <==>
            exists a :: a in arrivals && a.run_id == run && Gives(a, task, o)
  {
    if arrivals != [] {
      var n := |arrivals| - 1;
      var a, front := arrivals[n], arrivals[..n];
      LedgerElements(front, run, task, o);
      assert arrivals == front + [a];
      ReadBackBlank(arrivals, run, task, o);
    }
  }

  ghost predicate GivenIn(arrivals: seq<Arrival>, runs: seq<string>, task: string, o: Observation) {
    exists a :: a in arrivals && a.run_id in runs && Gives(a, task, o)
  }

  lemma GivenInOneMore(arrivals: seq<Arrival>, runs: seq<string>, run: string, task: string, o: Observation)
    ensures GivenIn(arrivals, runs + [run], task, o) <==>
            GivenIn(arrivals, runs, task, o) || exists a :: a in arrivals && a.run_id == run && Gives(a, task, o)
  {
    assert forall r :: r in runs + [run] <==> r in runs || r == run;
  }

  lemma BlankConcat(a: seq<Observation>, b: seq<Observation>, o: Observation)
    ensures o in BlankAll(a + b) <==> o in BlankAll(a) || o in BlankAll(b)
  {
    assert BlankAll(a + b) == BlankAll(a) + BlankAll(b);
  }

  lemma {:induction false} LedgersElements(arrivals: seq<Arrival>, runs: seq<string>, task: string, o: Observation)
    ensures o in BlankAll(ReadLedgers(arrivals, runs, task)) <==> GivenIn(arrivals, runs, task, o)
  {
    if runs != [] {
      var n := |runs| - 1;
      LedgersElements(arrivals, runs[..n], task, o);
      LedgerElements(arrivals, runs[n], task, o);
      assert runs == runs[..n] + [runs[n]];
      GivenInOneMore(arrivals, runs[..n], runs[n], task, o);
      BlankConcat(ReadLedgers(arrivals, runs[..n], task), ReadLedger(Ledger(arrivals, runs[n]), task), o);
    }
  }

  lemma BlankElements(obs: seq<Observation>, o: Observation)
    ensures o in BlankAll(obs) <==> exists p :: p in obs && Blank(p) == o
  {
    var blank := BlankAll(obs);
    if o in blank {
      var i :| 0 <= i < |blank| && blank[i] == o;
      assert obs[i] in obs;
    }
    if p :| p in obs && Blank(p) == o {
      var i :| 0 <= i < |obs| && obs[i] == p;
      assert blank[i] == o;
    }
  }

  lemma LedgersSameElements(arrivals: seq<Arrival>, runs: seq<string>, task: string)
    requires forall a <- arrivals :: a.task_id == task ==> a.run_id in runs
    ensures SameElements(BlankAll(Observed(arrivals, task)), BlankAll(ReadLedgers(arrivals, runs, task)))
  {
    forall o
      ensures o in BlankAll(Observed(arrivals, task)) <==> o in BlankAll(ReadLedgers(arrivals, runs, task))
    {
      BlankElements(Observed(arrivals, task), o);
      LedgersElements(arrivals, runs, task, o);
      forall p ensures p in Observed(arrivals, task) <==>
        exists a :: a in arrivals && a.task_id == task && ObservationFromEvent(a.event, a.at, true) == Some(p)
      {
        ObservedElements(arrivals, task, p);
      }
      if a :| a in arrivals && a.run_id in runs && Gives(a, task, o) {
        var p := ObservationFromEvent(a.event, a.at, true).value;
        assert p in Observed(arrivals, task) && Blank(p) == o;
      }
      if p :| p in Observed(arrivals, task) && Blank(p) == o {
        var a :| a in arrivals && a.task_id == task && ObservationFromEvent(a.event, a.at, true) == Some(p);
        assert Gives(a, task, o);
      }
    }
  }

  ghost predicate CompleteIffCost(obs: seq<Observation>) {
    forall i :: 0 <= i < |obs| ==> (obs[i].complete <==> obs[i].cost.Some?)
  }

  lemma CompleteIffCostConcat(a: seq<Observation>, b: seq<Observation>)
    requires CompleteIffCost(a) && CompleteIffCost(b)
    ensures CompleteIffCost(a + b)
  {
  }

  /** What is read back is complete exactly if it carries a cost. */
  lemma {:induction false} ReadCompleteIffCost(records: seq<UsageRecord>, task: string)
    ensures CompleteIffCost(ReadLedger(records, task))
  {
    if records != [] { ReadCompleteIffCost(records[..|records| - 1], task); }
  }

  lemma {:induction false} ReadAllCompleteIffCost(arrivals: seq<Arrival>, runs: seq<string>, task: string)
    ensures CompleteIffCost(ReadLedgers(arrivals, runs, task))
  {
    if runs != [] {
      var front, last := ReadLedgers(arrivals, runs[..|runs| - 1], task), ReadLedger(Ledger(arrivals, runs[|runs| - 1]), task);
      ReadAllCompleteIffCost(arrivals, runs[..|runs| - 1], task);
      ReadCompleteIffCost(Ledger(arrivals, runs[|runs| - 1]), task);
      CompleteIffCostConcat(front, last);
    }
  }

  lemma SawCostElsewhere(a: seq<Observation>, b: seq<Observation>, x: string)
    requires SameElements(BlankAll(a), BlankAll(b)) && SawCost(a, x)
    ensures SawCost(b, x)
  {
    var i :| Seen(a, x, i) && a[i].cost.Some?;
    assert Seen(BlankAll(a), x, i) && BlankAll(a)[i].cost.Some?;
    var j := SeenElsewhere(BlankAll(a), BlankAll(b), x, i);
    assert Seen(b, x, j) && b[j].cost.Some?;
  }

  lemma CompleteAcrossRuns(obs: seq<Observation>, read: seq<Observation>, x: string)
    requires AllWellFormed(obs) && AllWellFormed(read) && SameElements(BlankAll(obs), BlankAll(read))
    requires forall i :: 0 <= i < |obs| ==> obs[i].complete
    requires CompleteIffCost(read)
    ensures var live, ledgers := FoldAll(map[], obs), FoldAll(map[], read);
            && (x in live ==> live[x].complete)
            && (x in ledgers ==> (ledgers[x].complete <==> SawCost(obs, x)))
  {
    FoldSummarises(obs, x);
    FoldSummarises(read, x);
    if SawCost(obs, x) { SawCostElsewhere(obs, read, x); }
    if SawCost(read, x) { SawCostElsewhere(read, obs, x); }
  }

  lemma {:induction false} ReadWellFormed(arrivals: seq<Arrival>, runs: seq<string>, task: string)
    ensures AllWellFormed(ReadLedgers(arrivals, runs, task))
  {
    if runs != [] {
      ReadWellFormed(arrivals, runs[..|runs| - 1], task);
      LedgerWellFormed(arrivals, runs[|runs| - 1], task);
    }
  }

  lemma {:induction false} LedgerWellFormed(arrivals: seq<Arrival>, run: string, task: string)
    ensures AllWellFormed(ReadLedger(Ledger(arrivals, run), task))
  {
    if arrivals != [] {
      var n := |arrivals| - 1;
      LedgerWellFormed(arrivals[..n], run, task);
      ReadBackStep(arrivals, run, task);
      EventsGiveStamped(arrivals[n].event, arrivals[n].at, true);
    }
  }

  /**
   Over several runs of one task, interleaved in any way and read back in any order of directories,
   the ledgers still give the accumulator's sessions, tokens and windows; and a session they call
   complete exactly if some update of it carried a cost.
   */
  lemma LedgersAgreeAcrossRuns(arrivals: seq<Arrival>, runs: seq<string>, task: string, x: string)
    requires forall a <- arrivals :: a.task_id == task ==> a.run_id in runs
    ensures var obs := Observed(arrivals, task);
            var live := FoldAll(map[], obs);
            var ledgers := FoldAll(map[], ReadLedgers(arrivals, runs, task));
            && (x in live <==> x in ledgers)
            && (x in live ==> live[x].tokens == ledgers[x].tokens && live[x].window == ledgers[x].window)
            && (x in live ==> live[x].complete && (ledgers[x].complete <==> SawCost(obs, x)))
  {
    var obs, read := Observed(arrivals, task), ReadLedgers(arrivals, runs, task);
    ObservedWellFormed(arrivals, task);
    LedgersSameElements(arrivals, runs, task);
    OrderAndRepetitionDoNotMatter(BlankAll(obs), BlankAll(read), x);
    FoldIgnoresComplete(obs, x);
    FoldIgnoresComplete(read, x);
    ReadWellFormed(arrivals, runs, task);
    ReadAllCompleteIffCost(arrivals, runs, task);
    CompleteAcrossRuns(obs, read, x);
  }

  // ----- when the order of the directories matters -----

  /** What the ledger of one run alone says of a session. */
  function RunRecord(arrivals: seq<Arrival>, run: string, task: string, x: string): Option<Observation> {
    Lookup(FoldAll(map[], ReadLedger(Ledger(arrivals, run), task)), x)
  }

  function Listed(o: Option<Observation>): seq<Observation> {
    if o.Some? then [o.value] else []
  }

  /** What each run alone says of it, run by run. */
  function RunRecords(arrivals: seq<Arrival>, runs: seq<string>, task: string, x: string): seq<Observation> {
    if runs == [] then []
    else RunRecords(arrivals, runs[..|runs| - 1], task, x) + Listed(RunRecord(arrivals, runs[|runs| - 1], task, x))
  }

  lemma RunRecordGood(arrivals: seq<Arrival>, run: string, task: string, x: string)
    ensures RunRecord(arrivals, run, task, x).Some? ==>
              WellFormed(RunRecord(arrivals, run, task, x).value) && RunRecord(arrivals, run, task, x).value.session == x
  {
    LedgerWellFormed(arrivals, run, task);
    FoldKeepsGood(map[], ReadLedger(Ledger(arrivals, run), task));
  }

  lemma {:induction false} RunRecordsGood(arrivals: seq<Arrival>, runs: seq<string>, task: string, x: string)
    ensures var records := RunRecords(arrivals, runs, task, x);
            AllWellFormed(records) && forall i :: 0 <= i < |records| ==> records[i].session == x
  {
    if runs != [] {
      RunRecordsGood(arrivals, runs[..|runs| - 1], task, x);
      RunRecordGood(arrivals, runs[|runs| - 1], task, x);
    }
  }

  ghost predicate SomeRunSays(arrivals: seq<Arrival>, runs: seq<string>, task: string, x: string, o: Observation) {
    exists run :: run in runs && RunRecord(arrivals, run, task, x) == Some(o)
  }

  lemma SomeRunSaysStep(arrivals: seq<Arrival>, runs: seq<string>, run: string, task: string, x: string, o: Observation)
    ensures SomeRunSays(arrivals, runs + [run], task, x, o) <==>
            SomeRunSays(arrivals, runs, task, x, o) || RunRecord(arrivals, run, task, x) == Some(o)
  {
    assert forall r :: r in runs + [run] <==> r in runs || r == run;
  }

  lemma ListedElements(front: seq<Observation>, last: Option<Observation>, o: Observation)
    ensures o in front + Listed(last) <==> o in front || last == Some(o)
  {
  }

  lemma {:induction false} RunRecordsElements(arrivals: seq<Arrival>, runs: seq<string>, task: string, x: string, o: Observation)
    ensures o in RunRecords(arrivals, runs, task, x) <==> SomeRunSays(arrivals, runs, task, x, o)
  {
    if runs != [] {
      var n := |runs| - 1;
      RunRecordsElements(arrivals, runs[..n], task, x, o);
      assert runs == runs[..n] + [runs[n]];
      SomeRunSaysStep(arrivals, runs[..n], runs[n], task, x, o);
      ListedElements(RunRecords(arrivals, runs[..n], task, x), RunRecord(arrivals, runs[n], task, x), o);
    }
  }

  lemma FoldListed(front: seq<Observation>, o: Option<Observation>, x: string)
    requires o.Some? ==> o.value.session == x
    ensures Lookup(FoldAll(map[], front + Listed(o)), x) == JoinedRecords(Lookup(FoldAll(map[], front), x), o)
  {
    if o.Some? {
      assert (front + [o.value])[..|front|] == front;
    } else {
      assert front + [] == front;
    }
  }

  /** Folding all ledgers is, for a session, folding what each run alone says of it. */
  lemma {:induction false} RunsFoldRecords(arrivals: seq<Arrival>, runs: seq<string>, task: string, x: string)
    ensures Lookup(FoldAll(map[], ReadLedgers(arrivals, runs, task)), x)
         == Lookup(FoldAll(map[], RunRecords(arrivals, runs, task, x)), x)
  {
    if runs != [] {
      var n := |runs| - 1;
      RunsFoldRecords(arrivals, runs[..n], task, x);
      ReadWellFormed(arrivals, runs[..n], task);
      LedgerWellFormed(arrivals, runs[n], task);
      WholeLookup(ReadLedgers(arrivals, runs[..n], task), ReadLedger(Ledger(arrivals, runs[n]), task), x);
      RunRecordGood(arrivals, runs[n], task, x);
      FoldListed(RunRecords(arrivals, runs[..n], task, x), RunRecord(arrivals, runs[n], task, x), x);
    }
  }

  /** The cost and the role of a session, with the directories of the runs listed in some order. */
  function CostOfRuns(arrivals: seq<Arrival>, runs: seq<string>, task: string, x: string): Option<Cost> {
    FoldedCost(ReadLedgers(arrivals, runs, task), x)
  }

  function RoleOfRuns(arrivals: seq<Arrival>, runs: seq<string>, task: string, x: string): Option<string> {
    FoldedRole(ReadLedgers(arrivals, runs, task), x)
  }

  lemma ReorderedRunsSameRecords(arrivals: seq<Arrival>, runs: seq<string>, order: seq<string>, task: string, x: string)
    requires multiset(order) == multiset(runs)
    ensures SameElements(RunRecords(arrivals, runs, task, x), RunRecords(arrivals, order, task, x))
  {
    assert forall run :: run in runs <==> run in multiset(runs);
    assert forall run :: run in order <==> run in multiset(order);
    forall o ensures o in RunRecords(arrivals, runs, task, x) <==> o in RunRecords(arrivals, order, task, x) {
      RunRecordsElements(arrivals, runs, task, x, o);
      RunRecordsElements(arrivals, order, task, x, o);
    }
  }

  /** Some order of the runs in which a given one is last, and one in which it is first. */
  lemma OrdersWith(runs: seq<string>, run: string) returns (last: seq<string>, first: seq<string>)
    requires run in runs
    ensures multiset(last) == multiset(runs) == multiset(first)
    ensures last != [] && last[|last| - 1] == run && first != [] && first[0] == run
  {
    var i :| 0 <= i < |runs| && runs[i] == run;
    assert runs == runs[..i] + [runs[i]] + runs[i + 1..];
    last := runs[..i] + runs[i + 1..] + [run];
    first := [run] + (runs[..i] + runs[i + 1..]);
  }

  /** A run whose own cost bears the latest time has the last word when it is read last. */
  lemma LatestRunLast(arrivals: seq<Arrival>, runs: seq<string>, task: string, x: string, i: int) returns (order: seq<string>)
    requires AtLatestCost(RunRecords(arrivals, runs, task, x), x, i)
    ensures multiset(order) == multiset(runs)
    ensures CostOfRuns(arrivals, order, task, x) == RunRecords(arrivals, runs, task, x)[i].cost
  {
    var records := RunRecords(arrivals, runs, task, x);
    var o := records[i];
    RunRecordsElements(arrivals, runs, task, x, o);
    var run :| run in runs && RunRecord(arrivals, run, task, x) == Some(o);
    var first;
    order, first := OrdersWith(runs, run);
    var front := RunRecords(arrivals, order[..|order| - 1], task, x);
    ReorderedRunsSameRecords(arrivals, runs, order, task, x);
    assert RunRecords(arrivals, order, task, x) == front + [o];
    RunRecordsGood(arrivals, order, task, x);
    forall h | Seen(front, x, h) && front[h].cost.Some? ensures CostTime(front[h]) <= CostTime(o) {
      assert (front + [o])[h] == front[h];
      var k := SeenElsewhere(front + [o], records, x, h);
    }
    FrontWellFormed(front, o);
    LastCostWins(front, o);
    RunsFoldRecords(arrivals, order, task, x);
  }

  lemma FrontWellFormed(front: seq<Observation>, o: Observation)
    requires AllWellFormed(front + [o])
    ensures AllWellFormed(front)
  {
    forall i | 0 <= i < |front| ensures WellFormed(front[i]) { assert (front + [o])[i] == front[i]; }
  }

  /**
   The cost of a session is the same for every order of the run directories exactly if the runs whose
   own cost bears the latest time all have the same.
   */
  lemma RunOrderFreeForCostIff(arrivals: seq<Arrival>, runs: seq<string>, task: string, x: string)
    ensures LatestCostsAgree(RunRecords(arrivals, runs, task, x), x) <==>
            forall order :: multiset(order) == multiset(runs) ==>
              CostOfRuns(arrivals, order, task, x) == CostOfRuns(arrivals, runs, task, x)
  {
    var records := RunRecords(arrivals, runs, task, x);
    RunRecordsGood(arrivals, runs, task, x);
    if LatestCostsAgree(records, x) {
      forall order | multiset(order) == multiset(runs)
        ensures CostOfRuns(arrivals, order, task, x) == CostOfRuns(arrivals, runs, task, x)
      {
        ReorderedRunsSameRecords(arrivals, runs, order, task, x);
        OrderDoesNotMatterForCost(records, RunRecords(arrivals, order, task, x), x);
        RunsFoldRecords(arrivals, runs, task, x);
        RunsFoldRecords(arrivals, order, task, x);
      }
    } else {
      var i, j :| AtLatestCost(records, x, i) && AtLatestCost(records, x, j) && records[i].cost != records[j].cost;
      var a := LatestRunLast(arrivals, runs, task, x, i);
      var b := LatestRunLast(arrivals, runs, task, x, j);
    }
  }

  lemma {:induction false} RunRecordsAppend(arrivals: seq<Arrival>, a: seq<string>, b: seq<string>, task: string, x: string)
    ensures RunRecords(arrivals, a + b, task, x) == RunRecords(arrivals, a, task, x) + RunRecords(arrivals, b, task, x)
  {
    if b == [] {
      assert a + b == a;
    } else {
      var front := b[..|b| - 1];
      assert (a + b)[..|a + b| - 1] == a + front && (a + b)[|a + b| - 1] == b[|b| - 1];
      RunRecordsAppend(arrivals, a, front, task, x);
    }
  }

  lemma FirstRunFirst(arrivals: seq<Arrival>, order: seq<string>, task: string, x: string, o: Observation)
    requires order != [] && RunRecord(arrivals, order[0], task, x) == Some(o) && o.role.Some? && o.session == x
    ensures RoleOfRuns(arrivals, order, task, x) == o.role
  {
    var first, none: seq<string> := [order[0]], [];
    assert order == first + order[1..] && first[..0] == none;
    RunRecordsAppend(arrivals, first, order[1..], task, x);
    assert RunRecords(arrivals, first, task, x) == [o];
    FirstRoleWins(o, RunRecords(arrivals, order[1..], task, x));
    RunsFoldRecords(arrivals, order, task, x);
  }

  /** A run that gives a role has the first word when it is read first. */
  lemma RoleRunFirst(arrivals: seq<Arrival>, runs: seq<string>, task: string, x: string, i: int) returns (order: seq<string>)
    requires Seen(RunRecords(arrivals, runs, task, x), x, i) && RunRecords(arrivals, runs, task, x)[i].role.Some?
    ensures multiset(order) == multiset(runs)
    ensures RoleOfRuns(arrivals, order, task, x) == RunRecords(arrivals, runs, task, x)[i].role
  {
    var o := RunRecords(arrivals, runs, task, x)[i];
    RunRecordsElements(arrivals, runs, task, x, o);
    var run :| run in runs && RunRecord(arrivals, run, task, x) == Some(o);
    var last;
    last, order := OrdersWith(runs, run);
    FirstRunFirst(arrivals, order, task, x, o);
  }

  /** Its role is the same for every order of them exactly if the runs that give it one all give the same. */
  lemma RunOrderFreeForRoleIff(arrivals: seq<Arrival>, runs: seq<string>, task: string, x: string)
    ensures RolesAgree(RunRecords(arrivals, runs, task, x), x) <==>
            forall order :: multiset(order) == multiset(runs) ==>
              RoleOfRuns(arrivals, order, task, x) == RoleOfRuns(arrivals, runs, task, x)
  {
    var records := RunRecords(arrivals, runs, task, x);
    RunRecordsGood(arrivals, runs, task, x);
    if RolesAgree(records, x) {
      forall order | multiset(order) == multiset(runs)
        ensures RoleOfRuns(arrivals, order, task, x) == RoleOfRuns(arrivals, runs, task, x)
      {
        ReorderedRunsSameRecords(arrivals, runs, order, task, x);
        OrderDoesNotMatterForRole(records, RunRecords(arrivals, order, task, x), x);
        RunsFoldRecords(arrivals, runs, task, x);
        RunsFoldRecords(arrivals, order, task, x);
      }
    } else {
      var i, j :| Seen(records, x, i) && Seen(records, x, j) && records[i].role.Some? && records[j].role.Some?
                  && records[i].role != records[j].role;
      var a := RoleRunFirst(arrivals, runs, task, x, i);
      var b := RoleRunFirst(arrivals, runs, task, x, j);
    }
  }

  // ----- the ledgers of several runs and the accumulator -----

  function LiveRecord(arrivals: seq<Arrival>, task: string, x: string): Option<Observation> {
    Lookup(FoldAll(map[], Observed(arrivals, task)), x)
  }

  function TimeOf(o: Option<Observation>): Timestamp {
    if o.Some? then CostTime(o.value) else 0
  }

  /** What is known of a session after one more observation of it. */
  function With(known: Option<Observation>, o: Observation): Observation {
    if known.Some? then Absorb(known.value, o) else o
  }

  lemma FoldOneMore(front: seq<Observation>, o: Observation, x: string)
    ensures Lookup(FoldAll(map[], front + [o]), x) ==
            if o.session == x then Some(With(Lookup(FoldAll(map[], front), x), o)) else Lookup(FoldAll(map[], front), x)
  {
    assert (front + [o])[..|front|] == front;
  }

  /** The observation an arrival gives of a session of the task. */
  function Given(a: Arrival, task: string, x: string): Option<Observation> {
    var o := ObservationFromEvent(a.event, a.at, true);
    if a.task_id == task && o.Some? && o.value.session == x then o else None
  }

  lemma LiveStep(arrivals: seq<Arrival>, task: string, x: string)
    requires arrivals != []
    ensures var n := |arrivals| - 1; var o := Given(arrivals[n], task, x);
            var before := LiveRecord(arrivals[..n], task, x);
            LiveRecord(arrivals, task, x) == if o.Some? then Some(With(before, o.value)) else before
  {
    var n := |arrivals| - 1;
    var o, front := ObservationFromEvent(arrivals[n].event, arrivals[n].at, true), Observed(arrivals[..n], task);
    if arrivals[n].task_id == task && o.Some? {
      FoldOneMore(front, o.value, x);
    } else {
      assert front + [] == front;
    }
  }

  lemma RunStep(arrivals: seq<Arrival>, run: string, task: string, x: string)
    requires arrivals != []
    ensures var n := |arrivals| - 1; var o := Given(arrivals[n], task, x);
            var before := RunRecord(arrivals[..n], run, task, x);
            RunRecord(arrivals, run, task, x) ==
            if o.Some? && arrivals[n].run_id == run then Some(With(before, OnlyTerminalComplete(o.value))) else before
  {
    var n := |arrivals| - 1;
    var o := ObservationFromEvent(arrivals[n].event, arrivals[n].at, true);
    var front := ReadLedger(Ledger(arrivals[..n], run), task);
    ReadBackStep(arrivals, run, task);
    if arrivals[n].run_id == run && arrivals[n].task_id == task && o.Some? {
      FoldOneMore(front, OnlyTerminalComplete(o.value), x);
    } else {
      assert front + [] == front;
    }
  }

  ghost predicate SameCost(a: Option<Observation>, b: Option<Observation>) {
    CostOf(a) == CostOf(b) && TimeOf(a) == TimeOf(b)
  }

  ghost predicate NoLaterCost(a: Option<Observation>, b: Option<Observation>) {
    CostOf(a).Some? ==> CostOf(b).Some? && TimeOf(a) <= TimeOf(b)
  }

  ghost predicate IsGood(o: Option<Observation>) {
    o.Some? ==> WellFormed(o.value)
  }

  /** An observation that sets the cost of the whole sets that of its run, and one that does not sets neither's latest. */
  lemma CostStep(live: Option<Observation>, mine: Option<Observation>, o: Observation)
    requires IsGood(live) && IsGood(mine) && WellFormed(o) && NoLaterCost(mine, live)
    ensures var l, m := Some(With(live, o)), Some(With(mine, OnlyTerminalComplete(o)));
            && NoLaterCost(m, l) && NoLaterCost(live, l)
            && (SameCost(m, l) || (SameCost(l, live) && !SameCost(mine, live)) || (CostOf(l).None? && CostOf(live).None?))
  {
  }

  ghost predicate CostIsSomeRuns(arrivals: seq<Arrival>, runs: seq<string>, task: string, x: string) {
    var live := LiveRecord(arrivals, task, x);
    && (forall run :: NoLaterCost(RunRecord(arrivals, run, task, x), live))
    && (CostOf(live).Some? ==> exists run :: run in runs && SameCost(RunRecord(arrivals, run, task, x), live))
  }

  /** The accumulator's cost is that of one of the runs, and no run has a later one. */
  lemma {:induction false} LiveCostIsSomeRuns(arrivals: seq<Arrival>, runs: seq<string>, task: string, x: string)
    requires forall a <- arrivals :: a.task_id == task ==> a.run_id in runs
    ensures CostIsSomeRuns(arrivals, runs, task, x)
  {
    if arrivals != [] {
      var n := |arrivals| - 1;
      LiveCostIsSomeRuns(arrivals[..n], runs, task, x);
      CostIsSomeRunsStep(arrivals, runs, task, x);
    }
  }

  lemma LiveGood(arrivals: seq<Arrival>, task: string, x: string)
    ensures IsGood(LiveRecord(arrivals, task, x))
  {
    ObservedWellFormed(arrivals, task);
    FoldKeepsGood(map[], Observed(arrivals, task));
  }

  lemma NoLaterStep(arrivals: seq<Arrival>, run: string, task: string, x: string)
    requires arrivals != []
    requires var front := arrivals[..|arrivals| - 1]; NoLaterCost(RunRecord(front, run, task, x), LiveRecord(front, task, x))
    ensures NoLaterCost(RunRecord(arrivals, run, task, x), LiveRecord(arrivals, task, x))
  {
    var n := |arrivals| - 1;
    var front, o := arrivals[..n], Given(arrivals[n], task, x);
    LiveStep(arrivals, task, x);
    RunStep(arrivals, run, task, x);
    if o.Some? {
      EventsGiveStamped(arrivals[n].event, arrivals[n].at, true);
      LiveGood(front, task, x);
      RunRecordGood(front, run, task, x);
      CostStep(LiveRecord(front, task, x), RunRecord(front, run, task, x), o.value);
    }
  }

  /** Where the latest cost was some run's, the run it is after one more arrival. */
  lemma SameCostStep(arrivals: seq<Arrival>, run: string, task: string, x: string) returns (now: string)
    requires arrivals != [] && CostOf(LiveRecord(arrivals, task, x)).Some?
    requires var front := arrivals[..|arrivals| - 1];
             && NoLaterCost(RunRecord(front, arrivals[|arrivals| - 1].run_id, task, x), LiveRecord(front, task, x))
             && (CostOf(LiveRecord(front, task, x)).Some? ==> SameCost(RunRecord(front, run, task, x), LiveRecord(front, task, x)))
    ensures SameCost(RunRecord(arrivals, now, task, x), LiveRecord(arrivals, task, x))
    ensures now == run || (now == arrivals[|arrivals| - 1].run_id && arrivals[|arrivals| - 1].task_id == task)
  {
    var n := |arrivals| - 1;
    var front, o, mine := arrivals[..n], Given(arrivals[n], task, x), arrivals[n].run_id;
    LiveStep(arrivals, task, x);
    RunStep(arrivals, run, task, x);
    RunStep(arrivals, mine, task, x);
    now := run;
    if o.Some? {
      EventsGiveStamped(arrivals[n].event, arrivals[n].at, true);
      LiveGood(front, task, x);
      RunRecordGood(front, mine, task, x);
      CostStep(LiveRecord(front, task, x), RunRecord(front, mine, task, x), o.value);
      if SameCost(RunRecord(arrivals, mine, task, x), LiveRecord(arrivals, task, x)) { now := mine; }
    }
  }

  lemma CostIsSomeRunsStep(arrivals: seq<Arrival>, runs: seq<string>, task: string, x: string)
    requires arrivals != [] && CostIsSomeRuns(arrivals[..|arrivals| - 1], runs, task, x)
    requires arrivals[|arrivals| - 1].task_id == task ==> arrivals[|arrivals| - 1].run_id in runs
    ensures CostIsSomeRuns(arrivals, runs, task, x)
  {
    var front := arrivals[..|arrivals| - 1];
    var live := LiveRecord(front, task, x);
    forall run ensures NoLaterCost(RunRecord(arrivals, run, task, x), LiveRecord(arrivals, task, x)) {
      NoLaterStep(arrivals, run, task, x);
    }
    if CostOf(LiveRecord(arrivals, task, x)).Some? {
      if CostOf(live).Some? {
        var run :| run in runs && SameCost(RunRecord(front, run, task, x), live);
        var now := SameCostStep(arrivals, run, task, x);
      } else {
        var mine := arrivals[|arrivals| - 1].run_id;
        LiveStep(arrivals, task, x);
        var now := SameCostStep(arrivals, mine, task, x);
      }
    }
  }

  ghost predicate RoleIsSomeRuns(arrivals: seq<Arrival>, runs: seq<string>, task: string, x: string) {
    var live := LiveRecord(arrivals, task, x);
    && (forall run :: RoleOf(RunRecord(arrivals, run, task, x)).Some? ==> RoleOf(live).Some?)
    && (RoleOf(live).Some? ==> exists run :: run in runs && RoleOf(RunRecord(arrivals, run, task, x)) == RoleOf(live))
  }

  /** How roles change when a session's record, and that of the run it came from, take one more observation. */
  ghost predicate RolesStep(live: Option<string>, l: Option<string>, mine: Option<string>, m: Option<string>) {
    && (live.Some? ==> l == live)
    && (mine.Some? ==> m == mine)
    && (mine.None? && m.Some? ==> l.Some?)
  }

  lemma WithRole(live: Option<Observation>, mine: Option<Observation>, o: Observation)
    ensures RolesStep(RoleOf(live), RoleOf(Some(With(live, o))), RoleOf(mine), RoleOf(Some(With(mine, OnlyTerminalComplete(o)))))
    ensures RolesStep(RoleOf(live), RoleOf(Some(With(live, o))), RoleOf(mine), RoleOf(mine))
    ensures RoleOf(live).None? && RoleOf(mine).None? ==>
              RoleOf(Some(With(mine, OnlyTerminalComplete(o)))) == RoleOf(Some(With(live, o)))
  {
  }

  lemma RoleStep(arrivals: seq<Arrival>, run: string, task: string, x: string)
    requires arrivals != []
    ensures var n := |arrivals| - 1;
            var front, o := arrivals[..n], Given(arrivals[n], task, x);
            var live, l := LiveRecord(front, task, x), LiveRecord(arrivals, task, x);
            var mine, m := RunRecord(front, run, task, x), RunRecord(arrivals, run, task, x);
            && RolesStep(RoleOf(live), RoleOf(l), RoleOf(mine), RoleOf(m))
            && (RoleOf(live).None? && RoleOf(l).Some? ==> arrivals[n].task_id == task)
            && (RoleOf(live).None? && RoleOf(mine).None? && run == arrivals[n].run_id ==> RoleOf(m) == RoleOf(l))
  {
    var n := |arrivals| - 1;
    var front, o := arrivals[..n], Given(arrivals[n], task, x);
    LiveStep(arrivals, task, x);
    RunStep(arrivals, run, task, x);
    if o.Some? { WithRole(LiveRecord(front, task, x), RunRecord(front, run, task, x), o.value); }
  }

  /** The accumulator's role is that of one of the runs, and it has one if any run has. */
  lemma {:induction false} LiveRoleIsSomeRuns(arrivals: seq<Arrival>, runs: seq<string>, task: string, x: string)
    requires forall a <- arrivals :: a.task_id == task ==> a.run_id in runs
    ensures RoleIsSomeRuns(arrivals, runs, task, x)
  {
    if arrivals != [] {
      var n := |arrivals| - 1;
      var front, mine := arrivals[..n], arrivals[n].run_id;
      LiveRoleIsSomeRuns(front, runs, task, x);
      assert arrivals[n] in arrivals;
      var live, l := LiveRecord(front, task, x), LiveRecord(arrivals, task, x);
      forall run ensures RoleOf(RunRecord(arrivals, run, task, x)).Some? ==> RoleOf(l).Some? {
        RoleStep(arrivals, run, task, x);
      }
      if RoleOf(live).Some? {
        var run :| run in runs && RoleOf(RunRecord(front, run, task, x)) == RoleOf(live);
        RoleStep(arrivals, run, task, x);
      } else {
        RoleStep(arrivals, mine, task, x);
        assert RoleOf(RunRecord(front, mine, task, x)).None?;
      }
    }
  }

  /** A cost at the latest time of all runs' own: any folding of theirs that agrees ends with it. */
  lemma AgreedCost(records: seq<Observation>, x: string, live: Option<Observation>, i: int)
    requires AllWellFormed(records) && LatestCostsAgree(records, x)
    requires forall h :: Seen(records, x, h) ==> NoLaterCost(Some(records[h]), live)
    requires CostOf(live).Some? ==> Seen(records, x, i) && SameCost(Some(records[i]), live)
    ensures FoldedCost(records, x) == CostOf(live)
  {
    FoldSummarises(records, x);
    if CostOf(live).Some? { assert AtLatestCost(records, x, i); }
    if FoldedCost(records, x).Some? {
      var r := FoldAll(map[], records)[x];
      var j := LatestCostIsOne(records, x, r.cost, CostTime(r));
    }
  }

  lemma RunsCostIsLive(arrivals: seq<Arrival>, runs: seq<string>, task: string, x: string)
    requires forall a <- arrivals :: a.task_id == task ==> a.run_id in runs
    requires LatestCostsAgree(RunRecords(arrivals, runs, task, x), x)
    ensures CostOfRuns(arrivals, runs, task, x) == CostOf(LiveRecord(arrivals, task, x))
  {
    var records, live := RunRecords(arrivals, runs, task, x), LiveRecord(arrivals, task, x);
    LiveCostIsSomeRuns(arrivals, runs, task, x);
    RunRecordsGood(arrivals, runs, task, x);
    forall h | Seen(records, x, h) ensures NoLaterCost(Some(records[h]), live) {
      RunRecordsElements(arrivals, runs, task, x, records[h]);
      assert records[h] in records;
      var run :| run in runs && RunRecord(arrivals, run, task, x) == Some(records[h]);
    }
    var i := 0;
    if CostOf(live).Some? {
      var run :| run in runs && SameCost(RunRecord(arrivals, run, task, x), live);
      var o := RunRecord(arrivals, run, task, x).value;
      RunRecordsElements(arrivals, runs, task, x, o);
      i :| 0 <= i < |records| && records[i] == o;
    }
    AgreedCost(records, x, live, i);
    RunsFoldRecords(arrivals, runs, task, x);
  }

  lemma RecordOf(arrivals: seq<Arrival>, runs: seq<string>, task: string, x: string, j: int) returns (run: string)
    requires 0 <= j < |RunRecords(arrivals, runs, task, x)|
    ensures run in runs && RunRecord(arrivals, run, task, x) == Some(RunRecords(arrivals, runs, task, x)[j])
  {
    var o := RunRecords(arrivals, runs, task, x)[j];
    assert o in RunRecords(arrivals, runs, task, x);
    RunRecordsElements(arrivals, runs, task, x, o);
    run :| run in runs && RunRecord(arrivals, run, task, x) == Some(o);
  }

  lemma PlaceOf(arrivals: seq<Arrival>, runs: seq<string>, task: string, x: string, run: string) returns (i: int)
    requires run in runs && RunRecord(arrivals, run, task, x).Some?
    ensures Seen(RunRecords(arrivals, runs, task, x), x, i)
    ensures Some(RunRecords(arrivals, runs, task, x)[i]) == RunRecord(arrivals, run, task, x)
  {
    var records, o := RunRecords(arrivals, runs, task, x), RunRecord(arrivals, run, task, x).value;
    RunRecordGood(arrivals, run, task, x);
    RunRecordsElements(arrivals, runs, task, x, o);
    i :| 0 <= i < |records| && records[i] == o;
  }

  lemma RunsRoleIsLive(arrivals: seq<Arrival>, runs: seq<string>, task: string, x: string)
    requires forall a <- arrivals :: a.task_id == task ==> a.run_id in runs
    requires RolesAgree(RunRecords(arrivals, runs, task, x), x)
    ensures RoleOfRuns(arrivals, runs, task, x) == RoleOf(LiveRecord(arrivals, task, x))
  {
    var records, live := RunRecords(arrivals, runs, task, x), LiveRecord(arrivals, task, x);
    LiveRoleIsSomeRuns(arrivals, runs, task, x);
    RunRecordsGood(arrivals, runs, task, x);
    RunsFoldRecords(arrivals, runs, task, x);
    var j := FirstRoleIsOne(records, x);
    if FoldedRole(records, x).Some? { var run := RecordOf(arrivals, runs, task, x, j); }
    if RoleOf(live).Some? {
      var run :| run in runs && RoleOf(RunRecord(arrivals, run, task, x)) == RoleOf(live);
      var i := PlaceOf(arrivals, runs, task, x, run);
    }
  }

  /** In every order of the run directories the ledgers give the accumulator's cost exactly if the latest runs' own costs agree. */
  lemma LedgersAgreeOnCostIff(arrivals: seq<Arrival>, runs: seq<string>, task: string, x: string)
    requires forall a <- arrivals :: a.task_id == task ==> a.run_id in runs
    ensures LatestCostsAgree(RunRecords(arrivals, runs, task, x), x) <==>
            forall order :: multiset(order) == multiset(runs) ==>
              CostOfRuns(arrivals, order, task, x) == CostOf(LiveRecord(arrivals, task, x))
  {
    RunOrderFreeForCostIff(arrivals, runs, task, x);
    if LatestCostsAgree(RunRecords(arrivals, runs, task, x), x) { RunsCostIsLive(arrivals, runs, task, x); }
  }

  /** And its role exactly if the runs that give the session a role all give the same. */
  lemma LedgersAgreeOnRoleIff(arrivals: seq<Arrival>, runs: seq<string>, task: string, x: string)
    requires forall a <- arrivals :: a.task_id == task ==> a.run_id in runs
    ensures RolesAgree(RunRecords(arrivals, runs, task, x), x) <==>
            forall order :: multiset(order) == multiset(runs) ==>
              RoleOfRuns(arrivals, order, task, x) == RoleOf(LiveRecord(arrivals, task, x))
  {
    RunOrderFreeForRoleIff(arrivals, runs, task, x);
    if RolesAgree(RunRecords(arrivals, runs, task, x), x) { RunsRoleIsLive(arrivals, runs, task, x); }
  }

  // ----- two runs whose order matters -----

  /** A usage update of one session, by a role, at time 10. */
  function UpdateAt10(run: string, role: string, amount: real): Arrival {
    Arrival(run, "task", DriverStreamEvent("usage_update", Some(JObj(map["update" := JObj(map[
      "used" := JNum(1.0), "cost" := CostJson(Cost(amount, "USD"))])])), None, None, Some(role), Some("session"), None, None),
      10, Fate(AuditLog.Written, true, Stores))
  }

  function ObservedAt10(role: string, amount: real): Observation {
    Observation("session", Some(role), 1.0, None, Some(Cost(amount, "USD")), Some(10), true)
  }

  lemma UpdateObserved(run: string, role: string, amount: real)
    requires role != "" && amount >= 0.0
    ensures var a := UpdateAt10(run, role, amount);
            ObservationFromEvent(a.event, a.at, true) == Some(ObservedAt10(role, amount))
  {
    var update := map["used" := JNum(1.0), "cost" := CostJson(Cost(amount, "USD"))];
    var payload := map["update" := JObj(update)];
    assert AsRecord(Some(JObj(payload))) == Some(payload) && Get(Some(payload), "update") == Some(JObj(update));
    assert Get(Some(update), "used") == Some(JNum(1.0));
    assert Get(Some(update), "cost") == Some(CostJson(Cost(amount, "USD")));
    assert Get(Some(update), "size") == None;
    var cost := map["amount" := JNum(amount), "currency" := JStr("USD")];
    assert Get(Some(cost), "amount") == Some(JNum(amount)) && Get(Some(cost), "currency") == Some(JStr("USD"));
  }

  /** Two runs whose updates tie in time: the ledgers give another cost and another role in each order of directories. */
  lemma CostAndRoleDependOnOrder()
    ensures var arrivals := [UpdateAt10("r", "p", 1.0), UpdateAt10("s", "q", 2.0)];
            && CostOfRuns(arrivals, ["r", "s"], "task", "session") == Some(Cost(2.0, "USD"))
            && CostOfRuns(arrivals, ["s", "r"], "task", "session") == Some(Cost(1.0, "USD"))
            && RoleOfRuns(arrivals, ["r", "s"], "task", "session") == Some("p")
            && RoleOfRuns(arrivals, ["s", "r"], "task", "session") == Some("q")
  {
    var a, b := UpdateAt10("r", "p", 1.0), UpdateAt10("s", "q", 2.0);
    var o, p := ObservedAt10("p", 1.0), ObservedAt10("q", 2.0);
    UpdateObserved("r", "p", 1.0);
    UpdateObserved("s", "q", 2.0);
    assert a.run_id != b.run_id by { assert "r"[0] != "s"[0]; }
    TwoRunsRecords(a, b, "task", "session", o, p);
    TwoRunsFold([a, b], "r", "s", o, p);
    TwoRunsFold([a, b], "s", "r", p, o);
  }

  /** Two arrivals in two runs are all that each run's ledger says. */
  lemma TwoRunsRecords(a: Arrival, b: Arrival, task: string, x: string, o: Observation, p: Observation)
    requires a.run_id != b.run_id && Given(a, task, x) == Some(o) && Given(b, task, x) == Some(p)
    requires OnlyTerminalComplete(o) == o && OnlyTerminalComplete(p) == p
    ensures RunRecord([a, b], a.run_id, task, x) == Some(o) && RunRecord([a, b], b.run_id, task, x) == Some(p)
  {
    var none: seq<Arrival> := [];
    var one, both := [a], [a, b];
    assert both[..1] == one && one[..0] == none;
    assert RunRecord(none, a.run_id, task, x) == None && RunRecord(none, b.run_id, task, x) == None;
    RunStep(one, a.run_id, task, x);
    RunStep(one, b.run_id, task, x);
    RunStep(both, a.run_id, task, x);
    RunStep(both, b.run_id, task, x);
  }

  lemma TwoRunsFold(arrivals: seq<Arrival>, r: string, s: string, o: Observation, p: Observation)
    requires RunRecord(arrivals, r, "task", "session") == Some(o) && RunRecord(arrivals, s, "task", "session") == Some(p)
    requires o.session == "session" && o.role.Some? && p.cost.Some? && CostTime(o) == CostTime(p) && p.session == o.session
    ensures CostOfRuns(arrivals, [r, s], "task", "session") == p.cost
    ensures RoleOfRuns(arrivals, [r, s], "task", "session") == o.role
  {
    var none: seq<string> := [];
    assert [r, s][..1] == [r] && [r][..0] == none;
    assert RunRecords(arrivals, [r], "task", "session") == [o];
    assert RunRecords(arrivals, [r, s], "task", "session") == [o, p];
    RunsFoldRecords(arrivals, [r, s], "task", "session");
    FoldOne(o);
    FoldOneMore([o], p, "session");
    assert [o] + [p] == [o, p];
  }

  // ----- reading the ledgers -----

  method ReadUsageLedgerObservations(records: seq<UsageRecord>, task: string) returns (observations: seq<Observation>)
    ensures observations == ReadLedger(records, task)
  {
    observations := [];
    for i := 0 to |records|
      invariant observations == ReadLedger(records[..i], task)
    {
      assert records[..i + 1] == records[..i] + [records[i]];
      ReadLedgerStep(records[..i], records[i], task);
      if records[i].task_id == task {
        var observation := ObservationFromRecord(records[i]);
        if observation.Some? { observations := observations + [observation.value]; }
      }
    }
    assert records[..|records|] == records;
  }

  /** A line of a run's capped log, as it is read for usage: an event, or the marker that later ones are missing. */
  datatype StreamLine =
    | EventRecord(task_id: string, event: DriverStreamEvent, recorded_at: Timestamp)
    | TruncationMark

  /** The files of one run directory; a missing file has no lines. */
  datatype RunFiles = RunFiles(ledger: seq<UsageRecord>, stream: seq<StreamLine>)

  /** The observations of the task's events in a capped log. */
  function StreamObservations(stream: seq<StreamLine>, task: string, complete: bool): seq<Observation> {
    if stream == [] then []
    else
      var last := stream[|stream| - 1];
      var front := StreamObservations(stream[..|stream| - 1], task, complete);
      if last.TruncationMark? || last.task_id != task then front
      else front + Listed(ObservationFromEvent(last.event, last.recorded_at, complete))
  }

  /** The log was never cut short. */
  predicate IsWhole(stream: seq<StreamLine>) {
    TruncationMark !in stream
  }

  /** The ledger where it has something of the task, else the capped log, complete only if it was never cut short. */
  function RunObservations(files: RunFiles, task: string): seq<Observation> {
    var ledger := ReadLedger(files.ledger, task);
    if ledger != [] then ledger else StreamObservations(files.stream, task, IsWhole(files.stream))
  }

  /** All run directories, read one after another. */
  function ReadAll(runs: seq<RunFiles>, task: string): seq<Observation> {
    if runs == [] then []
    else ReadAll(runs[..|runs| - 1], task) + RunObservations(runs[|runs| - 1], task)
  }

  lemma StreamStep(stream: seq<StreamLine>, line: StreamLine, task: string, complete: bool)
    ensures StreamObservations(stream + [line], task, complete) == StreamObservations(stream, task, complete) +
            if line.TruncationMark? || line.task_id != task then []
            else Listed(ObservationFromEvent(line.event, line.recorded_at, complete))
  {
    assert (stream + [line])[..|stream|] == stream;
    assert StreamObservations(stream, task, complete) + [] == StreamObservations(stream, task, complete);
  }

  method ReadCappedStreamObservations(stream: seq<StreamLine>, task: string) returns (observations: seq<Observation>)
    ensures observations == StreamObservations(stream, task, IsWhole(stream))
  {
    var whole := IsWhole(stream);
    observations := [];
    for i := 0 to |stream|
      invariant observations == StreamObservations(stream[..i], task, whole)
    {
      assert stream[..i + 1] == stream[..i] + [stream[i]];
      StreamStep(stream[..i], stream[i], task, whole);
      if !stream[i].TruncationMark? && stream[i].task_id == task {
        var observation := ObservationFromEvent(stream[i].event, stream[i].recorded_at, whole);
        if observation.Some? { observations := observations + [observation.value]; }
      }
    }
    assert stream[..|stream|] == stream;
  }

  /** `projectTaskDriverUsage`: every run's ledger, or its capped log instead, folded into one table. */
  method ProjectTaskDriverUsage(runs: seq<RunFiles>, task: string) returns (usage: TaskUsage)
    ensures usage == Aggregate(FoldAll(map[], ReadAll(runs, task)))
  {
    var sessions: Sessions := map[];
    for i := 0 to |runs|
      invariant sessions == FoldAll(map[], ReadAll(runs[..i], task))
    {
      assert runs[..i + 1][..i] == runs[..i];
      var observations := ReadUsageLedgerObservations(runs[i].ledger, task);
      if |observations| == 0 { observations := ReadCappedStreamObservations(runs[i].stream, task); }
      FoldAppend(map[], ReadAll(runs[..i], task), observations);
      sessions := FoldMore(sessions, observations);
    }
    assert runs[..|runs|] == runs;
    usage := FinalizeUsageSessions(sessions);
  }

  method FoldMore(start: Sessions, observations: seq<Observation>) returns (sessions: Sessions)
    ensures sessions == FoldAll(start, observations)
  {
    sessions := start;
    for i := 0 to |observations|
      invariant sessions == FoldAll(start, observations[..i])
    {
      assert observations[..i + 1][..i] == observations[..i];
      sessions := Fold(sessions, observations[i]);
    }
    assert observations[..|observations|] == observations;
  }

  // ----- the capped log instead of a ledger -----

  /** Every event in the log is one of the run's arrivals. */
  ghost predicate LogsArrivals(stream: seq<StreamLine>, arrivals: seq<Arrival>, run: string) {
    forall line <- stream :: line.EventRecord? ==>
      exists a :: a in arrivals && a.run_id == run && a.task_id == line.task_id && a.event == line.event
  }

  /** Where a complete ledger has nothing of the task, neither has the log: it is never read in its place in vain. */
  lemma LoggedIsInLedger(arrivals: seq<Arrival>, run: string, task: string, a: Arrival)
    requires a in arrivals && a.run_id == run && a.task_id == task && ObservationFromEvent(a.event, a.at, true).Some?
    ensures ReadLedger(Ledger(arrivals, run), task) != []
  {
    var o := Blank(ObservationFromEvent(a.event, a.at, true).value);
    assert Gives(a, task, o);
    LedgerElements(arrivals, run, task, o);
  }

  lemma {:induction false} EmptyLedgerEmptyLog(arrivals: seq<Arrival>, run: string, task: string, stream: seq<StreamLine>,
      complete: bool)
    requires LogsArrivals(stream, arrivals, run) && ReadLedger(Ledger(arrivals, run), task) == []
    ensures StreamObservations(stream, task, complete) == []
  {
    if stream != [] {
      var n := |stream| - 1;
      var last := stream[n];
      assert forall line <- stream[..n] :: line in stream;
      EmptyLedgerEmptyLog(arrivals, run, task, stream[..n], complete);
      assert last in stream;
      if last.EventRecord? && last.task_id == task {
        var a :| a in arrivals && a.run_id == run && a.task_id == last.task_id && a.event == last.event;
        if ObservationFromEvent(a.event, a.at, true).Some? { LoggedIsInLedger(arrivals, run, task, a); }
        assert ObservationFromEvent(last.event, last.recorded_at, complete).None?;
      }
    }
  }

  /** So over runs with complete ledgers the projection reads the ledgers alone. */
  lemma {:induction false} CompleteLedgersDecide(arrivals: seq<Arrival>, runs: seq<string>, files: seq<RunFiles>, task: string)
    requires |files| == |runs|
    requires forall i :: 0 <= i < |runs| ==>
               files[i].ledger == Ledger(arrivals, runs[i]) && LogsArrivals(files[i].stream, arrivals, runs[i])
    ensures ReadAll(files, task) == ReadLedgers(arrivals, runs, task)
  {
    if runs != [] {
      var n := |runs| - 1;
      CompleteLedgersDecide(arrivals, runs[..n], files[..n], task);
      var complete := IsWhole(files[n].stream);
      if ReadLedger(files[n].ledger, task) == [] {
        EmptyLedgerEmptyLog(arrivals, runs[n], task, files[n].stream, complete);
      }
    }
  }

  lemma {:induction false} StreamCompleteness(stream: seq<StreamLine>, task: string, complete: bool)
    ensures forall i :: 0 <= i < |StreamObservations(stream, task, complete)| ==>
              StreamObservations(stream, task, complete)[i].complete == complete
  {
    if stream != [] { StreamCompleteness(stream[..|stream| - 1], task, complete); }
  }

  /** What makes a run's files vouch for a session: a cost in the ledger, or an update in a log that replaces it and is whole. */
  ghost predicate Vouches(files: RunFiles, task: string, x: string) {
    var ledger := ReadLedger(files.ledger, task);
    if ledger != [] then SawCost(ledger, x)
    else
      && (forall i :: 0 <= i < |files.stream| ==> files.stream[i].EventRecord?)
      && Mentioned(StreamObservations(files.stream, task, true), x)
  }

  lemma WholeIff(stream: seq<StreamLine>)
    ensures IsWhole(stream) <==> forall i :: 0 <= i < |stream| ==> stream[i].EventRecord?
  {
    if IsWhole(stream) {
      forall i | 0 <= i < |stream| ensures stream[i].EventRecord? { assert stream[i] in stream; }
    }
  }

  lemma VouchesIffComplete(files: RunFiles, task: string, x: string)
    ensures Vouches(files, task, x) <==> AnyComplete(RunObservations(files, task), x)
  {
    var obs := RunObservations(files, task);
    ReadCompleteIffCost(files.ledger, task);
    StreamCompleteness(files.stream, task, IsWhole(files.stream));
    WholeIff(files.stream);
    if Vouches(files, task, x) {
      if i :| Seen(obs, x, i) && (obs[i].cost.Some? || ReadLedger(files.ledger, task) == []) {
        assert obs[i].complete;
      }
    }
  }

  lemma {:induction false} FoldedComplete(obs: seq<Observation>, x: string)
    ensures x in FoldAll(map[], obs) <==> Mentioned(obs, x)
    ensures x in FoldAll(map[], obs) ==> (FoldAll(map[], obs)[x].complete <==> AnyComplete(obs, x))
  {
    if obs != [] {
      var n := |obs| - 1;
      FoldedComplete(obs[..n], x);
      AnyOneMore(obs[..n], obs[n], x);
      assert obs == obs[..n] + [obs[n]];
    }
  }

  lemma AnyOneMore(front: seq<Observation>, o: Observation, x: string)
    ensures Mentioned(front + [o], x) <==> Mentioned(front, x) || o.session == x
    ensures AnyComplete(front + [o], x) <==> AnyComplete(front, x) || (o.session == x && o.complete)
  {
    AnyConcat(front, [o], x);
    if o.session == x { assert Seen([o], x, 0); }
  }

  lemma AnyConcat(a: seq<Observation>, b: seq<Observation>, x: string)
    ensures Mentioned(a + b, x) <==> Mentioned(a, x) || Mentioned(b, x)
    ensures AnyComplete(a + b, x) <==> AnyComplete(a, x) || AnyComplete(b, x)
  {
    var all := a + b;
    forall i | Seen(a, x, i) ensures Seen(all, x, i) && all[i] == a[i] {}
    forall i | Seen(b, x, i) ensures Seen(all, x, |a| + i) && all[|a| + i] == b[i] {}
    forall i | Seen(all, x, i) ensures if i < |a| then Seen(a, x, i) && a[i] == all[i]
                                       else Seen(b, x, i - |a|) && b[i - |a|] == all[i] {}
  }

  ghost predicate SomeRunVouches(runs: seq<RunFiles>, task: string, x: string) {
    exists k :: 0 <= k < |runs| && Vouches(runs[k], task, x)
  }

  lemma {:induction false} AnyRunComplete(runs: seq<RunFiles>, task: string, x: string)
    ensures AnyComplete(ReadAll(runs, task), x) <==> SomeRunVouches(runs, task, x)
  {
    if runs != [] {
      var n := |runs| - 1;
      var front := runs[..n];
      AnyRunComplete(front, task, x);
      VouchesIffComplete(runs[n], task, x);
      AnyConcat(ReadAll(front, task), RunObservations(runs[n], task), x);
      if k :| 0 <= k < n && Vouches(front[k], task, x) { assert Vouches(runs[k], task, x); }
      if k :| 0 <= k <= n && Vouches(runs[k], task, x) { assert k < n ==> Vouches(front[k], task, x); }
    }
  }

  /**
   The projection calls a session complete exactly if some run vouches for it: its ledger has a cost of
   the session, or, where the ledger has nothing of the task, its log was never cut short and has an update.
   */
  lemma ProjectedCompleteIff(runs: seq<RunFiles>, task: string, x: string)
    ensures var sessions := FoldAll(map[], ReadAll(runs, task));
            x in sessions && sessions[x].complete <==> SomeRunVouches(runs, task, x)
  {
    FoldedComplete(ReadAll(runs, task), x);
    AnyRunComplete(runs, task, x);
  }
}
