/**
 Reconciling the driver events replayed from the audit log with those stored in a timeline.

 Both sides are lists of events; an event is looked up under an integer key, and events that share
 a key are compared as multisets of types. The events replayed are consumed one by one against an
 index of the timeline.
 */
module Reconcile {
  import opened Wrappers
  import opened IntSorting
  import opened Ordering

  /** What reconciling reads of an event on either side; a missing driver number is -1. */
  datatype Item = Item(sequence: int, stream_sequence: Option<int>, event_type: string)

  datatype Keyed = Keyed(key: int, event_type: string)

  datatype TypeMismatch = TypeMismatch(sequence: int, replayed: string, timeline: string)

  type Index = map<int, multiset<string>>

  /** The exact key is used when both sides have events and all of them carry it. */
  predicate UsesStreamKey(replayed: seq<Item>, timeline: Option<seq<Item>>) {
    var stored := OrElse(timeline, []);
    && |replayed| > 0
    && (forall i :: 0 <= i < |replayed| ==> replayed[i].stream_sequence.Some?)
    && |stored| > 0
    && (forall i :: 0 <= i < |stored| ==> stored[i].stream_sequence.Some?)
  }

  /** One empty side, or one event without its stream number, is enough for the driver's own key. */
  lemma StreamKeyUnless(replayed: seq<Item>, timeline: Option<seq<Item>>)
    ensures !UsesStreamKey(replayed, timeline) <==>
              || replayed == [] || timeline == None || timeline == Some([])
              || (exists i :: 0 <= i < |replayed| && replayed[i].stream_sequence == None)
              || (timeline.Some? && exists i :: 0 <= i < |timeline.value| && timeline.value[i].stream_sequence == None)
  {
  }

  function KeyOf(byStream: bool, e: Item): Keyed {
    Keyed(if byStream then OrElse(e.stream_sequence, -1) else e.sequence, e.event_type)
  }

  function KeyAll(byStream: bool, items: seq<Item>): (r: seq<Keyed>)
    ensures |r| == |items|
  {
    seq(|items|, i requires 0 <= i < |items| => KeyOf(byStream, items[i]))
  }

  /** The types a side has at a key. */
  function TypesAt(items: seq<Keyed>, key: int): multiset<string> {
    if items == [] then multiset{}
    else
      var last := items[|items| - 1];
      TypesAt(items[..|items| - 1], key) + (if last.key == key then multiset{last.event_type} else multiset{})
  }

  /** The places of the events of a type that stand under a key: their stream number, or the driver's own. */
  ghost function PlacesOf(items: seq<Item>, byStream: bool, key: int, t: string): set<int> {
    set i | 0 <= i < |items| && items[i].event_type == t &&
            (if !byStream then items[i].sequence == key
             else if items[i].stream_sequence.Some? then items[i].stream_sequence.value == key else key == -1)
  }

  lemma PlacesOneMore(items: seq<Item>, item: Item, byStream: bool, key: int, t: string)
    ensures var here := item.event_type == t &&
              (if !byStream then item.sequence == key
               else if item.stream_sequence.Some? then item.stream_sequence.value == key else key == -1);
            |PlacesOf(items + [item], byStream, key, t)| == |PlacesOf(items, byStream, key, t)| + (if here then 1 else 0)
  {
    var before, after := PlacesOf(items, byStream, key, t), PlacesOf(items + [item], byStream, key, t);
    if |items| in after {
      assert after == before + {|items|};
    } else {
      assert after == before;
    }
  }

  /** The types a side has at a key count the events that stand under it. */
  lemma {:induction false} TypesAreCounted(items: seq<Item>, byStream: bool, key: int, t: string)
    ensures TypesAt(KeyAll(byStream, items), key)[t] == |PlacesOf(items, byStream, key, t)|
  {
    if items == [] {
      assert PlacesOf(items, byStream, key, t) == {};
    } else {
      var n := |items| - 1;
      TypesAreCounted(items[..n], byStream, key, t);
      assert items == items[..n] + [items[n]];
      PlacesOneMore(items[..n], items[n], byStream, key, t);
      assert KeyAll(byStream, items)[..n] == KeyAll(byStream, items[..n]);
    }
  }

  function At(index: Index, key: int): multiset<string> {
    if key in index then index[key] else multiset{}
  }

  function IndexOf(items: seq<Keyed>): (index: Index)
    ensures forall k :: At(index, k) == TypesAt(items, k)
  {
    if items == [] then map[]
    else
      var last := items[|items| - 1];
      var index := IndexOf(items[..|items| - 1]);
      index[last.key := At(index, last.key) + multiset{last.event_type}]
  }

  ghost function TypeSet(bucket: multiset<string>): set<string> {
    set t | t in bucket
  }

  /** The type an unmatched event is paired with: the least one left at its key. */
  ghost function Counterpart(bucket: multiset<string>): (t: string)
    requires bucket != multiset{}
    ensures IsLeast(t, TypeSet(bucket)) && t in bucket
  {
    assert exists t :: t in bucket;
    var t :| t in bucket;
    assert t in TypeSet(bucket);
    Least(TypeSet(bucket))
  }

  /** What is left of the index, and what has been reported, after consuming some events. */
  datatype Progress = Progress(index: Index, missing: seq<int>, mismatches: seq<TypeMismatch>, matched: nat)

  /** One replayed event: paired with its own type, else with the least type at its key, else missing. */
  ghost function Consume(p: Progress, e: Keyed): Progress {
    var bucket := At(p.index, e.key);
    if e.event_type in bucket then
      p.(index := p.index[e.key := bucket - multiset{e.event_type}], matched := p.matched + 1)
    else if bucket != multiset{} then
      p.(index := p.index[e.key := bucket - multiset{Counterpart(bucket)}],
         mismatches := p.mismatches + [TypeMismatch(e.key, e.event_type, Counterpart(bucket))])
    else
      p.(missing := p.missing + [e.key])
  }

  lemma ConsumeEffect(p: Progress, e: Keyed, k: int)
    ensures var q := Consume(p, e);
            && (k != e.key ==> At(q.index, k) == At(p.index, k))
            && (k == e.key ==> |At(q.index, k)| == Excess(|At(p.index, k)|, 1))
            && q.missing == p.missing + (if At(p.index, e.key) == multiset{} then [e.key] else [])
  {
    var bucket := At(p.index, e.key);
    assert e.event_type in bucket ==> bucket == (bucket - multiset{e.event_type}) + multiset{e.event_type};
    if bucket != multiset{} {
      var c := Counterpart(bucket);
      assert bucket == (bucket - multiset{c}) + multiset{c};
    }
  }

  ghost function ConsumeAll(index: Index, replayed: seq<Keyed>): Progress {
    if replayed == [] then Progress(index, [], [], 0)
    else Consume(ConsumeAll(index, replayed[..|replayed| - 1]), replayed[|replayed| - 1])
  }

  function Excess(a: nat, b: nat): nat {
    if a > b then a - b else 0
  }

  /**
   At each key, the timeline events left over and the replayed events reported missing depend only
   on how many events each side has there, not on their types or their order.
   */
  lemma {:induction false} CountsAtKey(index: Index, replayed: seq<Keyed>, key: int)
    ensures var p := ConsumeAll(index, replayed);
            && |At(p.index, key)| == Excess(|At(index, key)|, |TypesAt(replayed, key)|)
            && multiset(p.missing)[key] == Excess(|TypesAt(replayed, key)|, |At(index, key)|)
  {
    if replayed != [] {
      var n := |replayed| - 1;
      var e := replayed[n];
      CountsAtKey(index, replayed[..n], key);
      var p := ConsumeAll(index, replayed[..n]);
      ConsumeEffect(p, e, key);
      assert multiset(p.missing + [e.key]) == multiset(p.missing) + multiset{e.key};
      assert p.missing + [] == p.missing;
      if e.key == key {
        assert |At(p.index, key)| == 0 <==> At(p.index, key) == multiset{};
      }
    }
  }

  /** Every replayed event is matched, mismatched or missing, and counted once. */
  lemma {:induction false} EveryEventAccountedFor(index: Index, replayed: seq<Keyed>)
    ensures var p := ConsumeAll(index, replayed);
            p.matched + |p.mismatches| + |p.missing| == |replayed|
  {
    if replayed != [] { EveryEventAccountedFor(index, replayed[..|replayed| - 1]); }
  }

  ghost predicate Clean(p: Progress) {
    p.missing == [] && p.mismatches == []
  }

  ghost predicate Covers(index: Index, replayed: seq<Keyed>) {
    forall k :: TypesAt(replayed, k) <= At(index, k)
  }

  ghost predicate LeavesRest(index: Index, replayed: seq<Keyed>, rest: Index) {
    forall k :: At(rest, k) == At(index, k) - TypesAt(replayed, k)
  }

  lemma OneMoreFits(some: multiset<string>, bucket: multiset<string>, t: string)
    requires some <= bucket
    ensures some + multiset{t} <= bucket <==> t in bucket - some
  {
    assert (some + multiset{t})[t] == some[t] + 1;
  }

  lemma CoveredOneMore(index: Index, replayed: seq<Keyed>, rest: Index)
    requires replayed != []
    requires Covers(index, replayed[..|replayed| - 1]) && LeavesRest(index, replayed[..|replayed| - 1], rest)
    ensures var e := replayed[|replayed| - 1];
            Covers(index, replayed) <==> e.event_type in At(rest, e.key)
  {
    var e, front := replayed[|replayed| - 1], replayed[..|replayed| - 1];
    OneMoreFits(TypesAt(front, e.key), At(index, e.key), e.event_type);
    assert At(rest, e.key) == At(index, e.key) - TypesAt(front, e.key);
    assert TypesAt(replayed, e.key) == TypesAt(front, e.key) + multiset{e.event_type};
    forall k | k != e.key ensures TypesAt(replayed, k) <= At(index, k) {
      assert TypesAt(replayed, k) == TypesAt(front, k);
    }
  }

  lemma OneMoreTaken(some: multiset<string>, bucket: multiset<string>, more: multiset<string>)
    ensures bucket - some - more == bucket - (some + more)
  {
  }

  lemma LeavesOneMore(index: Index, replayed: seq<Keyed>, q: Progress)
    requires replayed != []
    requires Covers(index, replayed[..|replayed| - 1]) && LeavesRest(index, replayed[..|replayed| - 1], q.index)
    requires var e := replayed[|replayed| - 1]; e.event_type in At(q.index, e.key)
    ensures LeavesRest(index, replayed, Consume(q, replayed[|replayed| - 1]).index)
  {
    var e, front := replayed[|replayed| - 1], replayed[..|replayed| - 1];
    var p, t := Consume(q, e), multiset{e.event_type};
    assert At(p.index, e.key) == At(index, e.key) - TypesAt(replayed, e.key) by {
      assert At(p.index, e.key) == At(q.index, e.key) - t && TypesAt(replayed, e.key) == TypesAt(front, e.key) + t;
      OneMoreTaken(TypesAt(front, e.key), At(index, e.key), t);
    }
    forall k | k != e.key ensures At(p.index, k) == At(index, k) - TypesAt(replayed, k) {
      assert At(p.index, k) == At(q.index, k) && TypesAt(replayed, k) == TypesAt(front, k);
    }
  }

  lemma CoversFront(index: Index, replayed: seq<Keyed>)
    requires replayed != [] && Covers(index, replayed)
    ensures Covers(index, replayed[..|replayed| - 1])
  {
    forall k ensures TypesAt(replayed[..|replayed| - 1], k) <= At(index, k) {
      assert TypesAt(replayed, k) <= At(index, k);
    }
  }

  /** Nothing is reported exactly when the timeline has at least the replayed types at every key. */
  lemma {:induction false} CleanIffCovered(index: Index, replayed: seq<Keyed>)
    ensures var p := ConsumeAll(index, replayed);
            && (Clean(p) <==> Covers(index, replayed))
            && (Clean(p) ==> LeavesRest(index, replayed, p.index))
  {
    if replayed != [] {
      var n := |replayed| - 1;
      var e := replayed[n];
      CleanIffCovered(index, replayed[..n]);
      var q := ConsumeAll(index, replayed[..n]);
      if Clean(q) {
        CoveredOneMore(index, replayed, q.index);
        if e.event_type in At(q.index, e.key) { LeavesOneMore(index, replayed, q); }
      } else if Covers(index, replayed) {
        CoversFront(index, replayed);
      }
    }
  }

  /** Whether the leftovers of the index are empty everywhere. */
  ghost predicate NothingLeft(index: Index) {
    forall k :: At(index, k) == multiset{}
  }

  ghost predicate SameTypes(r: seq<Keyed>, t: seq<Keyed>) {
    forall k :: TypesAt(r, k) == TypesAt(t, k)
  }

  lemma EmptyDifference(a: multiset<string>, b: multiset<string>)
    requires a <= b
    ensures b - a == multiset{} <==> a == b
  {
    assert b == (b - a) + a;
  }

  lemma NothingLeftIffSame(r: seq<Keyed>, t: seq<Keyed>, rest: Index)
    requires Covers(IndexOf(t), r) && LeavesRest(IndexOf(t), r, rest)
    ensures NothingLeft(rest) <==> SameTypes(r, t)
  {
    forall k ensures At(rest, k) == multiset{} <==> TypesAt(r, k) == TypesAt(t, k) {
      assert TypesAt(r, k) <= At(IndexOf(t), k) && At(rest, k) == At(IndexOf(t), k) - TypesAt(r, k);
      EmptyDifference(TypesAt(r, k), TypesAt(t, k));
    }
  }

  /** Reconciling reports no difference exactly when both sides have the same types at every key. */
  lemma OkIffSameTypes(timeline: seq<Keyed>, replayed: seq<Keyed>)
    ensures var p := ConsumeAll(IndexOf(timeline), replayed);
            Clean(p) && NothingLeft(p.index) <==> SameTypes(replayed, timeline)
  {
    var index := IndexOf(timeline);
    CleanIffCovered(index, replayed);
    var p := ConsumeAll(index, replayed);
    if SameTypes(replayed, timeline) {
      forall k ensures TypesAt(replayed, k) <= At(index, k) {
        assert TypesAt(replayed, k) == TypesAt(timeline, k);
      }
    }
    if Clean(p) { NothingLeftIffSame(replayed, timeline, p.index); }
  }

  /** No key is both missing from the timeline and unexpected in it. */
  lemma MissingAndUnexpectedDisjoint(timeline: seq<Keyed>, replayed: seq<Keyed>, key: int)
    ensures var p := ConsumeAll(IndexOf(timeline), replayed);
            && (key in p.missing <==> |TypesAt(replayed, key)| > |TypesAt(timeline, key)|)
            && (At(p.index, key) != multiset{} <==> |TypesAt(timeline, key)| > |TypesAt(replayed, key)|)
            && !(key in p.missing && At(p.index, key) != multiset{})
  {
    CountsAtKey(IndexOf(timeline), replayed, key);
    var p := ConsumeAll(IndexOf(timeline), replayed);
    assert key in p.missing <==> multiset(p.missing)[key] > 0;
  }

  /**
   The number of type mismatches does depend on the order of the replayed events: against timeline
   types b and c, replaying a then b mismatches both, replaying b then a only one.
   */
  lemma MismatchesDependOnOrder()
    ensures var timeline := [Keyed(1, "b"), Keyed(1, "c")];
            var ab, ba := [Keyed(1, "a"), Keyed(1, "b")], [Keyed(1, "b"), Keyed(1, "a")];
            && |ConsumeAll(IndexOf(timeline), ab).mismatches| == 2
            && |ConsumeAll(IndexOf(timeline), ba).mismatches| == 1
  {
    var a, b, c := Keyed(1, "a"), Keyed(1, "b"), Keyed(1, "c");
    var index := IndexOf([b, c]);
    TwoTypes(b, c);
    ConsumeTwo(index, a, b);
    ConsumeTwo(index, b, a);
    var start := Progress(index, [], [], 0);
    MismatchThenMatch(start);
  }

  lemma TwoTypes(b: Keyed, c: Keyed)
    requires b.key == c.key
    ensures TypesAt([b, c], b.key) == multiset{b.event_type, c.event_type}
  {
    assert [b, c][..1] == [b] && [b][..0] == [];
    assert TypesAt([b], b.key) == multiset{b.event_type};
  }

  lemma LettersDiffer()
    ensures "a" != "b" && "a" != "c" && "b" != "c"
    ensures multiset{"b", "c"} - multiset{"b"} == multiset{"c"}
    ensures Counterpart(multiset{"b", "c"}) == "b"
  {
    assert "a"[0] != "b"[0] && "a"[0] != "c"[0] && "b"[0] != "c"[0];
    var s := TypeSet(multiset{"b", "c"});
    assert IsLeast("b", s) by {
      assert Le("b", "c") && Le("b"[1..], "b"[1..]) && Le("b", "b");
    }
    LeastUnique("b", Counterpart(multiset{"b", "c"}), s);
  }

  lemma MismatchThenMatch(p: Progress)
    requires At(p.index, 1) == multiset{"b", "c"} && p.mismatches == []
    ensures |Consume(Consume(p, Keyed(1, "a")), Keyed(1, "b")).mismatches| == 2
    ensures |Consume(Consume(p, Keyed(1, "b")), Keyed(1, "a")).mismatches| == 1
  {
    LettersDiffer();
    assert Consume(p, Keyed(1, "a")).index == p.index[1 := multiset{"c"}];
    assert Consume(p, Keyed(1, "b")).index == p.index[1 := multiset{"c"}];
    assert "c" in multiset{"c"};
  }

  lemma ConsumeTwo(index: Index, d: Keyed, e: Keyed)
    ensures ConsumeAll(index, [d, e]) == Consume(Consume(Progress(index, [], [], 0), d), e)
  {
    assert [d, e][..1] == [d] && [d][..0] == [];
    assert ConsumeAll(index, [d]) == Consume(Progress(index, [], [], 0), d);
  }

  // ----- the loops -----

  /** A bucket of the timeline index as the code keeps it: positive counts only. */
  ghost predicate Counts(bucket: map<string, nat>, types: multiset<string>) {
    && (forall t :: t in bucket <==> t in types)
    && (forall t :: t in bucket ==> bucket[t] == types[t])
  }

  ghost predicate CountsAll(buckets: map<int, map<string, nat>>, index: Index) {
    && buckets.Keys == index.Keys
    && forall k :: k in buckets ==> Counts(buckets[k], index[k])
  }

  /** Takes one event of the type out of the bucket, if it has one. */
  method TakeType(bucket: map<string, nat>, eventType: string, ghost types: multiset<string>)
    returns (taken: bool, rest: map<string, nat>)
    requires Counts(bucket, types)
    ensures taken <==> eventType in types
    ensures Counts(rest, types - multiset{eventType})
  {
    var count := if eventType in bucket then bucket[eventType] else 0;
    if count == 0 { return false, bucket; }
    if count == 1 {
      rest := bucket - {eventType};
    } else {
      rest := bucket[eventType := count - 1];
    }
    taken := true;
  }

  /** Adds one event of the type to the bucket. */
  method AddType(bucket: map<string, nat>, eventType: string, ghost types: multiset<string>)
    returns (more: map<string, nat>)
    requires Counts(bucket, types)
    ensures Counts(more, types + multiset{eventType})
  {
    more := bucket[eventType := (if eventType in bucket then bucket[eventType] else 0) + 1];
  }

  method BuildIndex(timeline: seq<Keyed>) returns (buckets: map<int, map<string, nat>>)
    ensures CountsAll(buckets, IndexOf(timeline))
  {
    buckets := map[];
    for i := 0 to |timeline|
      invariant CountsAll(buckets, IndexOf(timeline[..i]))
    {
      var e := timeline[i];
      ghost var index := IndexOf(timeline[..i]);
      assert timeline[..i + 1][..i] == timeline[..i];
      var bucket := if e.key in buckets then buckets[e.key] else map[];
      bucket := AddType(bucket, e.event_type, At(index, e.key));
      buckets := buckets[e.key := bucket];
      assert IndexOf(timeline[..i + 1]) == index[e.key := At(index, e.key) + multiset{e.event_type}];
    }
    assert timeline[..|timeline|] == timeline;
  }

  /** One turn of the loop over the replayed events. */
  method ConsumeOne(buckets: map<int, map<string, nat>>, e: Keyed, ghost p: Progress)
    returns (left: map<int, map<string, nat>>, missing: seq<int>, mismatches: seq<TypeMismatch>)
    requires CountsAll(buckets, p.index)
    ensures var q := Consume(p, e);
            CountsAll(left, q.index) && q.missing == p.missing + missing && q.mismatches == p.mismatches + mismatches
  {
    left, missing, mismatches := buckets, [], [];
    if e.key in buckets {
      var bucket := buckets[e.key];
      ghost var types := p.index[e.key];
      var taken, rest := TakeType(bucket, e.event_type, types);
      if taken {
        left := buckets[e.key := rest];
        return;
      }
      if |bucket| > 0 {
        ghost var t :| t in bucket;
        assert t in types && bucket.Keys == TypeSet(types);
        var counterpart := FindLeast(bucket.Keys);
        LeastUnique(counterpart, Counterpart(types), TypeSet(types));
        taken, rest := TakeType(bucket, counterpart, types);
        left := buckets[e.key := rest];
        mismatches := [TypeMismatch(e.key, e.event_type, counterpart)];
        return;
      }
      assert types == multiset{} by {
        assert forall t :: t in types ==> t in bucket;
      }
    }
    missing := [e.key];
  }

  method ConsumeReplayed(start: map<int, map<string, nat>>, ghost index: Index, replayed: seq<Keyed>)
    returns (buckets: map<int, map<string, nat>>, missing: seq<int>, mismatches: seq<TypeMismatch>)
    requires CountsAll(start, index)
    ensures var p := ConsumeAll(index, replayed);
            CountsAll(buckets, p.index) && missing == p.missing && mismatches == p.mismatches
  {
    buckets, missing, mismatches := start, [], [];
    for i := 0 to |replayed|
      invariant var p := ConsumeAll(index, replayed[..i]);
                CountsAll(buckets, p.index) && missing == p.missing && mismatches == p.mismatches
    {
      assert replayed[..i + 1][..i] == replayed[..i];
      var missed, mismatched;
      buckets, missed, mismatched := ConsumeOne(buckets, replayed[i], ConsumeAll(index, replayed[..i]));
      missing, mismatches := missing + missed, mismatches + mismatched;
    }
    assert replayed[..|replayed|] == replayed;
  }

  /** The keys of the buckets that still hold something, in order. */
  method Unconsumed(buckets: map<int, map<string, nat>>) returns (keys: seq<int>)
    ensures Increasing(keys)
    ensures forall k :: k in keys <==> k in buckets && buckets[k] != map[]
  {
    keys := SortKeys(set k | k in buckets && |buckets[k]| > 0);
    assert forall k :: k in buckets ==> (|buckets[k]| > 0 <==> buckets[k] != map[]);
  }

  datatype Report = Report(
    byStream: bool,
    missing_in_timeline: seq<int>,
    unexpected_in_timeline: seq<int>,
    type_mismatches: seq<TypeMismatch>,
    ok: bool)

  /** What a report says about two keyed sides. */
  ghost predicate Describes(report: Report, r: seq<Keyed>, t: seq<Keyed>) {
    && (forall k :: multiset(report.missing_in_timeline)[k] == Excess(|TypesAt(r, k)|, |TypesAt(t, k)|))
    && (forall k :: k in report.unexpected_in_timeline <==> |TypesAt(t, k)| > |TypesAt(r, k)|)
    && (report.ok <==> SameTypes(r, t))
    && |report.missing_in_timeline| + |report.type_mismatches| <= |r|
  }

  lemma LeftoversByKey(r: seq<Keyed>, t: seq<Keyed>)
    ensures var p := ConsumeAll(IndexOf(t), r);
            && (forall k :: multiset(p.missing)[k] == Excess(|TypesAt(r, k)|, |TypesAt(t, k)|))
            && (forall k :: At(p.index, k) != multiset{} <==> |TypesAt(t, k)| > |TypesAt(r, k)|)
  {
    var p := ConsumeAll(IndexOf(t), r);
    forall k
      ensures multiset(p.missing)[k] == Excess(|TypesAt(r, k)|, |TypesAt(t, k)|)
      ensures At(p.index, k) != multiset{} <==> |TypesAt(t, k)| > |TypesAt(r, k)|
    {
      CountsAtKey(IndexOf(t), r, k);
    }
  }

  ghost predicate Reports(report: Report, p: Progress) {
    && multiset(report.missing_in_timeline) == multiset(p.missing)
    && report.type_mismatches == p.mismatches
    && (forall k :: k in report.unexpected_in_timeline <==> At(p.index, k) != multiset{})
    && (report.ok <==> Clean(p) && report.unexpected_in_timeline == [])
  }

  lemma ReportOk(report: Report, p: Progress)
    requires Reports(report, p)
    ensures report.ok <==> Clean(p) && NothingLeft(p.index)
  {
    var u := report.unexpected_in_timeline;
    if u != [] { assert u[0] in u && At(p.index, u[0]) != multiset{}; }
    if u == [] { forall k ensures At(p.index, k) == multiset{} { assert k !in u; } }
  }

  lemma ReportDescribes(report: Report, r: seq<Keyed>, t: seq<Keyed>)
    requires Reports(report, ConsumeAll(IndexOf(t), r))
    ensures Describes(report, r, t)
  {
    var p := ConsumeAll(IndexOf(t), r);
    LeftoversByKey(r, t);
    EveryEventAccountedFor(IndexOf(t), r);
    assert |multiset(report.missing_in_timeline)| == |multiset(p.missing)|;
    ReportOk(report, p);
    OkIffSameTypes(t, r);
  }

  /**
   The report: which key was used; at each key with R replayed and T stored events, the key is
   listed max(0, R - T) times as missing and once as unexpected exactly when T > R; and `ok` says
   whether both sides have the same types at every key.
   */
  method ReconcileDriverStream(replayed: seq<Item>, timeline: Option<seq<Item>>) returns (report: Report)
    ensures report.byStream <==> UsesStreamKey(replayed, timeline)
    ensures var r, t := KeyAll(report.byStream, replayed), KeyAll(report.byStream, OrElse(timeline, []));
            Describes(report, r, t) && report.type_mismatches == ConsumeAll(IndexOf(t), r).mismatches
    ensures SortedInts(report.missing_in_timeline)
    ensures Increasing(report.unexpected_in_timeline)
  {
    var byStream := UsesStreamKey(replayed, timeline);
    var r, t := KeyAll(byStream, replayed), KeyAll(byStream, OrElse(timeline, []));
    var buckets := BuildIndex(t);
    var left, missing, mismatches := ConsumeReplayed(buckets, IndexOf(t), r);
    var unexpected := Unconsumed(left);
    var sorted := SortInts(missing);
    report := Report(byStream, sorted, unexpected, mismatches, |missing| == 0 && |mismatches| == 0 && |unexpected| == 0);
    ghost var p := ConsumeAll(IndexOf(t), r);
    forall k ensures k in unexpected <==> At(p.index, k) != multiset{} { LeftoverBucket(left, p.index, k); }
    ReportDescribes(report, r, t);
  }

  lemma LeftoverBucket(buckets: map<int, map<string, nat>>, index: Index, k: int)
    requires CountsAll(buckets, index)
    ensures k in buckets && buckets[k] != map[] <==> At(index, k) != multiset{}
  {
    if k in buckets {
      if t :| t in buckets[k] { assert t in index[k]; }
      if t :| t in index[k] { assert t in buckets[k]; }
    }
  }
}
