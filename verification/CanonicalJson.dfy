/** The canonical form of a JSON tree, in which the order of object keys no longer shows. */
module CanonicalJson {
  import opened DriverEvents
  import opened Ordering
  import Decimal

  /** A value as the program holds it: the entries of an object have an order. */
  datatype Tree =
    | TNull
    | TBool(flag: bool)
    | TNum(num: real)
    | TStr(text: string)
    | TArr(items: seq<Tree>)
    | TObj(entries: seq<Entry>)

  datatype Entry = Entry(key: string, value: Tree)

  ghost predicate DistinctKeys(entries: seq<Entry>) {
    forall i, j :: 0 <= i < j < |entries| ==> entries[i].key != entries[j].key
  }

  /** No object has the same key twice. */
  ghost predicate WellFormed(t: Tree) {
    match t
    case TArr(items) => forall i :: 0 <= i < |items| ==> WellFormed(items[i])
    case TObj(entries) => DistinctKeys(entries) && forall i :: 0 <= i < |entries| ==> WellFormed(entries[i].value)
    case _ => true
  }

  // ----- sorting -----

  /** A key that objects list as an array index: before all others, and by value. */
  predicate IsIndex(key: string) {
    Decimal.IsNumeral(key) && Decimal.Value(key) < 0xffff_ffff
  }

  /** Such keys are the numerals of the numbers below 2 to the 32nd less one. */
  lemma IndexIff(key: string)
    ensures IsIndex(key) <==> exists n: nat :: n < 4294967295 && key == Decimal.Print(n)
  {
    if IsIndex(key) {
      Decimal.ValueThenPrint(key);
      assert key == Decimal.Print(Decimal.Value(key));
    }
    if n: nat :| n < 4294967295 && key == Decimal.Print(n) {
      Decimal.PrintThenValue(n);
    }
  }

  function InsertByKey(entries: seq<Entry>, e: Entry): (r: seq<Entry>)
    ensures multiset(r) == multiset(entries) + multiset{e}
  {
    if entries == [] || Le(entries[|entries| - 1].key, e.key) then entries + [e]
    else
      assert entries == entries[..|entries| - 1] + [entries[|entries| - 1]];
      InsertByKey(entries[..|entries| - 1], e) + [entries[|entries| - 1]]
  }

  /** `sort` by the code units of the keys. */
  function SortByKey(entries: seq<Entry>): (r: seq<Entry>)
    ensures multiset(r) == multiset(entries)
  {
    if entries == [] then []
    else
      assert entries == entries[..|entries| - 1] + [entries[|entries| - 1]];
      InsertByKey(SortByKey(entries[..|entries| - 1]), entries[|entries| - 1])
  }

  /** Where an object puts a new key. */
  function PutEntry(entries: seq<Entry>, e: Entry): (r: seq<Entry>)
    ensures multiset(r) == multiset(entries) + multiset{e}
  {
    if entries == [] || Listed(entries[|entries| - 1].key, e.key) then entries + [e]
    else
      assert entries == entries[..|entries| - 1] + [entries[|entries| - 1]];
      PutEntry(entries[..|entries| - 1], e) + [entries[|entries| - 1]]
  }

  /** Whether an object lists a key before one added later. */
  predicate Listed(a: string, b: string) {
    !IsIndex(b) || (IsIndex(a) && Decimal.Value(a) <= Decimal.Value(b))
  }

  /** `Object.fromEntries`, for distinct keys. */
  function FromEntries(entries: seq<Entry>): (r: seq<Entry>)
    ensures multiset(r) == multiset(entries)
  {
    if entries == [] then []
    else
      assert entries == entries[..|entries| - 1] + [entries[|entries| - 1]];
      PutEntry(FromEntries(entries[..|entries| - 1]), entries[|entries| - 1])
  }

  lemma SameMembers(a: seq<Entry>, b: seq<Entry>)
    requires multiset(a) == multiset(b)
    ensures forall i :: 0 <= i < |a| ==> a[i] in b
  {
    forall i | 0 <= i < |a| ensures a[i] in b {
      assert a[i] in multiset(a);
      assert a[i] in multiset(b);
    }
  }

  function SortObjectKeys(t: Tree): Tree
    decreases t
  {
    match t
    case TArr(items) => TArr(seq(|items|, i requires 0 <= i < |items| => SortObjectKeys(items[i])))
    case TObj(entries) =>
      var sorted := SortByKey(entries);
      SameMembers(sorted, entries);
      TObj(FromEntries(seq(|sorted|, i requires 0 <= i < |sorted| =>
        Entry(sorted[i].key, SortObjectKeys(sorted[i].value)))))
    case _ => t
  }

  // ----- the order of the entries -----

  /** Index-like keys by value, then all others by code units. */
  predicate KeyLe(a: string, b: string) {
    if IsIndex(a) then !IsIndex(b) || Decimal.Value(a) <= Decimal.Value(b)
    else !IsIndex(b) && Le(a, b)
  }

  lemma KeyLeAntisymmetric(a: string, b: string)
    requires KeyLe(a, b) && KeyLe(b, a)
    ensures a == b
  {
    if IsIndex(a) {
      Decimal.ValueThenPrint(a);
      Decimal.ValueThenPrint(b);
    } else {
      LeAntisymmetric(a, b);
    }
  }

  ghost predicate ByCodeUnits(entries: seq<Entry>) {
    forall i, j :: 0 <= i < j < |entries| ==> Le(entries[i].key, entries[j].key)
  }

  ghost predicate InOrder(entries: seq<Entry>) {
    forall i, j :: 0 <= i < j < |entries| ==> KeyLe(entries[i].key, entries[j].key)
  }

  lemma InsertMembers(entries: seq<Entry>, e: Entry, r: seq<Entry>)
    requires multiset(r) == multiset(entries) + multiset{e}
    ensures forall i :: 0 <= i < |r| ==> r[i] == e || r[i] in entries
    ensures |r| == |entries| + 1
  {
    assert multiset(entries + [e]) == multiset(r);
    SameMembers(r, entries + [e]);
    assert |multiset(r)| == |r|;
  }

  lemma {:induction false} InsertOrdered(entries: seq<Entry>, e: Entry)
    requires ByCodeUnits(entries)
    ensures ByCodeUnits(InsertByKey(entries, e))
  {
    if entries != [] {
      var n := |entries| - 1;
      var front, last := entries[..n], entries[n];
      LeTotal(last.key, e.key);
      if Le(last.key, e.key) {
        forall i | 0 <= i < n ensures Le(entries[i].key, e.key) { LeTransitive(entries[i].key, last.key, e.key); }
      } else {
        InsertOrdered(front, e);
        InsertMembers(front, e, InsertByKey(front, e));
        assert forall x :: x in front ==> Le(x.key, last.key);
      }
    }
  }

  lemma {:induction false} SortOrdered(entries: seq<Entry>)
    ensures ByCodeUnits(SortByKey(entries))
  {
    if entries != [] {
      SortOrdered(entries[..|entries| - 1]);
      InsertOrdered(SortByKey(entries[..|entries| - 1]), entries[|entries| - 1]);
    }
  }

  lemma {:induction false} PutOrdered(entries: seq<Entry>, e: Entry)
    requires InOrder(entries)
    requires forall i :: 0 <= i < |entries| ==> Le(entries[i].key, e.key)
    ensures InOrder(PutEntry(entries, e))
  {
    if entries != [] {
      var n := |entries| - 1;
      var front, last := entries[..n], entries[n];
      if Listed(last.key, e.key) {
        forall i | 0 <= i < |entries| ensures KeyLe(entries[i].key, e.key) {
          assert i < n ==> KeyLe(entries[i].key, last.key);
        }
      } else {
        PutOrdered(front, e);
        InsertMembers(front, e, PutEntry(front, e));
        assert forall x :: x in front ==> KeyLe(x.key, last.key);
        assert KeyLe(e.key, last.key);
      }
    }
  }

  lemma {:induction false} FromEntriesOrdered(entries: seq<Entry>)
    requires ByCodeUnits(entries)
    ensures InOrder(FromEntries(entries))
  {
    if entries != [] {
      var n := |entries| - 1;
      var front := FromEntries(entries[..n]);
      FromEntriesOrdered(entries[..n]);
      SameMembers(front, entries[..n]);
      assert forall x :: x in entries[..n] ==> Le(x.key, entries[n].key);
      PutOrdered(front, entries[n]);
    }
  }

  lemma InsertDistinct(entries: seq<Entry>, e: Entry, front: seq<Entry>, last: Entry, r: seq<Entry>)
    requires entries == front + [last] && DistinctKeys(entries + [e])
    requires DistinctKeys(r) && multiset(r) == multiset(front) + multiset{e}
    ensures DistinctKeys(r + [last])
  {
    InsertMembers(front, e, r);
    forall i | 0 <= i < |r| ensures r[i].key != last.key {
      var all := entries + [e];
      assert all[|front|] == last && all[|front| + 1] == e;
      if r[i] != e {
        var j :| 0 <= j < |front| && front[j] == r[i];
        assert all[j] == r[i];
      }
    }
  }

  lemma {:induction false} SortStepDistinct(entries: seq<Entry>, e: Entry)
    requires DistinctKeys(entries + [e])
    ensures DistinctKeys(InsertByKey(entries, e))
  {
    if entries != [] && !Le(entries[|entries| - 1].key, e.key) {
      var front, last := entries[..|entries| - 1], entries[|entries| - 1];
      WithoutLast(entries, e);
      SortStepDistinct(front, e);
      InsertDistinct(entries, e, front, last, InsertByKey(front, e));
    }
  }

  lemma {:induction false} PutStepDistinct(entries: seq<Entry>, e: Entry)
    requires DistinctKeys(entries + [e])
    ensures DistinctKeys(PutEntry(entries, e))
  {
    if entries != [] && !Listed(entries[|entries| - 1].key, e.key) {
      var front, last := entries[..|entries| - 1], entries[|entries| - 1];
      WithoutLast(entries, e);
      PutStepDistinct(front, e);
      InsertDistinct(entries, e, front, last, PutEntry(front, e));
    }
  }

  lemma WithoutLast(entries: seq<Entry>, e: Entry)
    requires DistinctKeys(entries + [e]) && entries != []
    ensures DistinctKeys(entries[..|entries| - 1] + [e])
  {
    var n, all := |entries| - 1, entries + [e];
    var less := entries[..n] + [e];
    forall i, j | 0 <= i < j < |less| ensures less[i].key != less[j].key {
      assert less[i] == all[i] && less[j] == all[if j < n then j else n + 1];
    }
  }

  lemma SameDistinct(a: seq<Entry>, b: seq<Entry>, e: Entry)
    requires DistinctKeys(b + [e]) && DistinctKeys(a) && multiset(a) == multiset(b)
    ensures DistinctKeys(a + [e])
  {
    SameMembers(a, b);
    forall i | 0 <= i < |a| ensures a[i].key != e.key {
      var j :| 0 <= j < |b| && b[j] == a[i];
      assert (b + [e])[j] == b[j] && (b + [e])[|b|] == e;
    }
  }

  lemma {:induction false} SortDistinct(entries: seq<Entry>)
    requires DistinctKeys(entries)
    ensures DistinctKeys(SortByKey(entries))
  {
    if entries != [] {
      var n := |entries| - 1;
      SortDistinct(entries[..n]);
      assert entries == entries[..n] + [entries[n]];
      SameDistinct(SortByKey(entries[..n]), entries[..n], entries[n]);
      SortStepDistinct(SortByKey(entries[..n]), entries[n]);
    }
  }

  lemma {:induction false} FromEntriesDistinct(entries: seq<Entry>)
    requires DistinctKeys(entries)
    ensures DistinctKeys(FromEntries(entries))
  {
    if entries != [] {
      var n := |entries| - 1;
      FromEntriesDistinct(entries[..n]);
      assert entries == entries[..n] + [entries[n]];
      SameDistinct(FromEntries(entries[..n]), entries[..n], entries[n]);
      PutStepDistinct(FromEntries(entries[..n]), entries[n]);
    }
  }

  // ----- one canonical form for each meaning -----

  /** The value without the order of its keys. */
  ghost function Unordered(t: Tree): Json
    requires WellFormed(t)
    decreases t, 0
  {
    match t
    case TNull => JNull
    case TBool(flag) => JBool(flag)
    case TNum(num) => JNum(num)
    case TStr(text) => JStr(text)
    case TArr(items) => JArr(seq(|items|, i requires 0 <= i < |items| => Unordered(items[i])))
    case TObj(entries) => JObj(Fields(entries))
  }

  ghost function Fields(entries: seq<Entry>): map<string, Json>
    requires forall i :: 0 <= i < |entries| ==> WellFormed(entries[i].value)
    decreases entries, 1
  {
    if entries == [] then map[]
    else
      var last := entries[|entries| - 1];
      Fields(entries[..|entries| - 1])[last.key := Unordered(last.value)]
  }

  ghost function CanonicalEntry(e: Entry): Entry {
    Entry(e.key, SortObjectKeys(e.value))
  }

  ghost function CanonicalAll(entries: seq<Entry>): (r: seq<Entry>)
    ensures |r| == |entries| && forall i :: 0 <= i < |entries| ==> r[i] == CanonicalEntry(entries[i])
  {
    seq(|entries|, i requires 0 <= i < |entries| => CanonicalEntry(entries[i]))
  }

  lemma CanonicalForm(entries: seq<Entry>)
    ensures SortObjectKeys(TObj(entries)) == TObj(FromEntries(CanonicalAll(SortByKey(entries))))
  {
    var sorted := SortByKey(entries);
    var mapped := seq(|sorted|, i requires 0 <= i < |sorted| => Entry(sorted[i].key, SortObjectKeys(sorted[i].value)));
    assert mapped == CanonicalAll(sorted);
  }

  /** The entries of r are those of the list with canonical values, in whatever order. */
  ghost predicate IsImage(r: seq<Entry>, entries: seq<Entry>) {
    && (forall i :: 0 <= i < |r| ==> exists j :: 0 <= j < |entries| && r[i] == CanonicalEntry(entries[j]))
    && (forall j :: 0 <= j < |entries| ==> CanonicalEntry(entries[j]) in r)
  }

  lemma ImageOfPermutation(entries: seq<Entry>, sorted: seq<Entry>, r: seq<Entry>)
    requires multiset(sorted) == multiset(entries) && multiset(r) == multiset(CanonicalAll(sorted))
    ensures IsImage(r, entries)
  {
    var mapped := CanonicalAll(sorted);
    SameMembers(sorted, entries);
    SameMembers(entries, sorted);
    SameMembers(r, mapped);
    SameMembers(mapped, r);
    forall j | 0 <= j < |entries| ensures CanonicalEntry(entries[j]) in r {
      var k :| 0 <= k < |sorted| && sorted[k] == entries[j];
      assert mapped[k] in r;
    }
    forall i | 0 <= i < |r| ensures exists j :: 0 <= j < |entries| && r[i] == CanonicalEntry(entries[j]) {
      var k :| 0 <= k < |mapped| && mapped[k] == r[i];
      var j :| 0 <= j < |entries| && entries[j] == sorted[k];
    }
  }

  lemma KeysKept(sorted: seq<Entry>)
    ensures DistinctKeys(sorted) ==> DistinctKeys(CanonicalAll(sorted))
    ensures ByCodeUnits(sorted) ==> ByCodeUnits(CanonicalAll(sorted))
  {
  }

  /** The entries of the canonical form: distinct keys, in order, with canonical values. */
  lemma CanonicalEntries(entries: seq<Entry>) returns (r: seq<Entry>)
    requires DistinctKeys(entries)
    ensures SortObjectKeys(TObj(entries)) == TObj(r)
    ensures DistinctKeys(r) && InOrder(r) && IsImage(r, entries)
  {
    var sorted := SortByKey(entries);
    SortOrdered(entries);
    SortDistinct(entries);
    KeysKept(sorted);
    CanonicalForm(entries);
    r := FromEntries(CanonicalAll(sorted));
    FromEntriesOrdered(CanonicalAll(sorted));
    FromEntriesDistinct(CanonicalAll(sorted));
    ImageOfPermutation(entries, sorted, r);
  }

  ghost predicate Within(a: seq<Entry>, b: seq<Entry>) {
    forall i :: 0 <= i < |a| ==> a[i] in b
  }

  lemma LastsEqual(a: seq<Entry>, b: seq<Entry>)
    requires a != [] && b != [] && InOrder(a) && InOrder(b) && Within(a, b) && Within(b, a)
    ensures a[|a| - 1].key == b[|b| - 1].key
  {
    var m, n := |a| - 1, |b| - 1;
    assert a[m] in b;
    var j :| 0 <= j < |b| && b[j] == a[m];
    assert b[n] in a;
    var i :| 0 <= i < |a| && a[i] == b[n];
    if j < n && i < m {
      assert KeyLe(b[j].key, b[n].key) && KeyLe(a[i].key, a[m].key);
      KeyLeAntisymmetric(a[m].key, b[n].key);
    }
  }

  lemma SameKeySameEntry(a: seq<Entry>, b: seq<Entry>, i: nat, j: nat)
    requires i < |a| && j < |b| && DistinctKeys(b) && Within(a, b) && a[i].key == b[j].key
    ensures a[i] == b[j]
  {
    assert a[i] in b;
    var k :| 0 <= k < |b| && b[k] == a[i];
    assert k == j;
  }

  lemma FrontsWithin(a: seq<Entry>, b: seq<Entry>)
    requires a != [] && b != [] && DistinctKeys(a) && Within(a, b) && a[|a| - 1] == b[|b| - 1]
    ensures Within(a[..|a| - 1], b[..|b| - 1])
  {
    var m, n := |a| - 1, |b| - 1;
    forall k | 0 <= k < m ensures a[..m][k] in b[..n] {
      assert a[k] in b;
      var l :| 0 <= l < |b| && b[l] == a[k];
      assert a[k].key != a[m].key;
      assert b[..n][l] == a[k];
    }
  }

  lemma {:induction false} OrderedUnique(a: seq<Entry>, b: seq<Entry>)
    requires DistinctKeys(a) && DistinctKeys(b) && InOrder(a) && InOrder(b)
    requires Within(a, b) && Within(b, a)
    ensures a == b
  {
    if a != [] && b != [] {
      var m, n := |a| - 1, |b| - 1;
      LastsEqual(a, b);
      SameKeySameEntry(a, b, m, n);
      FrontsWithin(a, b);
      FrontsWithin(b, a);
      OrderedUnique(a[..m], b[..n]);
      assert a == a[..m] + [a[m]] && b == b[..n] + [b[n]];
    } else {
      EmptyWithin(a, b);
      EmptyWithin(b, a);
    }
  }

  lemma EmptyWithin(a: seq<Entry>, b: seq<Entry>)
    requires Within(a, b)
    ensures b == [] ==> a == []
  {
    assert a != [] ==> a[0] in b;
  }

  /** Canonicalising changes nothing but the order of keys. */
  lemma {:induction false} CanonicalKeepsMeaning(t: Tree)
    requires WellFormed(t)
    ensures WellFormed(SortObjectKeys(t)) && Unordered(SortObjectKeys(t)) == Unordered(t)
    decreases t
  {
    match t {
      case TArr(items) =>
        forall i | 0 <= i < |items|
          ensures WellFormed(SortObjectKeys(items[i])) && Unordered(SortObjectKeys(items[i])) == Unordered(items[i])
        {
          CanonicalKeepsMeaning(items[i]);
        }
      case TObj(entries) =>
        forall i | 0 <= i < |entries|
          ensures WellFormed(SortObjectKeys(entries[i].value))
          ensures Unordered(SortObjectKeys(entries[i].value)) == Unordered(entries[i].value)
        {
          CanonicalKeepsMeaning(entries[i].value);
        }
        var r := CanonicalEntries(entries);
        ImageKeepsMeaning(entries, r);
      case _ =>
    }
  }

  lemma {:induction false} FieldAt(entries: seq<Entry>, i: nat)
    requires WellFormed(TObj(entries)) && i < |entries|
    ensures entries[i].key in Fields(entries) && Fields(entries)[entries[i].key] == Unordered(entries[i].value)
  {
    var n := |entries| - 1;
    if i < n {
      assert entries[i].key != entries[n].key;
      FieldAt(entries[..n], i);
    }
  }

  lemma {:induction false} FieldFrom(entries: seq<Entry>, key: string) returns (i: nat)
    requires WellFormed(TObj(entries)) && key in Fields(entries)
    ensures i < |entries| && entries[i].key == key
  {
    var n := |entries| - 1;
    if entries[n].key == key { i := n; } else { i := FieldFrom(entries[..n], key); }
  }

  lemma SameMap(a: map<string, Json>, b: map<string, Json>)
    requires forall k :: k in a ==> k in b && a[k] == b[k]
    requires forall k :: k in b ==> k in a
    ensures a == b
  {
  }

  ghost predicate CanonicalValueKept(e: Entry) {
    WellFormed(e.value) && WellFormed(SortObjectKeys(e.value)) && Unordered(SortObjectKeys(e.value)) == Unordered(e.value)
  }

  lemma ImageKeepsMeaning(entries: seq<Entry>, r: seq<Entry>)
    requires WellFormed(TObj(entries)) && DistinctKeys(r) && IsImage(r, entries)
    requires forall i :: 0 <= i < |entries| ==> CanonicalValueKept(entries[i])
    ensures WellFormed(TObj(r)) && Unordered(TObj(r)) == Unordered(TObj(entries))
  {
    forall i | 0 <= i < |r| ensures WellFormed(r[i].value) {
      var j :| 0 <= j < |entries| && r[i] == CanonicalEntry(entries[j]);
    }
    var a, b := Fields(r), Fields(entries);
    forall k | k in a ensures k in b && a[k] == b[k] {
      var i := FieldFrom(r, k);
      var j :| 0 <= j < |entries| && r[i] == CanonicalEntry(entries[j]);
      FieldAt(r, i);
      FieldAt(entries, j);
    }
    forall k | k in b ensures k in a {
      var j := FieldFrom(entries, k);
      var i :| 0 <= i < |r| && r[i] == CanonicalEntry(entries[j]);
      FieldAt(r, i);
    }
    SameMap(a, b);
  }

  /** Two values that differ only in the order of their keys have the same canonical form. */
  lemma {:induction false} SameMeaningSameForm(a: Tree, b: Tree)
    requires WellFormed(a) && WellFormed(b) && Unordered(a) == Unordered(b)
    ensures SortObjectKeys(a) == SortObjectKeys(b)
    decreases a
  {
    match a {
      case TArr(items) =>
        forall i | 0 <= i < |items| ensures SortObjectKeys(items[i]) == SortObjectKeys(b.items[i]) {
          assert Unordered(a).items[i] == Unordered(b).items[i];
          SameMeaningSameForm(items[i], b.items[i]);
        }
      case TObj(entries) =>
        forall i, j | 0 <= i < |entries| && 0 <= j < |b.entries| && entries[i].key == b.entries[j].key
          ensures CanonicalEntry(entries[i]) == CanonicalEntry(b.entries[j])
        {
          FieldAt(entries, i);
          FieldAt(b.entries, j);
          SameMeaningSameForm(entries[i].value, b.entries[j].value);
        }
        SameImages(entries, b.entries);
      case _ =>
    }
  }

  ghost predicate HasMatch(e: Entry, b: seq<Entry>) {
    exists j :: 0 <= j < |b| && CanonicalEntry(b[j]) == CanonicalEntry(e)
  }

  lemma ImagesWithin(a: seq<Entry>, b: seq<Entry>, r: seq<Entry>, s: seq<Entry>)
    requires IsImage(r, a) && IsImage(s, b)
    requires forall i :: 0 <= i < |a| ==> HasMatch(a[i], b)
    ensures Within(r, s)
  {
    forall k | 0 <= k < |r| ensures r[k] in s {
      var e := r[k];
      var i :| 0 <= i < |a| && e == CanonicalEntry(a[i]);
      var j :| 0 <= j < |b| && CanonicalEntry(b[j]) == CanonicalEntry(a[i]);
    }
  }

  lemma MatchingEntries(a: seq<Entry>, b: seq<Entry>)
    requires WellFormed(TObj(a)) && WellFormed(TObj(b)) && Unordered(TObj(a)) == Unordered(TObj(b))
    requires forall i, j :: 0 <= i < |a| && 0 <= j < |b| && a[i].key == b[j].key ==>
               CanonicalEntry(a[i]) == CanonicalEntry(b[j])
    ensures forall i :: 0 <= i < |a| ==> HasMatch(a[i], b)
  {
    forall i | 0 <= i < |a| ensures HasMatch(a[i], b) {
      FieldAt(a, i);
      var j := FieldFrom(b, a[i].key);
      assert CanonicalEntry(b[j]) == CanonicalEntry(a[i]);
    }
  }

  lemma SameImages(a: seq<Entry>, b: seq<Entry>)
    requires WellFormed(TObj(a)) && WellFormed(TObj(b)) && Unordered(TObj(a)) == Unordered(TObj(b))
    requires forall i, j :: 0 <= i < |a| && 0 <= j < |b| && a[i].key == b[j].key ==>
               CanonicalEntry(a[i]) == CanonicalEntry(b[j])
    ensures SortObjectKeys(TObj(a)) == SortObjectKeys(TObj(b))
  {
    var r := CanonicalEntries(a);
    var s := CanonicalEntries(b);
    MatchingEntries(a, b);
    MatchingEntries(b, a);
    ImagesWithin(a, b, r, s);
    ImagesWithin(b, a, s, r);
    OrderedUnique(r, s);
  }

  /** The canonical forms agree exactly if the values do up to the order of keys, at every depth. */
  lemma CanonicalIff(a: Tree, b: Tree)
    requires WellFormed(a) && WellFormed(b)
    ensures SortObjectKeys(a) == SortObjectKeys(b) <==> Unordered(a) == Unordered(b)
  {
    CanonicalKeepsMeaning(a);
    CanonicalKeepsMeaning(b);
    if Unordered(a) == Unordered(b) { SameMeaningSameForm(a, b); }
  }

  /** Canonicalising twice is canonicalising once. */
  lemma CanonicalIdempotent(t: Tree)
    requires WellFormed(t)
    ensures SortObjectKeys(SortObjectKeys(t)) == SortObjectKeys(t)
  {
    CanonicalKeepsMeaning(t);
    SameMeaningSameForm(SortObjectKeys(t), t);
  }

  // ----- the text -----

  /** The tokens of JSON text. */
  datatype Token = Open | Close | OpenList | CloseList | Comma | Colon | Null | Flag(b: bool) | Num(r: real) | Str(s: string)

  /** `JSON.stringify` of a value. */
  function Stringify(t: Tree): (r: seq<Token>)
    ensures r != [] && r[0] != Close && r[0] != CloseList
    decreases t, 0
  {
    match t
    case TNull => [Null]
    case TBool(flag) => [Flag(flag)]
    case TNum(num) => [Num(num)]
    case TStr(text) => [Str(text)]
    case TArr(items) => [OpenList] + StringifyItems(items)
    case TObj(entries) => [Open] + StringifyEntries(entries)
  }

  /** The items up to and including the closing bracket. */
  function StringifyItems(items: seq<Tree>): (r: seq<Token>)
    decreases items, 2
  {
    if items == [] then [CloseList] else Stringify(items[0]) + MoreItems(items[1..])
  }

  function MoreItems(items: seq<Tree>): (r: seq<Token>)
    decreases items, 1
  {
    if items == [] then [CloseList] else [Comma] + (Stringify(items[0]) + MoreItems(items[1..]))
  }

  function StringifyEntry(e: Entry): (r: seq<Token>)
    decreases e, 1
  {
    [Str(e.key), Colon] + Stringify(e.value)
  }

  function StringifyEntries(entries: seq<Entry>): (r: seq<Token>)
    decreases entries, 2
  {
    if entries == [] then [Close] else StringifyEntry(entries[0]) + MoreEntries(entries[1..])
  }

  function MoreEntries(entries: seq<Entry>): (r: seq<Token>)
    decreases entries, 1
  {
    if entries == [] then [Close] else [Comma] + (StringifyEntry(entries[0]) + MoreEntries(entries[1..]))
  }

  function CanonicalText(t: Tree): seq<Token> {
    Stringify(SortObjectKeys(t))
  }

  lemma Cancel(p: seq<Token>, u: seq<Token>, v: seq<Token>)
    requires p + u == p + v
    ensures u == v
  {
    assert u == (p + u)[|p|..] && v == (p + v)[|p|..];
  }

  lemma Associative(a: seq<Token>, b: seq<Token>, c: seq<Token>)
    ensures a + b + c == a + (b + c)
  {
  }

  lemma FirstToken(a: seq<Token>, b: seq<Token>, x: seq<Token>, y: seq<Token>)
    requires a + x == b + y && a != [] && b != []
    ensures a[0] == b[0]
  {
    assert (a + x)[0] == a[0] && (b + y)[0] == b[0];
  }

  /** Whatever follows, a text starts with the text of at most one value. */
  lemma {:induction false} TextDetermines(a: Tree, b: Tree, x: seq<Token>, y: seq<Token>)
    requires Stringify(a) + x == Stringify(b) + y
    ensures a == b && x == y
    decreases a, 0
  {
    FirstToken(Stringify(a), Stringify(b), x, y);
    match a {
      case TArr(items) =>
        Associative([OpenList], StringifyItems(items), x);
        Associative([OpenList], StringifyItems(b.items), y);
        Cancel([OpenList], StringifyItems(items) + x, StringifyItems(b.items) + y);
        ItemsDetermine(items, b.items, x, y);
      case TObj(entries) =>
        Associative([Open], StringifyEntries(entries), x);
        Associative([Open], StringifyEntries(b.entries), y);
        Cancel([Open], StringifyEntries(entries) + x, StringifyEntries(b.entries) + y);
        EntriesDetermine(entries, b.entries, x, y);
      case _ =>
        assert Stringify(a) == Stringify(b);
        Cancel(Stringify(a), x, y);
    }
  }

  lemma {:induction false} ItemDetermines(a: seq<Tree>, b: seq<Tree>, x: seq<Token>, y: seq<Token>)
    requires a != [] && b != []
    requires Stringify(a[0]) + MoreItems(a[1..]) + x == Stringify(b[0]) + MoreItems(b[1..]) + y
    ensures a == b && x == y
    decreases a, 1
  {
    Associative(Stringify(a[0]), MoreItems(a[1..]), x);
    Associative(Stringify(b[0]), MoreItems(b[1..]), y);
    TextDetermines(a[0], b[0], MoreItems(a[1..]) + x, MoreItems(b[1..]) + y);
    MoreItemsDetermine(a[1..], b[1..], x, y);
    assert a == [a[0]] + a[1..] && b == [b[0]] + b[1..];
  }

  lemma {:induction false} ItemsDetermine(a: seq<Tree>, b: seq<Tree>, x: seq<Token>, y: seq<Token>)
    requires StringifyItems(a) + x == StringifyItems(b) + y
    ensures a == b && x == y
    decreases a, 2
  {
    FirstToken(StringifyItems(a), StringifyItems(b), x, y);
    if a != [] && b != [] {
      ItemDetermines(a, b, x, y);
    } else {
      Cancel([CloseList], x, y);
    }
  }

  lemma {:induction false} MoreItemsDetermine(a: seq<Tree>, b: seq<Tree>, x: seq<Token>, y: seq<Token>)
    requires MoreItems(a) + x == MoreItems(b) + y
    ensures a == b && x == y
    decreases a, 2
  {
    FirstToken(MoreItems(a), MoreItems(b), x, y);
    if a != [] && b != [] {
      var s, t := Stringify(a[0]) + MoreItems(a[1..]), Stringify(b[0]) + MoreItems(b[1..]);
      Associative([Comma], s, x);
      Associative([Comma], t, y);
      Cancel([Comma], s + x, t + y);
      ItemDetermines(a, b, x, y);
    } else {
      Cancel([CloseList], x, y);
    }
  }

  lemma {:induction false} EntryDetermines(a: seq<Entry>, b: seq<Entry>, x: seq<Token>, y: seq<Token>)
    requires a != [] && b != []
    requires StringifyEntry(a[0]) + MoreEntries(a[1..]) + x == StringifyEntry(b[0]) + MoreEntries(b[1..]) + y
    ensures a == b && x == y
    decreases a, 1
  {
    var u, v := MoreEntries(a[1..]) + x, MoreEntries(b[1..]) + y;
    Associative(StringifyEntry(a[0]), MoreEntries(a[1..]), x);
    Associative(StringifyEntry(b[0]), MoreEntries(b[1..]), y);
    KeyDetermines(a[0], b[0], u, v);
    TextDetermines(a[0].value, b[0].value, u, v);
    MoreEntriesDetermine(a[1..], b[1..], x, y);
    assert a == [a[0]] + a[1..] && b == [b[0]] + b[1..];
  }

  lemma KeyDetermines(a: Entry, b: Entry, u: seq<Token>, v: seq<Token>)
    requires StringifyEntry(a) + u == StringifyEntry(b) + v
    ensures a.key == b.key && Stringify(a.value) + u == Stringify(b.value) + v
  {
    FirstToken(StringifyEntry(a), StringifyEntry(b), u, v);
    var mark := [Str(a.key), Colon];
    Associative(mark, Stringify(a.value), u);
    Associative(mark, Stringify(b.value), v);
    Cancel(mark, Stringify(a.value) + u, Stringify(b.value) + v);
  }

  lemma {:induction false} EntriesDetermine(a: seq<Entry>, b: seq<Entry>, x: seq<Token>, y: seq<Token>)
    requires StringifyEntries(a) + x == StringifyEntries(b) + y
    ensures a == b && x == y
    decreases a, 2
  {
    FirstToken(StringifyEntries(a), StringifyEntries(b), x, y);
    if a != [] && b != [] {
      EntryDetermines(a, b, x, y);
    } else {
      Cancel([Close], x, y);
    }
  }

  lemma {:induction false} MoreEntriesDetermine(a: seq<Entry>, b: seq<Entry>, x: seq<Token>, y: seq<Token>)
    requires MoreEntries(a) + x == MoreEntries(b) + y
    ensures a == b && x == y
    decreases a, 2
  {
    FirstToken(MoreEntries(a), MoreEntries(b), x, y);
    if a != [] && b != [] {
      var s, t := StringifyEntry(a[0]) + MoreEntries(a[1..]), StringifyEntry(b[0]) + MoreEntries(b[1..]);
      Associative([Comma], s, x);
      Associative([Comma], t, y);
      Cancel([Comma], s + x, t + y);
      EntryDetermines(a, b, x, y);
    } else {
      Cancel([Close], x, y);
    }
  }

  /** Two values have the same canonical text, and so the same hash, exactly if they differ in key order alone. */
  lemma SameTextIff(a: Tree, b: Tree)
    requires WellFormed(a) && WellFormed(b)
    ensures CanonicalText(a) == CanonicalText(b) <==> Unordered(a) == Unordered(b)
  {
    CanonicalIff(a, b);
    if CanonicalText(a) == CanonicalText(b) {
      TextDetermines(SortObjectKeys(a), SortObjectKeys(b), [], []);
    }
  }
}
