/** Optional results. */
module Wrappers {

  datatype Option<+T> = None | Some(value: T)

  function OrElse<T>(o: Option<T>, default: T): T {
    match o
    case None => default
    case Some(v) => v
  }
}

/** The code-unit order on strings, and sets of strings listed in that order. */
module Ordering {

  predicate Le(a: string, b: string) {
    a == "" || (b != "" && (a[0] < b[0] || (a[0] == b[0] && Le(a[1..], b[1..]))))
  }

  lemma {:induction false} LeTotal(a: string, b: string)
    ensures Le(a, b) || Le(b, a)
  {
    if a != "" && b != "" { LeTotal(a[1..], b[1..]); }
  }

  lemma {:induction false} LeAntisymmetric(a: string, b: string)
    requires Le(a, b) && Le(b, a)
    ensures a == b
  {
    if a != "" {
      LeAntisymmetric(a[1..], b[1..]);
      assert a == [a[0]] + a[1..] && b == [b[0]] + b[1..];
    }
  }

  lemma {:induction false} LeTransitive(a: string, b: string, c: string)
    requires Le(a, b) && Le(b, c)
    ensures Le(a, c)
  {
    if a != "" && a[0] == b[0] && b[0] == c[0] { LeTransitive(a[1..], b[1..], c[1..]); }
  }

  /** The order of strings: at the first place where they differ the code units decide, else the shorter is first. */
  ghost predicate DiffersAt(a: string, b: string, i: nat) {
    i < |a| && i < |b| && a[i] < b[i] && a[..i] == b[..i]
  }

  lemma SameBefore(a: string, b: string, i: nat)
    requires DiffersAt(a, b, i) && i > 0
    ensures a[0] == b[0]
  {
    assert a[..i][0] == a[0] && b[..i][0] == b[0];
  }

  lemma {:induction false} LeIff(a: string, b: string)
    ensures Le(a, b) <==> a <= b || exists i: nat :: DiffersAt(a, b, i)
  {
    if a == "" {
    } else if b == "" || a[0] != b[0] {
      if a[0..1] != [] && b != "" && a[0] < b[0] { assert DiffersAt(a, b, 0); }
      if i: nat :| DiffersAt(a, b, i) {
        if i > 0 { SameBefore(a, b, i); }
      }
    } else {
      var c, d := a[1..], b[1..];
      LeIff(c, d);
      assert a == [a[0]] + c && b == [b[0]] + d;
      if i: nat :| DiffersAt(c, d, i) {
        assert a[..i + 1] == [a[0]] + c[..i] && b[..i + 1] == [b[0]] + d[..i];
        assert DiffersAt(a, b, i + 1);
      }
      if i: nat :| DiffersAt(a, b, i) {
        assert i > 0;
        assert c[..i - 1] == a[..i][1..] && d[..i - 1] == b[..i][1..];
        assert DiffersAt(c, d, i - 1);
      }
    }
  }

  ghost predicate IsLeast(x: string, s: set<string>) {
    x in s && forall y <- s :: Le(x, y)
  }

  lemma {:induction false} LeastExists(s: set<string>)
    requires s != {}
    ensures exists x :: IsLeast(x, s)
    decreases |s|
  {
    var x :| x in s;
    LeTotal(x, x);
    if s == {x} {
      assert IsLeast(x, s);
    } else {
      var rest := s - {x};
      assert s == rest + {x};
      LeastExists(rest);
      var y :| IsLeast(y, rest);
      LeTotal(x, y);
      var least := if Le(x, y) then x else y;
      forall z | z in s ensures Le(least, z) {
        if z != x && Le(x, y) { LeTransitive(x, y, z); }
      }
      assert IsLeast(least, s);
    }
  }

  lemma LeastUnique(x: string, y: string, s: set<string>)
    requires IsLeast(x, s) && IsLeast(y, s)
    ensures x == y
  {
    LeAntisymmetric(x, y);
  }

  ghost function Least(s: set<string>): (x: string)
    requires s != {}
    ensures IsLeast(x, s)
  {
    LeastExists(s);
    var x :| IsLeast(x, s);
    x
  }

  ghost function SortedSeq(s: set<string>): (r: seq<string>)
    ensures |r| == |s|
    ensures forall x :: x in r <==> x in s
    decreases |s|
  {
    if s == {} then [] else [Least(s)] + SortedSeq(s - {Least(s)})
  }

  ghost predicate Distinct<T>(s: seq<T>) {
    forall i: nat, j: nat :: i < j < |s| ==> s[i] != s[j]
  }

  ghost predicate Ascending(s: seq<string>) {
    forall i: nat, j: nat :: i < j < |s| ==> Le(s[i], s[j])
  }

  lemma {:induction false} SortedSeqOrdered(s: set<string>)
    ensures Distinct(SortedSeq(s)) && Ascending(SortedSeq(s))
    decreases |s|
  {
    if s != {} {
      var x := Least(s);
      SortedSeqOrdered(s - {x});
      var r := SortedSeq(s - {x});
      assert forall i: nat :: i < |r| ==> r[i] in s - {x};
      assert SortedSeq(s) == [x] + r;
    }
  }

  method FindLeast(s: set<string>) returns (x: string)
    requires s != {}
    ensures x == Least(s)
  {
    x :| x in s;
    var rest := s - {x};
    LeTotal(x, x);
    while rest != {}
      invariant rest <= s && x in s
      invariant forall y <- s - rest :: Le(x, y)
      decreases |rest|
    {
      var y :| y in rest;
      LeTotal(x, y);
      LeTotal(y, y);
      if !Le(x, y) {
        forall z | z in s - rest ensures Le(y, z) { LeTransitive(y, x, z); }
        x := y;
      }
      rest := rest - {y};
    }
    LeastUnique(x, Least(s), s);
  }

  lemma Regroup(r: seq<string>, x: string, tail: seq<string>)
    ensures r + ([x] + tail) == r + [x] + tail
  {
  }

  method SortSet(s: set<string>) returns (r: seq<string>)
    ensures r == SortedSeq(s)
  {
    r := [];
    var rest := s;
    while rest != {}
      invariant r + SortedSeq(rest) == SortedSeq(s)
      decreases |rest|
    {
      var x := FindLeast(rest);
      Regroup(r, x, SortedSeq(rest - {x}));
      r := r + [x];
      rest := rest - {x};
    }
  }
}

/** Decimal numerals of natural numbers. */
module Decimal {

  const DIGITS := "0123456789"

  predicate IsDigit(c: char) {
    '0' <= c <= '9'
  }

  predicate AllDigits(s: string) {
    forall i :: 0 <= i < |s| ==> IsDigit(s[i])
  }

  function DigitValue(c: char): nat
    requires IsDigit(c)
  {
    c as int - '0' as int
  }

  function Print(n: nat): (s: string)
    ensures s != "" && AllDigits(s)
    ensures n > 0 ==> s[0] != '0'
  {
    if n < 10 then [DIGITS[n]] else Print(n / 10) + [DIGITS[n % 10]]
  }

  function Value(s: string): nat
    requires AllDigits(s)
  {
    if s == "" then 0 else 10 * Value(s[..|s| - 1]) + DigitValue(s[|s| - 1])
  }

  /** What `String(n)` prints: no superfluous leading zero. */
  predicate IsNumeral(s: string) {
    s != "" && AllDigits(s) && (s[0] == '0' ==> |s| == 1)
  }

  lemma DigitOf(d: nat)
    requires d < 10
    ensures IsDigit(DIGITS[d]) && DigitValue(DIGITS[d]) == d
  {
  }

  lemma {:induction false} PrintThenValue(n: nat)
    ensures Value(Print(n)) == n && IsNumeral(Print(n))
  {
    DigitOf(n % 10);
    if n >= 10 {
      PrintThenValue(n / 10);
      var s := Print(n);
      assert s[..|s| - 1] == Print(n / 10);
    }
  }

  lemma {:induction false} ValueThenPrint(s: string)
    requires IsNumeral(s)
    ensures Print(Value(s)) == s
    ensures |s| > 1 ==> Value(s) >= 10
  {
    var front, last := s[..|s| - 1], s[|s| - 1];
    assert s == front + [last];
    assert DIGITS[DigitValue(last)] == last;
    if |s| > 1 {
      ValueThenPrint(front);
      assert Value(front) > 0 by {
        if |front| == 1 { assert front[..0] == ""; assert Value(front) == DigitValue(front[0]); }
      }
      assert Value(s) / 10 == Value(front) && Value(s) % 10 == DigitValue(last);
    } else {
      assert front == "";
    }
  }

  /** A string splits in at most one way into a part ending in a non-digit and trailing digits. */
  lemma TrailingDigitsUnique(p: string, d: string, q: string, e: string)
    requires p + d == q + e
    requires AllDigits(d) && AllDigits(e)
    requires p != "" && !IsDigit(p[|p| - 1]) && q != "" && !IsDigit(q[|q| - 1])
    ensures p == q && d == e
  {
    var s := p + d;
    assert forall i :: |p| <= i < |s| ==> IsDigit(s[i]);
    assert forall i :: |q| <= i < |s| ==> IsDigit((q + e)[i]);
    assert s[|p| - 1] == p[|p| - 1] && (q + e)[|q| - 1] == q[|q| - 1];
    assert |p| == |q|;
    assert p == s[..|p|] && q == s[..|q|] && d == s[|p|..] && e == s[|q|..];
  }
}

/** Sorting integers. */
module IntSorting {

  ghost predicate SortedInts(s: seq<int>) {
    forall i, j :: 0 <= i < j < |s| ==> s[i] <= s[j]
  }

  function Insert(s: seq<int>, x: int): (r: seq<int>)
    ensures |r| == |s| + 1
  {
    if s == [] || s[|s| - 1] <= x then s + [x] else Insert(s[..|s| - 1], x) + [s[|s| - 1]]
  }

  lemma {:induction false} InsertAddsOne(s: seq<int>, x: int)
    ensures multiset(Insert(s, x)) == multiset(s) + multiset{x}
  {
    if !(s == [] || s[|s| - 1] <= x) {
      InsertAddsOne(s[..|s| - 1], x);
      assert s == s[..|s| - 1] + [s[|s| - 1]];
    }
  }

  lemma {:induction false} InsertKeepsOrder(s: seq<int>, x: int)
    requires SortedInts(s)
    ensures SortedInts(Insert(s, x))
    ensures var r := Insert(s, x); r[|s|] == if s != [] && x < s[|s| - 1] then s[|s| - 1] else x
  {
    if !(s == [] || s[|s| - 1] <= x) {
      InsertKeepsOrder(s[..|s| - 1], x);
    }
  }

  method SortInts(s: seq<int>) returns (r: seq<int>)
    ensures multiset(r) == multiset(s) && SortedInts(r)
  {
    r := [];
    for i := 0 to |s|
      invariant SortedInts(r) && multiset(r) == multiset(s[..i])
    {
      assert s[..i + 1] == s[..i] + [s[i]];
      InsertAddsOne(r, s[i]);
      InsertKeepsOrder(r, s[i]);
      r := Insert(r, s[i]);
    }
    assert s[..|s|] == s;
  }

  ghost predicate Increasing(s: seq<int>) {
    forall i, j :: 0 <= i < j < |s| ==> s[i] < s[j]
  }

  lemma InsertNewKey(keys: seq<int>, k: int)
    requires Increasing(keys) && k !in keys
    ensures Increasing(Insert(keys, k))
    ensures forall x :: x in Insert(keys, k) <==> x in keys || x == k
  {
    var more := Insert(keys, k);
    InsertAddsOne(keys, k);
    InsertKeepsOrder(keys, k);
    assert multiset(keys + [k]) == multiset(more);
    DistinctIfSameMultiset(keys + [k], more);
    SameElementsIfSameMultiset(keys + [k], more);
  }

  lemma HasElement(s: set<int>)
    requires s != {}
    ensures exists k :: k in s
  {
    assert (forall k :: k in s ==> k in {}) ==> s <= {};
  }

  method SortKeys(s: set<int>) returns (keys: seq<int>)
    ensures forall k :: k in keys <==> k in s
    ensures Increasing(keys)
  {
    keys := [];
    var todo := s;
    while todo != {}
      invariant todo <= s
      invariant forall k :: k in keys <==> k in s - todo
      invariant Increasing(keys)
      decreases |todo|
    {
      HasElement(todo);
      var k :| k in todo;
      InsertNewKey(keys, k);
      keys := Insert(keys, k);
      todo := todo - {k};
    }
  }

  lemma SameElementsIfSameMultiset(a: seq<int>, b: seq<int>)
    requires multiset(a) == multiset(b)
    ensures forall k :: k in a <==> k in b
  {
    assert forall k :: k in a <==> k in multiset(a);
    assert forall k :: k in b <==> k in multiset(b);
  }

  lemma DistinctIfSameMultiset(a: seq<int>, b: seq<int>)
    requires multiset(a) == multiset(b)
    requires forall i, j :: 0 <= i < j < |a| ==> a[i] != a[j]
    ensures forall i, j :: 0 <= i < j < |b| ==> b[i] != b[j]
  {
    forall i, j | 0 <= i < j < |b| ensures b[i] != b[j] {
      if b[i] == b[j] {
        assert b == b[..i] + [b[i]] + b[i + 1..j] + [b[j]] + b[j + 1..];
        assert multiset(b)[b[i]] >= 2;
        AtMostOnce(a, b[i]);
      }
    }
  }

  lemma {:induction false} AtMostOnce(a: seq<int>, x: int)
    requires forall i, j :: 0 <= i < j < |a| ==> a[i] != a[j]
    ensures multiset(a)[x] <= 1
  {
    if a != [] {
      var n := |a| - 1;
      assert a == a[..n] + [a[n]];
      AtMostOnce(a[..n], x);
      assert a[n] !in a[..n];
    }
  }
}

/** ASCII letters. */
module Ascii {

  function LowerChar(c: char): char {
    if 'A' <= c <= 'Z' then (c as int - 'A' as int + 'a' as int) as char else c
  }

  function Lower(s: string): (r: string)
    ensures |r| == |s|
    ensures forall i :: 0 <= i < |s| ==> r[i] == LowerChar(s[i])
  {
    seq(|s|, i requires 0 <= i < |s| => LowerChar(s[i]))
  }
}
