/**
 When the number of type mismatches depends on the order in which events are replayed.

 At one key, replayed types are played one by one against a bucket of timeline types: a type takes
 its own from the bucket, else the least type left, else nothing.
 */
module ReconcileOrder {
  import opened Ordering
  import opened Reconcile

  type Types = multiset<string>

  /** What is left of the bucket, who has taken their own, who has taken what instead, and who nothing. */
  datatype Play = Play(left: Types, own: Types, thieves: Types, stolen: Types, unpaired: Types)

  ghost function Step(p: Play, t: string): Play {
    if t in p.left then p.(left := p.left - multiset{t}, own := p.own + multiset{t})
    else if p.left != multiset{} then
      var c := Counterpart(p.left);
      p.(left := p.left - multiset{c}, thieves := p.thieves + multiset{t}, stolen := p.stolen + multiset{c})
    else p.(unpaired := p.unpaired + multiset{t})
  }

  ghost function PlayFrom(p: Play, types: seq<string>): Play {
    if types == [] then p else Step(PlayFrom(p, types[..|types| - 1]), types[|types| - 1])
  }

  function Start(bucket: Types): Play {
    Play(bucket, multiset{}, multiset{}, multiset{}, multiset{})
  }

  ghost function PlayAll(bucket: Types, types: seq<string>): Play {
    PlayFrom(Start(bucket), types)
  }

  lemma PlayOneMore(p: Play, types: seq<string>, t: string)
    ensures PlayFrom(p, types + [t]) == Step(PlayFrom(p, types), t)
  {
    assert (types + [t])[..|types|] == types;
  }

  lemma SplitLast(a: seq<string>, b: seq<string>)
    requires b != []
    ensures b == b[..|b| - 1] + [b[|b| - 1]] && a + b == a + b[..|b| - 1] + [b[|b| - 1]]
  {
  }

  lemma {:induction false} PlayOn(p: Play, a: seq<string>, b: seq<string>)
    ensures PlayFrom(p, a + b) == PlayFrom(PlayFrom(p, a), b)
  {
    if b == [] {
      assert a + b == a;
    } else {
      var front, last := b[..|b| - 1], b[|b| - 1];
      PlayOn(p, a, front);
      SplitLast(a, b);
      PlayOneMore(p, a + front, last);
      PlayOneMore(PlayFrom(p, a), front, last);
    }
  }

  // ----- what every play keeps -----

  ghost predicate Before(c: string, b: string) {
    Le(c, b) && c != b
  }

  /** Nothing is lost on either side; every theft has a thief; a type is stolen only when all before it are gone. */
  ghost predicate Accounts(p: Play, bucket: Types, played: Types) {
    && bucket == p.left + p.own + p.stolen
    && played == p.own + p.thieves + p.unpaired
    && |p.thieves| == |p.stolen|
    && (p.unpaired != multiset{} ==> p.left == multiset{})
    && (forall b, c :: b in p.stolen && Before(c, b) ==> c !in p.left)
  }

  lemma StepAccounts(p: Play, bucket: Types, played: Types, t: string)
    requires Accounts(p, bucket, played)
    ensures Accounts(Step(p, t), bucket, played + multiset{t})
  {
    if t !in p.left && p.left != multiset{} {
      var c := Counterpart(p.left);
      assert p.left == (p.left - multiset{c}) + multiset{c};
      forall d | Before(d, c) ensures d !in p.left {
        if d in p.left {
          assert d in TypeSet(p.left);
          LeAntisymmetric(c, d);
        }
      }
    }
  }

  lemma {:induction false} PlayAccounts(bucket: Types, types: seq<string>)
    ensures Accounts(PlayAll(bucket, types), bucket, multiset(types))
  {
    if types != [] {
      var n := |types| - 1;
      PlayAccounts(bucket, types[..n]);
      StepAccounts(PlayAll(bucket, types[..n]), bucket, multiset(types[..n]), types[n]);
      assert types == types[..n] + [types[n]];
    }
  }

  function Min(a: nat, b: nat): nat {
    if a <= b then a else b
  }

  lemma SubCard(a: Types, b: Types)
    requires a <= b
    ensures |a| <= |b| && (|a| == |b| ==> a == b)
  {
    assert b == a + (b - a);
    if |a| == |b| { assert |b - a| == 0; }
  }

  /** Own and mismatched events are as many as the smaller side; a type takes no more of its own than both sides have. */
  lemma PairsAddUp(bucket: Types, types: seq<string>)
    ensures var p := PlayAll(bucket, types);
            && |p.own| + |p.thieves| == Min(|types|, |bucket|)
            && p.own <= multiset(types) * bucket
            && |p.own| <= |multiset(types) * bucket|
  {
    PlayAccounts(bucket, types);
    var p := PlayAll(bucket, types);
    SubCard(p.own, multiset(types) * bucket);
    assert |multiset(types)| == |types|;
  }

  // ----- when every order lets all have their own -----

  /** The part of the bucket up to a type. */
  ghost function UpToType(m: Types, b: string): (r: Types)
    ensures forall t :: r[t] == if Le(t, b) then m[t] else 0
    decreases |m|
  {
    if m == multiset{} then multiset{}
    else
      assert exists t :: t in m;
      var t :| t in m;
      assert m == (m - multiset{t}) + multiset{t};
      var rest := UpToType(m - multiset{t}, b);
      if Le(t, b) then rest + multiset{t} else rest
  }

  /**
   For every type on both sides: the excess events of the other types are no more than the surplus of
   the timeline in the types up to it, which they take first.
   */
  ghost predicate Settled(replayed: Types, bucket: Types) {
    forall b :: b in replayed && b in bucket ==>
      |replayed - bucket| - (replayed - bucket)[b] <= |UpToType(bucket - replayed, b)|
  }

  lemma WithoutOne(m: Types, a: Types, b: string)
    requires a <= m && b !in a
    ensures |a| <= |m| - m[b]
  {
    var rest := m[b := 0];
    assert a <= rest;
    SubCard(a, rest);
  }

  /** Of each type: where the bucket's have gone, and what the replayed have got. */
  lemma AccountsOf(p: Play, bucket: Types, played: Types, t: string)
    requires Accounts(p, bucket, played) && p.own == played * bucket
    ensures bucket[t] == p.left[t] + Min(played[t], bucket[t]) + p.stolen[t]
    ensures p.thieves[t] <= Excess(played[t], bucket[t])
  {
    assert played[t] == p.own[t] + p.thieves[t] + p.unpaired[t];
    assert p.own[t] == Min(played[t], bucket[t]);
  }

  lemma StolenOf(p: Play, bucket: Types, played: Types, replayed: Types, b: string, c: string)
    requires Accounts(p, bucket, played) && p.own == played * bucket && played <= replayed
    requires played[b] < replayed[b] && played[b] < bucket[b] && b !in p.left
    ensures b in p.stolen
    ensures p.stolen[c] >= if c == b then Excess(bucket[c], replayed[c]) + 1
                           else if Le(c, b) then Excess(bucket[c], replayed[c]) else 0
  {
    AccountsOf(p, bucket, played, b);
    AccountsOf(p, bucket, played, c);
    assert played[c] <= replayed[c];
    if Le(c, b) && c != b { assert Before(c, b) && c !in p.left; }
  }

  /** Where a type has been robbed of its own before others of it are to come, the thieves are too many. */
  lemma TooManyThieves(p: Play, bucket: Types, played: Types, replayed: Types, b: string)
    requires Accounts(p, bucket, played) && p.own == played * bucket && played <= replayed
    requires played[b] < replayed[b] && played[b] < bucket[b] && b !in p.left
    ensures |replayed - bucket| - (replayed - bucket)[b] > |UpToType(bucket - replayed, b)|
  {
    var surplus := UpToType(bucket - replayed, b);
    forall c ensures (surplus + multiset{b})[c] <= p.stolen[c] {
      StolenOf(p, bucket, played, replayed, b, c);
    }
    SubCard(surplus + multiset{b}, p.stolen);
    FewThieves(p, bucket, played, replayed, b);
  }

  lemma FewThieves(p: Play, bucket: Types, played: Types, replayed: Types, b: string)
    requires Accounts(p, bucket, played) && p.own == played * bucket && played <= replayed
    requires played[b] < bucket[b]
    ensures |p.thieves| <= |replayed - bucket| - (replayed - bucket)[b]
  {
    forall a ensures p.thieves[a] <= (replayed - bucket)[a] {
      AccountsOf(p, bucket, played, a);
      assert played[a] <= replayed[a];
    }
    AccountsOf(p, bucket, played, b);
    WithoutOne(replayed - bucket, p.thieves, b);
  }

  lemma OwnOneMore(p: Play, bucket: Types, played: Types, t: string)
    requires Accounts(p, bucket, played) && p.own == played * bucket
    requires t in p.left || played[t] >= bucket[t]
    ensures Step(p, t).own == (played + multiset{t}) * bucket
  {
    AccountsOf(p, bucket, played, t);
    if t in p.left {
      assert p.own + multiset{t} == (played + multiset{t}) * bucket;
    } else {
      assert p.own == (played + multiset{t}) * bucket;
    }
  }

  lemma SettledStep(p: Play, bucket: Types, played: Types, replayed: Types, b: string)
    requires Accounts(p, bucket, played) && p.own == played * bucket
    requires Settled(replayed, bucket) && played + multiset{b} <= replayed
    ensures Step(p, b).own == (played + multiset{b}) * bucket
  {
    assert (played + multiset{b})[b] <= replayed[b];
    if b !in p.left && played[b] < bucket[b] {
      MultisetLeTrans(played, played + multiset{b}, replayed);
      TooManyThieves(p, bucket, played, replayed, b);
      assert false;
    }
    OwnOneMore(p, bucket, played, b);
  }

  lemma {:induction false} SettledFront(bucket: Types, types: seq<string>, replayed: Types)
    requires Settled(replayed, bucket) && multiset(types) <= replayed
    ensures PlayAll(bucket, types).own == multiset(types) * bucket
  {
    if types != [] {
      var n := |types| - 1;
      var front := types[..n];
      assert types == front + [types[n]];
      assert multiset(types) == multiset(front) + multiset{types[n]};
      MultisetLeTrans(multiset(front), multiset(types), replayed);
      SettledFront(bucket, front, replayed);
      PlayAccounts(bucket, front);
      SettledStep(PlayAll(bucket, front), bucket, multiset(front), replayed, types[n]);
    }
  }

  // ----- an order in which they do not -----

  ghost function SomeOrder(m: Types): (s: seq<string>)
    ensures multiset(s) == m
    decreases |m|
  {
    if m == multiset{} then []
    else
      assert exists t :: t in m;
      var t :| t in m;
      assert m == (m - multiset{t}) + multiset{t};
      SomeOrder(m - multiset{t}) + [t]
  }

  lemma TakeOwn(p: Play, own: Types, t: string)
    requires own + multiset{t} <= p.left
    ensures Step(p.(left := p.left - own, own := p.own + own), t)
         == p.(left := p.left - (own + multiset{t}), own := p.own + (own + multiset{t}))
  {
    assert (own + multiset{t})[t] <= p.left[t];
    assert p.left - own - multiset{t} == p.left - (own + multiset{t});
    assert p.own + own + multiset{t} == p.own + (own + multiset{t});
  }

  lemma {:induction false} AllTakeTheirOwn(p: Play, types: seq<string>)
    requires multiset(types) <= p.left
    ensures PlayFrom(p, types) == p.(left := p.left - multiset(types), own := p.own + multiset(types))
  {
    if types == [] {
      assert p.left - multiset{} == p.left && p.own + multiset{} == p.own;
    } else {
      var n := |types| - 1;
      assert types == types[..n] + [types[n]];
      assert multiset(types) == multiset(types[..n]) + multiset{types[n]};
      AllTakeTheirOwn(p, types[..n]);
      TakeOwn(p, multiset(types[..n]), types[n]);
    }
  }

  lemma NoneUpTo(left: Types, b: string)
    requires left != multiset{} && !Le(Counterpart(left), b)
    ensures forall t :: t in left ==> !Le(t, b)
  {
    var c := Counterpart(left);
    forall t | t in left ensures !Le(t, b) {
      assert t in TypeSet(left) && Le(c, t);
      if Le(t, b) { LeTransitive(c, t, b); }
    }
  }

  lemma EmptyUpTo(m: Types, b: string)
    requires forall t :: t in m ==> !Le(t, b)
    ensures UpToType(m, b) == multiset{}
  {
  }

  lemma TakeLeast(left: Types, b: string)
    requires left != multiset{}
    ensures |UpToType(left - multiset{Counterpart(left)}, b)| == Excess(|UpToType(left, b)|, 1)
  {
    var c := Counterpart(left);
    var rest := left - multiset{c};
    assert left == rest + multiset{c};
    if Le(c, b) {
      assert UpToType(left, b) == UpToType(rest, b) + multiset{c};
    } else {
      NoneUpTo(left, b);
      EmptyUpTo(left, b);
      EmptyUpTo(rest, b);
    }
  }

  lemma ThiefStep(p: Play, t: string, b: string)
    requires t !in p.left
    ensures var q := Step(p, t);
            q.left <= p.left && q.own == p.own && |UpToType(q.left, b)| == Excess(|UpToType(p.left, b)|, 1)
  {
    if p.left != multiset{} {
      TakeLeast(p.left, b);
    } else {
      assert UpToType(p.left, b) == multiset{};
    }
  }

  /** Events with none of their own left take the least types first. */
  lemma {:induction false} ThievesTakeLeast(p: Play, types: seq<string>, b: string)
    requires forall t <- types :: t !in p.left
    ensures var q := PlayFrom(p, types);
            q.left <= p.left && q.own == p.own && |UpToType(q.left, b)| == Excess(|UpToType(p.left, b)|, |types|)
  {
    if types != [] {
      var n := |types| - 1;
      var q := PlayFrom(p, types[..n]);
      assert types[n] in types;
      assert forall t <- types[..n] :: t in types;
      ThievesTakeLeast(p, types[..n], b);
      assert types[n] !in q.left by { assert q.left[types[n]] <= p.left[types[n]]; }
      ThiefStep(q, types[n], b);
      MultisetLeTrans(Step(q, types[n]).left, q.left, p.left);
    }
  }

  lemma MultisetLeTrans(a: Types, b: Types, c: Types)
    requires a <= b && b <= c
    ensures a <= c
  {
    forall t ensures a[t] <= c[t] { assert b[t] <= c[t]; }
  }

  lemma {:induction false} OwnOnlyFromLeft(p: Play, types: seq<string>, b: string)
    ensures PlayFrom(p, types).own[b] + PlayFrom(p, types).left[b] <= p.own[b] + p.left[b]
  {
    if types != [] { OwnOnlyFromLeft(p, types[..|types| - 1], b); }
  }

  /** First the own of all other types, then their excess, and the type b last. */
  ghost function RobbingOrder(replayed: Types, bucket: Types, b: string): (types: seq<string>)
    ensures multiset(types) == replayed
  {
    var own, excess, last := (replayed * bucket)[b := 0], (replayed - bucket)[b := 0], multiset{}[b := replayed[b]];
    assert replayed == own + excess + last;
    SomeOrder(own) + SomeOrder(excess) + SomeOrder(last)
  }

  lemma LeftOf(replayed: Types, bucket: Types, b: string, t: string)
    ensures (bucket - (replayed * bucket)[b := 0])[t] == if t == b then bucket[t] else Excess(bucket[t], replayed[t])
  {
    assert (replayed * bucket)[b := 0][t] == if t == b then 0 else Min(replayed[t], bucket[t]);
  }

  lemma AfterOwn(replayed: Types, bucket: Types, b: string)
    ensures var left := bucket - (replayed * bucket)[b := 0];
            && |UpToType(left, b)| == |UpToType(bucket - replayed, b)| + Min(replayed[b], bucket[b])
            && forall a :: a in (replayed - bucket)[b := 0] ==> a !in left
  {
    var left := bucket - (replayed * bucket)[b := 0];
    var surplus, back := UpToType(bucket - replayed, b), multiset{}[b := Min(replayed[b], bucket[b])];
    LeTotal(b, b);
    var all := UpToType(left, b);
    forall t ensures all[t] == (surplus + back)[t] {
      LeftOf(replayed, bucket, b, t);
    }
    assert all == surplus + back;
    forall a | a in (replayed - bucket)[b := 0] ensures a !in left {
      LeftOf(replayed, bucket, b, a);
    }
  }

  lemma LastOne(left: Types, b: string)
    ensures left[b] <= |UpToType(left, b)|
  {
    assert Le(b, b) by { LeTotal(b, b); }
    SubCard(multiset{}[b := left[b]], UpToType(left, b));
  }

  lemma RobbedInOrder(replayed: Types, bucket: Types, b: string)
    requires b in replayed && b in bucket
    requires |replayed - bucket| - (replayed - bucket)[b] > |UpToType(bucket - replayed, b)|
    ensures PlayAll(bucket, RobbingOrder(replayed, bucket, b)).own[b] < Min(replayed[b], bucket[b])
  {
    var own, excess, last := (replayed * bucket)[b := 0], (replayed - bucket)[b := 0], multiset{}[b := replayed[b]];
    var u, v, w := SomeOrder(own), SomeOrder(excess), SomeOrder(last);
    PlayOn(Start(bucket), u, v);
    PlayOn(Start(bucket), u + v, w);
    OthersTakeTheirOwn(replayed, bucket, b, u);
    RobbedThen(PlayAll(bucket, u), replayed, bucket, b, v, w);
  }

  lemma OthersTakeTheirOwn(replayed: Types, bucket: Types, b: string, u: seq<string>)
    requires multiset(u) == (replayed * bucket)[b := 0]
    ensures PlayAll(bucket, u).left == bucket - (replayed * bucket)[b := 0] && PlayAll(bucket, u).own[b] == 0
  {
    var own := (replayed * bucket)[b := 0];
    forall t ensures own[t] <= bucket[t] {
      assert own[t] == if t == b then 0 else Min(replayed[t], bucket[t]);
    }
    AllTakeTheirOwn(Start(bucket), u);
    assert (multiset{} + own)[b] == 0;
  }

  lemma RobbedThen(p: Play, replayed: Types, bucket: Types, b: string, v: seq<string>, w: seq<string>)
    requires b in replayed && b in bucket
    requires |replayed - bucket| - (replayed - bucket)[b] > |UpToType(bucket - replayed, b)|
    requires p.left == bucket - (replayed * bucket)[b := 0] && p.own[b] == 0
    requires multiset(v) == (replayed - bucket)[b := 0]
    ensures PlayFrom(PlayFrom(p, v), w).own[b] < Min(replayed[b], bucket[b])
  {
    AfterOwn(replayed, bucket, b);
    forall t <- v ensures t !in p.left { assert t in multiset(v); }
    ThievesTakeLeast(p, v, b);
    assert |v| == |multiset(v)|;
    var q := PlayFrom(p, v);
    LastOne(q.left, b);
    OwnOnlyFromLeft(q, w, b);
  }

  /** An order in which every type takes all it can of its own: the own first. */
  lemma OwnFirst(replayed: Types, bucket: Types) returns (types: seq<string>)
    ensures multiset(types) == replayed && PlayAll(bucket, types).own == replayed * bucket
  {
    var u, v := SomeOrder(replayed * bucket), SomeOrder(replayed - bucket);
    types := u + v;
    assert replayed == replayed * bucket + (replayed - bucket);
    PlayOn(Start(bucket), u, v);
    AllTakeTheirOwn(Start(bucket), u);
    OwnGrows(PlayAll(bucket, u), v);
    PairsAddUp(bucket, types);
    SubCard(replayed * bucket, PlayAll(bucket, types).own);
  }

  lemma {:induction false} OwnGrows(p: Play, types: seq<string>)
    ensures p.own <= PlayFrom(p, types).own
  {
    if types != [] { OwnGrows(p, types[..|types| - 1]); }
  }

  // ----- the number of mismatches at one key -----

  ghost function MismatchCount(bucket: Types, types: seq<string>): nat {
    |PlayAll(bucket, types).thieves|
  }

  /** The fewest mismatches there can be: all pairs but those of the common types. */
  function Fewest(replayed: Types, bucket: Types): int {
    Min(|replayed|, |bucket|) - |replayed * bucket|
  }

  lemma MismatchesLeft(replayed: Types, bucket: Types, types: seq<string>)
    requires multiset(types) == replayed
    ensures MismatchCount(bucket, types) >= Fewest(replayed, bucket)
    ensures MismatchCount(bucket, types) == Fewest(replayed, bucket) <==> PlayAll(bucket, types).own == replayed * bucket
  {
    PairsAddUp(bucket, types);
    assert |multiset(types)| == |types|;
    SubCard(PlayAll(bucket, types).own, replayed * bucket);
  }

  /** Every order has at least min(R, T) less the common types as mismatches, and some order has no more. */
  lemma FewestMismatches(replayed: Types, bucket: Types) returns (best: seq<string>)
    ensures forall types :: multiset(types) == replayed ==> MismatchCount(bucket, types) >= Fewest(replayed, bucket)
    ensures multiset(best) == replayed && MismatchCount(bucket, best) == Fewest(replayed, bucket)
  {
    forall types | multiset(types) == replayed ensures MismatchCount(bucket, types) >= Fewest(replayed, bucket) {
      MismatchesLeft(replayed, bucket, types);
    }
    best := OwnFirst(replayed, bucket);
    MismatchesLeft(replayed, bucket, best);
  }

  lemma SettledIsFewest(replayed: Types, bucket: Types, types: seq<string>)
    requires Settled(replayed, bucket) && multiset(types) == replayed
    ensures MismatchCount(bucket, types) == Fewest(replayed, bucket)
  {
    SettledFront(bucket, types, replayed);
    MismatchesLeft(replayed, bucket, types);
  }

  lemma UnsettledHasMore(replayed: Types, bucket: Types) returns (types: seq<string>)
    requires !Settled(replayed, bucket)
    ensures multiset(types) == replayed && MismatchCount(bucket, types) > Fewest(replayed, bucket)
  {
    var b :| b in replayed && b in bucket &&
      |replayed - bucket| - (replayed - bucket)[b] > |UpToType(bucket - replayed, b)|;
    types := RobbingOrder(replayed, bucket, b);
    RobbedInOrder(replayed, bucket, b);
    MismatchesLeft(replayed, bucket, types);
    assert (replayed * bucket)[b] == Min(replayed[b], bucket[b]);
  }

  // ----- the number of mismatches that reconciling reports -----

  /** The types replayed at a key, in order. */
  function TypesOf(replayed: seq<Keyed>, key: int): seq<string> {
    if replayed == [] then []
    else
      var n := |replayed| - 1;
      var front := TypesOf(replayed[..n], key);
      if replayed[n].key == key then front + [replayed[n].event_type] else front
  }

  function KeysOf(mismatches: seq<TypeMismatch>): (r: seq<int>)
    ensures |r| == |mismatches|
  {
    seq(|mismatches|, i requires 0 <= i < |mismatches| => mismatches[i].sequence)
  }

  /** The mismatches that reconciling reports at a key. */
  ghost function MismatchesAt(timeline: seq<Keyed>, replayed: seq<Keyed>, key: int): nat {
    multiset(KeysOf(ConsumeAll(IndexOf(timeline), replayed).mismatches))[key]
  }

  lemma MismatchKeys(p: Progress, e: Keyed, key: int)
    ensures multiset(KeysOf(Consume(p, e).mismatches))[key] == multiset(KeysOf(p.mismatches))[key] +
            if e.key == key && e.event_type !in At(p.index, key) && At(p.index, key) != multiset{} then 1 else 0
  {
    var m, n := p.mismatches, Consume(p, e).mismatches;
    if m != n { assert KeysOf(n) == KeysOf(m) + [e.key]; }
  }

  /** At each key reconciling plays that key's types against that key's bucket. */
  lemma {:induction false} PlayedAtKey(index: Index, replayed: seq<Keyed>, key: int)
    ensures var p, q := ConsumeAll(index, replayed), PlayAll(At(index, key), TypesOf(replayed, key));
            At(p.index, key) == q.left && multiset(KeysOf(p.mismatches))[key] == |q.thieves|
  {
    if replayed == [] {
      assert KeysOf([]) == [];
    } else {
      var n := |replayed| - 1;
      var e, front := replayed[n], TypesOf(replayed[..n], key);
      PlayedAtKey(index, replayed[..n], key);
      MismatchKeys(ConsumeAll(index, replayed[..n]), e, key);
      if e.key == key { assert (front + [e.event_type])[..|front|] == front; }
    }
  }

  lemma {:induction false} TypesOfAreTypesAt(replayed: seq<Keyed>, key: int)
    ensures multiset(TypesOf(replayed, key)) == TypesAt(replayed, key)
  {
    if replayed != [] { TypesOfAreTypesAt(replayed[..|replayed| - 1], key); }
  }

  lemma {:induction false} TypesAtCounts(replayed: seq<Keyed>, key: int, t: string)
    ensures TypesAt(replayed, key)[t] == multiset(replayed)[Keyed(key, t)]
  {
    if replayed != [] {
      var n := |replayed| - 1;
      TypesAtCounts(replayed[..n], key, t);
      assert replayed == replayed[..n] + [replayed[n]];
    }
  }

  lemma ReorderedTypes(replayed: seq<Keyed>, other: seq<Keyed>, key: int)
    requires multiset(replayed) == multiset(other)
    ensures TypesAt(replayed, key) == TypesAt(other, key)
  {
    forall t ensures TypesAt(replayed, key)[t] == TypesAt(other, key)[t] {
      TypesAtCounts(replayed, key, t);
      TypesAtCounts(other, key, t);
    }
  }

  lemma MismatchesPlayed(timeline: seq<Keyed>, replayed: seq<Keyed>, key: int)
    ensures MismatchesAt(timeline, replayed, key) == MismatchCount(TypesAt(timeline, key), TypesOf(replayed, key))
    ensures multiset(TypesOf(replayed, key)) == TypesAt(replayed, key)
  {
    PlayedAtKey(IndexOf(timeline), replayed, key);
    TypesOfAreTypesAt(replayed, key);
  }

  // ----- from an order of types at a key to an order of events -----

  function Elsewhere(replayed: seq<Keyed>, key: int): seq<Keyed> {
    if replayed == [] then []
    else
      var n := |replayed| - 1;
      var front := Elsewhere(replayed[..n], key);
      if replayed[n].key == key then front else front + [replayed[n]]
  }

  function KeyedAt(types: seq<string>, key: int): (r: seq<Keyed>)
    ensures |r| == |types| && forall i :: 0 <= i < |types| ==> r[i] == Keyed(key, types[i])
  {
    seq(|types|, i requires 0 <= i < |types| => Keyed(key, types[i]))
  }

  lemma {:induction false} ElsewhereKeeps(replayed: seq<Keyed>, key: int, k: int)
    ensures TypesOf(Elsewhere(replayed, key), k) == if k == key then [] else TypesOf(replayed, k)
  {
    if replayed != [] {
      var n := |replayed| - 1;
      var front := Elsewhere(replayed[..n], key);
      ElsewhereKeeps(replayed[..n], key, k);
      if replayed[n].key != key { assert (front + [replayed[n]])[..|front|] == front; }
    }
  }

  lemma {:induction false} TypesOfKeyed(start: seq<Keyed>, types: seq<string>, key: int, k: int)
    ensures TypesOf(start + KeyedAt(types, key), k) == TypesOf(start, k) + if k == key then types else []
  {
    var all := start + KeyedAt(types, key);
    if types == [] {
      assert all == start;
    } else {
      var n := |types| - 1;
      TypesOfKeyed(start, types[..n], key, k);
      assert all[..|all| - 1] == start + KeyedAt(types[..n], key);
      assert types == types[..n] + [types[n]];
    }
  }

  lemma SameMultiset(a: seq<Keyed>, b: seq<Keyed>)
    requires forall k, t :: TypesAt(a, k)[t] == TypesAt(b, k)[t]
    ensures multiset(a) == multiset(b)
  {
    forall e: Keyed ensures multiset(a)[e] == multiset(b)[e] {
      TypesAtCounts(a, e.key, e.event_type);
      TypesAtCounts(b, e.key, e.event_type);
    }
  }

  /** Every order of the types at a key is that of some order of all events, the other keys as they were. */
  lemma Realise(replayed: seq<Keyed>, key: int, types: seq<string>) returns (other: seq<Keyed>)
    requires multiset(types) == TypesAt(replayed, key)
    ensures multiset(other) == multiset(replayed)
    ensures TypesOf(other, key) == types && forall k :: k != key ==> TypesOf(other, k) == TypesOf(replayed, k)
  {
    other := Elsewhere(replayed, key) + KeyedAt(types, key);
    forall k ensures TypesOf(other, k) == if k == key then types else TypesOf(replayed, k) {
      ElsewhereKeeps(replayed, key, k);
      TypesOfKeyed(Elsewhere(replayed, key), types, key, k);
    }
    forall k, t ensures TypesAt(other, k)[t] == TypesAt(replayed, k)[t] {
      TypesOfAreTypesAt(other, k);
      TypesOfAreTypesAt(replayed, k);
    }
    SameMultiset(other, replayed);
  }

  // ----- the theorems -----

  /**
   In every order the mismatches at a key are at least min(R, T) less the types both sides have there,
   and some order has no more than that.
   */
  lemma FewestAtKey(timeline: seq<Keyed>, replayed: seq<Keyed>, key: int)
    ensures var fewest := Fewest(TypesAt(replayed, key), TypesAt(timeline, key));
            && (forall other :: multiset(other) == multiset(replayed) ==> MismatchesAt(timeline, other, key) >= fewest)
            && (exists other :: multiset(other) == multiset(replayed) && MismatchesAt(timeline, other, key) == fewest)
  {
    var r, t := TypesAt(replayed, key), TypesAt(timeline, key);
    var best := FewestMismatches(r, t);
    forall other | multiset(other) == multiset(replayed) ensures MismatchesAt(timeline, other, key) >= Fewest(r, t) {
      ReorderedTypes(replayed, other, key);
      MismatchesPlayed(timeline, other, key);
    }
    var other := Realise(replayed, key, best);
    MismatchesPlayed(timeline, other, key);
  }

  lemma SettledAtKey(timeline: seq<Keyed>, replayed: seq<Keyed>, key: int)
    requires Settled(TypesAt(replayed, key), TypesAt(timeline, key))
    ensures forall other :: multiset(other) == multiset(replayed) ==>
              MismatchesAt(timeline, other, key) == Fewest(TypesAt(replayed, key), TypesAt(timeline, key))
  {
    forall other | multiset(other) == multiset(replayed)
      ensures MismatchesAt(timeline, other, key) == Fewest(TypesAt(replayed, key), TypesAt(timeline, key))
    {
      ReorderedTypes(replayed, other, key);
      MismatchesPlayed(timeline, other, key);
      SettledIsFewest(TypesAt(replayed, key), TypesAt(timeline, key), TypesOf(other, key));
    }
  }

  /** Two orders that differ in their mismatches at an unsettled key, and there alone. */
  lemma TwoOrders(timeline: seq<Keyed>, replayed: seq<Keyed>, key: int) returns (a: seq<Keyed>, b: seq<Keyed>)
    requires !Settled(TypesAt(replayed, key), TypesAt(timeline, key))
    ensures multiset(a) == multiset(replayed) == multiset(b)
    ensures MismatchesAt(timeline, a, key) != MismatchesAt(timeline, b, key)
    ensures forall k :: k != key ==> MismatchesAt(timeline, a, k) == MismatchesAt(timeline, b, k)
  {
    var r, t := TypesAt(replayed, key), TypesAt(timeline, key);
    var few := FewestMismatches(r, t);
    var more := UnsettledHasMore(r, t);
    a := Realise(replayed, key, few);
    b := Realise(replayed, key, more);
    forall k ensures MismatchesAt(timeline, a, k) == MismatchesAt(timeline, b, k) <==> k != key {
      MismatchesPlayed(timeline, a, k);
      MismatchesPlayed(timeline, b, k);
    }
  }

  /** At a key the number of mismatches is the same for every order of the replayed events exactly if the key is settled. */
  lemma MismatchesAtKeyFixedIff(timeline: seq<Keyed>, replayed: seq<Keyed>, key: int)
    ensures Settled(TypesAt(replayed, key), TypesAt(timeline, key)) <==>
            forall other :: multiset(other) == multiset(replayed) ==>
              MismatchesAt(timeline, other, key) == MismatchesAt(timeline, replayed, key)
  {
    if Settled(TypesAt(replayed, key), TypesAt(timeline, key)) {
      SettledAtKey(timeline, replayed, key);
    } else {
      var a, b := TwoOrders(timeline, replayed, key);
    }
  }

  ghost function MismatchNumber(timeline: seq<Keyed>, replayed: seq<Keyed>): nat {
    |ConsumeAll(IndexOf(timeline), replayed).mismatches|
  }

  lemma SameCountsSameLength(a: seq<int>, b: seq<int>, key: int)
    requires forall k :: k != key ==> multiset(a)[k] == multiset(b)[k]
    ensures |a| == |b| <==> multiset(a)[key] == multiset(b)[key]
  {
    var m, n := multiset(a), multiset(b);
    assert |m| == |a| && |n| == |b|;
    var u, v := m[key := 0], n[key := 0];
    forall k ensures u[k] == v[k] {
      if k != key { assert m[k] == n[k]; }
    }
    assert u == v;
    assert |u| == |m| - m[key] && |v| == |n| - n[key];
  }

  /** And the number of all mismatches reported is the same for every order exactly if every key is settled. */
  lemma MismatchNumberFixedIff(timeline: seq<Keyed>, replayed: seq<Keyed>)
    ensures (forall key :: Settled(TypesAt(replayed, key), TypesAt(timeline, key))) <==>
            forall other :: multiset(other) == multiset(replayed) ==>
              MismatchNumber(timeline, other) == MismatchNumber(timeline, replayed)
  {
    var index := IndexOf(timeline);
    if key :| !Settled(TypesAt(replayed, key), TypesAt(timeline, key)) {
      var a, b := TwoOrders(timeline, replayed, key);
      NumbersDiffer(timeline, a, b, key);
    } else {
      forall other | multiset(other) == multiset(replayed)
        ensures MismatchNumber(timeline, other) == MismatchNumber(timeline, replayed)
      {
        forall k ensures MismatchesAt(timeline, other, k) == MismatchesAt(timeline, replayed, k) {
          SettledAtKey(timeline, replayed, k);
        }
        NumbersDiffer(timeline, other, replayed, 0);
      }
    }
  }

  lemma NumbersDiffer(timeline: seq<Keyed>, a: seq<Keyed>, b: seq<Keyed>, key: int)
    requires forall k :: k != key ==> MismatchesAt(timeline, a, k) == MismatchesAt(timeline, b, k)
    ensures MismatchNumber(timeline, a) == MismatchNumber(timeline, b) <==>
            MismatchesAt(timeline, a, key) == MismatchesAt(timeline, b, key)
  {
    var index := IndexOf(timeline);
    var c, d := KeysOf(ConsumeAll(index, a).mismatches), KeysOf(ConsumeAll(index, b).mismatches);
    forall k | k != key ensures multiset(c)[k] == multiset(d)[k] {
      assert MismatchesAt(timeline, a, k) == MismatchesAt(timeline, b, k);
    }
    SameCountsSameLength(c, d, key);
  }
}
