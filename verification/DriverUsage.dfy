/**
 Usage of driver sessions, folded out of a stream of observations.

 `context_tokens_used` is a running total of its session, so observations of one session are
 folded by maximum and only different sessions are added up.
 */
module DriverUsage {
  import opened Wrappers
  import opened DriverEvents
  import opened Ordering

  datatype Cost = Cost(amount: real, currency: string)

  /** One observation; also what is remembered of a session (`MutableSessionUsage`). */
  datatype Observation = Observation(
    session: string,
    role: Option<string>,
    tokens: real,
    window: Option<real>,
    cost: Option<Cost>,
    costAt: Option<Timestamp>,
    complete: bool)

  type Sessions = map<string, Observation>

  function CostTime(o: Observation): Timestamp {
    OrElse(o.costAt, 0)
  }

  function Max(a: real, b: real): real {
    if a >= b then a else b
  }

  /** What every producer of observations guarantees. */
  predicate WellFormed(o: Observation) {
    && o.session != ""
    && o.tokens >= 0.0
    && (o.window.Some? ==> o.window.value >= 0.0)
    && (o.role.Some? ==> o.role.value != "")
    && (o.cost.None? ==> o.costAt.None?)
  }

  ghost predicate AllWellFormed(obs: seq<Observation>) {
    forall i :: 0 <= i < |obs| ==> WellFormed(obs[i])
  }

  /** Folding one more observation into what is known of its session. */
  function Absorb(current: Observation, o: Observation): (r: Observation) {
    var takesCost :=
      o.cost.Some? && (CostTime(current) == 0 || CostTime(o) >= CostTime(current));
    Observation(
      current.session,
      if current.role.None? && o.role.Some? then o.role else current.role,
      Max(current.tokens, o.tokens),
      if o.window.Some? then Some(Max(OrElse(current.window, 0.0), o.window.value)) else current.window,
      if takesCost then o.cost else current.cost,
      if takesCost then Some(CostTime(o)) else current.costAt,
      current.complete || o.complete)
  }

  function Fold(sessions: Sessions, o: Observation): Sessions {
    if o.session in sessions
    then sessions[o.session := Absorb(sessions[o.session], o)]
    else sessions[o.session := o]
  }

  function FoldAll(sessions: Sessions, obs: seq<Observation>): Sessions {
    if obs == [] then sessions
    else Fold(FoldAll(sessions, obs[..|obs| - 1]), obs[|obs| - 1])
  }

  // ----- what a folded session says about its observations -----

  ghost predicate Seen(obs: seq<Observation>, x: string, i: int) {
    0 <= i < |obs| && obs[i].session == x
  }

  ghost predicate Mentioned(obs: seq<Observation>, x: string) {
    exists i :: Seen(obs, x, i)
  }

  ghost predicate IsPeakTokens(obs: seq<Observation>, x: string, tokens: real) {
    && (forall i :: Seen(obs, x, i) ==> obs[i].tokens <= tokens)
    && (exists i :: Seen(obs, x, i) && obs[i].tokens == tokens)
  }

  ghost predicate IsPeakWindow(obs: seq<Observation>, x: string, window: Option<real>) {
    match window
    case None => forall i :: Seen(obs, x, i) ==> obs[i].window.None?
    case Some(w) =>
      && (forall i :: Seen(obs, x, i) && obs[i].window.Some? ==> obs[i].window.value <= w)
      && (exists i :: Seen(obs, x, i) && obs[i].window == Some(w))
  }

  ghost predicate IsFirstRole(obs: seq<Observation>, x: string, role: Option<string>) {
    match role
    case None => forall i :: Seen(obs, x, i) ==> obs[i].role.None?
    case Some(_) => exists i :: Seen(obs, x, i) && obs[i].role == role
                      && forall h :: Seen(obs, x, h) && h < i ==> obs[h].role.None?
  }

  /** The cost with the latest observation time, and the last of those when times tie. */
  ghost predicate IsLatestCost(obs: seq<Observation>, x: string, cost: Option<Cost>, at: Timestamp) {
    match cost
    case None => at == 0 && forall i :: Seen(obs, x, i) ==> obs[i].cost.None?
    case Some(_) => exists i :: Seen(obs, x, i) && obs[i].cost == cost && CostTime(obs[i]) == at
                      && forall h :: Seen(obs, x, h) && obs[h].cost.Some? ==>
                           CostTime(obs[h]) < at || (CostTime(obs[h]) == at && h <= i)
  }

  ghost predicate AnyComplete(obs: seq<Observation>, x: string) {
    exists i :: Seen(obs, x, i) && obs[i].complete
  }

  ghost predicate Summarises(obs: seq<Observation>, x: string, r: Observation) {
    && r.session == x
    && IsPeakTokens(obs, x, r.tokens)
    && IsPeakWindow(obs, x, r.window)
    && IsFirstRole(obs, x, r.role)
    && IsLatestCost(obs, x, r.cost, CostTime(r))
    && (r.complete <==> AnyComplete(obs, x))
    && WellFormed(r)
  }

  lemma SeenInFront(obs: seq<Observation>, x: string)
    requires obs != []
    ensures var front := obs[..|obs| - 1];
            && (forall i :: Seen(front, x, i) <==> Seen(obs, x, i) && i < |obs| - 1)
            && (forall i :: Seen(front, x, i) ==> front[i] == obs[i])
  {
  }

  lemma AbsorbPeaks(obs: seq<Observation>, x: string, cur: Observation)
    requires obs != [] && AllWellFormed(obs)
    requires Seen(obs, x, |obs| - 1)
    requires Summarises(obs[..|obs| - 1], x, cur)
    ensures var r := Absorb(cur, obs[|obs| - 1]);
            IsPeakTokens(obs, x, r.tokens) && IsPeakWindow(obs, x, r.window)
  {
    SeenInFront(obs, x);
    var n := |obs| - 1;
    var r := Absorb(cur, obs[n]);
    var front := obs[..n];
    if r.tokens == cur.tokens {
      var i :| Seen(front, x, i) && front[i].tokens == cur.tokens;
      assert Seen(obs, x, i) && obs[i].tokens == r.tokens;
    }
    if r.window.Some? {
      if obs[n].window != r.window {
        assert cur.window == r.window;
        var i :| Seen(front, x, i) && front[i].window == cur.window;
        assert Seen(obs, x, i) && obs[i].window == r.window;
      }
    }
  }

  lemma AbsorbRole(obs: seq<Observation>, x: string, cur: Observation)
    requires obs != [] && AllWellFormed(obs)
    requires Seen(obs, x, |obs| - 1)
    requires Summarises(obs[..|obs| - 1], x, cur)
    ensures var r := Absorb(cur, obs[|obs| - 1]);
            IsFirstRole(obs, x, r.role) && (r.complete <==> AnyComplete(obs, x))
  {
    SeenInFront(obs, x);
    var n := |obs| - 1;
    var front := obs[..n];
    if cur.role.Some? {
      var i :| Seen(front, x, i) && front[i].role == cur.role
               && forall h :: Seen(front, x, h) && h < i ==> front[h].role.None?;
      assert Seen(obs, x, i) && obs[i].role == cur.role;
    }
    if cur.complete {
      var i :| Seen(front, x, i) && front[i].complete;
      assert Seen(obs, x, i) && obs[i].complete;
    }
    if i :| Seen(obs, x, i) && obs[i].complete {
      if i < n { assert Seen(front, x, i) && front[i].complete; }
    }
  }

  lemma AbsorbCost(obs: seq<Observation>, x: string, cur: Observation)
    requires obs != [] && AllWellFormed(obs)
    requires Seen(obs, x, |obs| - 1)
    requires Summarises(obs[..|obs| - 1], x, cur)
    ensures var r := Absorb(cur, obs[|obs| - 1]);
            IsLatestCost(obs, x, r.cost, CostTime(r))
  {
    SeenInFront(obs, x);
    var n := |obs| - 1;
    var front := obs[..n];
    var r := Absorb(cur, obs[n]);
    if cur.cost.Some? {
      var i :| Seen(front, x, i) && front[i].cost == cur.cost && CostTime(front[i]) == CostTime(cur)
               && forall h :: Seen(front, x, h) && front[h].cost.Some? ==>
                    CostTime(front[h]) < CostTime(cur) || (CostTime(front[h]) == CostTime(cur) && h <= i);
      var best := if obs[n].cost.Some? && CostTime(obs[n]) >= CostTime(cur) then n else i;
      assert Seen(obs, x, best) && obs[best].cost == r.cost && CostTime(obs[best]) == CostTime(r);
      forall h | Seen(obs, x, h) && obs[h].cost.Some?
        ensures CostTime(obs[h]) < CostTime(r) || (CostTime(obs[h]) == CostTime(r) && h <= best)
      {
        if h < n { assert Seen(front, x, h); }
      }
    } else if obs[n].cost.Some? {
      assert Seen(obs, x, n) && obs[n].cost == r.cost;
      forall h | Seen(obs, x, h) && obs[h].cost.Some? ensures h == n {
        assert h < n ==> Seen(front, x, h);
      }
    }
  }

  lemma FirstObservation(obs: seq<Observation>, x: string)
    requires obs != [] && AllWellFormed(obs)
    requires Seen(obs, x, |obs| - 1) && !Mentioned(obs[..|obs| - 1], x)
    ensures Summarises(obs, x, obs[|obs| - 1])
  {
    SeenInFront(obs, x);
    var n := |obs| - 1;
    var front := obs[..n];
    forall i | Seen(obs, x, i) ensures i == n {
      assert i < n ==> Seen(front, x, i);
    }
    assert Seen(obs, x, n);
  }

  lemma SummaryOfFront(obs: seq<Observation>, x: string, r: Observation)
    requires obs != [] && obs[|obs| - 1].session != x
    requires Summarises(obs[..|obs| - 1], x, r)
    ensures Summarises(obs, x, r)
  {
    SeenInFront(obs, x);
    var front := obs[..|obs| - 1];
    assert forall i :: Seen(obs, x, i) ==> Seen(front, x, i);
    assert forall i :: Seen(front, x, i) ==> Seen(obs, x, i);
  }

  /**
   After any sequence of observations a session is known exactly when it was mentioned, and then
   its record is the maximum of its tokens and of its windows, its first role, its latest cost,
   and complete exactly when some observation was.
   */
  lemma {:induction false} FoldSummarises(obs: seq<Observation>, x: string)
    requires AllWellFormed(obs)
    ensures x in FoldAll(map[], obs) <==> Mentioned(obs, x)
    ensures x in FoldAll(map[], obs) ==> Summarises(obs, x, FoldAll(map[], obs)[x])
  {
    if obs != [] {
      var n := |obs| - 1;
      var front := obs[..n];
      FoldSummarises(front, x);
      SeenInFront(obs, x);
      if obs[n].session == x {
        assert Seen(obs, x, n);
        if x in FoldAll(map[], front) {
          AbsorbPeaks(obs, x, FoldAll(map[], front)[x]);
          AbsorbRole(obs, x, FoldAll(map[], front)[x]);
          AbsorbCost(obs, x, FoldAll(map[], front)[x]);
        } else {
          FirstObservation(obs, x);
        }
      } else {
        if x in FoldAll(map[], front) { SummaryOfFront(obs, x, FoldAll(map[], front)[x]); }
        assert Mentioned(obs, x) ==> Mentioned(front, x);
      }
    }
  }

  // ----- order and repetition do not matter -----

  ghost predicate SameElements(a: seq<Observation>, b: seq<Observation>) {
    forall o :: o in a <==> o in b
  }

  lemma SeenElsewhere(a: seq<Observation>, b: seq<Observation>, x: string, i: int) returns (j: int)
    requires SameElements(a, b) && Seen(a, x, i)
    ensures Seen(b, x, j) && b[j] == a[i]
  {
    assert a[i] in b;
    j :| 0 <= j < |b| && b[j] == a[i];
  }

  lemma PeaksDependOnElements(a: seq<Observation>, b: seq<Observation>, x: string, r: Observation)
    requires SameElements(a, b)
    requires IsPeakTokens(a, x, r.tokens) && IsPeakWindow(a, x, r.window) && (r.complete <==> AnyComplete(a, x))
    ensures IsPeakTokens(b, x, r.tokens) && IsPeakWindow(b, x, r.window) && (r.complete <==> AnyComplete(b, x))
  {
    forall j | Seen(b, x, j)
      ensures b[j].tokens <= r.tokens
      ensures b[j].window.Some? ==> r.window.Some? && b[j].window.value <= r.window.value
      ensures b[j].complete ==> r.complete
    {
      var i := SeenElsewhere(b, a, x, j);
    }
    var i :| Seen(a, x, i) && a[i].tokens == r.tokens;
    var j := SeenElsewhere(a, b, x, i);
    if r.window.Some? {
      var i' :| Seen(a, x, i') && a[i'].window == r.window;
      var j' := SeenElsewhere(a, b, x, i');
    }
    if r.complete {
      var i' :| Seen(a, x, i') && a[i'].complete;
      var j' := SeenElsewhere(a, b, x, i');
    }
  }

  lemma PeaksUnique(obs: seq<Observation>, x: string, r: Observation, s: Observation)
    requires IsPeakTokens(obs, x, r.tokens) && IsPeakTokens(obs, x, s.tokens)
    requires IsPeakWindow(obs, x, r.window) && IsPeakWindow(obs, x, s.window)
    ensures r.tokens == s.tokens && r.window == s.window
  {
    var i :| Seen(obs, x, i) && obs[i].tokens == r.tokens;
    var j :| Seen(obs, x, j) && obs[j].tokens == s.tokens;
  }

  /**
   Two observation sequences with the same elements, in any order and with any repetition, know the
   same sessions with the same tokens, windows and completeness.
   */
  lemma OrderAndRepetitionDoNotMatter(a: seq<Observation>, b: seq<Observation>, x: string)
    requires AllWellFormed(a) && SameElements(a, b)
    ensures var s, t := FoldAll(map[], a), FoldAll(map[], b);
            && (x in s <==> x in t)
            && (x in s ==> s[x].tokens == t[x].tokens && s[x].window == t[x].window && s[x].complete == t[x].complete)
  {
    forall j | 0 <= j < |b| ensures WellFormed(b[j]) { assert b[j] in a; }
    FoldSummarises(a, x);
    FoldSummarises(b, x);
    if i :| Seen(a, x, i) { var j := SeenElsewhere(a, b, x, i); }
    if j :| Seen(b, x, j) { var i := SeenElsewhere(b, a, x, j); }
    if x in FoldAll(map[], a) {
      PeaksDependOnElements(a, b, x, FoldAll(map[], a)[x]);
      PeaksUnique(b, x, FoldAll(map[], a)[x], FoldAll(map[], b)[x]);
    }
  }

  // ----- when order and repetition do not matter for cost and role -----

  /** A cost of the session, and no other cost of it bears a later time. */
  ghost predicate AtLatestCost(obs: seq<Observation>, x: string, i: int) {
    && Seen(obs, x, i) && obs[i].cost.Some?
    && forall h :: Seen(obs, x, h) && obs[h].cost.Some? ==> CostTime(obs[h]) <= CostTime(obs[i])
  }

  /** The costs a session has at its latest cost time are all the same. */
  ghost predicate LatestCostsAgree(obs: seq<Observation>, x: string) {
    forall i, j :: AtLatestCost(obs, x, i) && AtLatestCost(obs, x, j) ==> obs[i].cost == obs[j].cost
  }

  lemma LatestElsewhere(a: seq<Observation>, b: seq<Observation>, x: string, i: int) returns (j: int)
    requires SameElements(a, b) && AtLatestCost(a, x, i)
    ensures AtLatestCost(b, x, j) && b[j] == a[i]
  {
    j := SeenElsewhere(a, b, x, i);
    forall h | Seen(b, x, h) && b[h].cost.Some? ensures CostTime(b[h]) <= CostTime(b[j]) {
      var k := SeenElsewhere(b, a, x, h);
    }
  }

  /** The cost a session is left with is one of those at its latest cost time. */
  lemma LatestCostIsOne(obs: seq<Observation>, x: string, c: Option<Cost>, at: Timestamp) returns (i: int)
    requires IsLatestCost(obs, x, c, at) && c.Some?
    ensures AtLatestCost(obs, x, i) && obs[i].cost == c
  {
    i :| Seen(obs, x, i) && obs[i].cost == c && CostTime(obs[i]) == at
         && forall h :: Seen(obs, x, h) && obs[h].cost.Some? ==>
              CostTime(obs[h]) < at || (CostTime(obs[h]) == at && h <= i);
  }

  lemma LatestCostUnique(a: seq<Observation>, b: seq<Observation>, x: string,
      c: Option<Cost>, at: Timestamp, d: Option<Cost>, bt: Timestamp)
    requires SameElements(a, b) && LatestCostsAgree(a, x) && IsLatestCost(a, x, c, at) && IsLatestCost(b, x, d, bt)
    ensures c == d
  {
    if d.Some? {
      var j := LatestCostIsOne(b, x, d, bt);
      var j2 := LatestElsewhere(b, a, x, j);
      var i := LatestCostIsOne(a, x, c, at);
    } else if c.Some? {
      var i := LatestCostIsOne(a, x, c, at);
      var i2 := SeenElsewhere(a, b, x, i);
      assert false;
    }
  }

  /** The cost a session is left with after folding some observations. */
  function FoldedCost(obs: seq<Observation>, x: string): Option<Cost> {
    CostOf(Lookup(FoldAll(map[], obs), x))
  }

  /** Where the latest costs of a session are the same, order and repetition do not matter for its cost either. */
  lemma OrderDoesNotMatterForCost(a: seq<Observation>, b: seq<Observation>, x: string)
    requires AllWellFormed(a) && SameElements(a, b) && LatestCostsAgree(a, x)
    ensures FoldedCost(a, x) == FoldedCost(b, x)
  {
    forall j | 0 <= j < |b| ensures WellFormed(b[j]) { assert b[j] in a; }
    OrderAndRepetitionDoNotMatter(a, b, x);
    if x in FoldAll(map[], a) {
      var r, s := FoldAll(map[], a)[x], FoldAll(map[], b)[x];
      FoldSummarises(a, x);
      FoldSummarises(b, x);
      LatestCostUnique(a, b, x, r.cost, CostTime(r), s.cost, CostTime(s));
    }
  }

  /** A cost no earlier than those before it is the one the session is left with. */
  lemma LastCostWins(front: seq<Observation>, o: Observation)
    requires AllWellFormed(front) && o.cost.Some?
    requires forall h :: Seen(front, o.session, h) && front[h].cost.Some? ==> CostTime(front[h]) <= CostTime(o)
    ensures FoldedCost(front + [o], o.session) == o.cost
  {
    assert (front + [o])[..|front|] == front;
    FoldSummarises(front, o.session);
    if o.session in FoldAll(map[], front) {
      var r := FoldAll(map[], front)[o.session];
      if r.cost.Some? { var i := LatestCostIsOne(front, o.session, r.cost, CostTime(r)); }
    }
  }

  /** One of the observations moved to the end, or to the beginning. */
  function MovedLast(obs: seq<Observation>, i: int): seq<Observation>
    requires 0 <= i < |obs|
  {
    obs[..i] + obs[i + 1..] + [obs[i]]
  }

  function MovedFirst(obs: seq<Observation>, i: int): seq<Observation>
    requires 0 <= i < |obs|
  {
    [obs[i]] + (obs[..i] + obs[i + 1..])
  }

  lemma MovedAreSame(obs: seq<Observation>, i: int)
    requires 0 <= i < |obs|
    ensures multiset(MovedLast(obs, i)) == multiset(obs) == multiset(MovedFirst(obs, i))
    ensures forall o <- obs[..i] + obs[i + 1..] :: o in obs
  {
    assert obs == obs[..i] + [obs[i]] + obs[i + 1..];
  }

  lemma SameMultisetSameElements(a: seq<Observation>, b: seq<Observation>)
    requires multiset(a) == multiset(b)
    ensures SameElements(a, b)
  {
    assert forall o :: o in a <==> o in multiset(a);
    assert forall o :: o in b <==> o in multiset(b);
  }

  lemma MovedCostWins(obs: seq<Observation>, x: string, i: int)
    requires AllWellFormed(obs) && AtLatestCost(obs, x, i)
    ensures FoldedCost(MovedLast(obs, i), x) == obs[i].cost
  {
    var front := obs[..i] + obs[i + 1..];
    MovedAreSame(obs, i);
    forall h | 0 <= h < |front|
      ensures WellFormed(front[h])
      ensures Seen(front, x, h) && front[h].cost.Some? ==> CostTime(front[h]) <= CostTime(obs[i])
    {
      assert front[h] in front && front[h] in obs;
      var k :| 0 <= k < |obs| && obs[k] == front[h];
      assert Seen(front, x, h) ==> Seen(obs, x, k);
    }
    LastCostWins(front, obs[i]);
  }

  /** All orders of the observations leave a session with one cost exactly if its latest costs are the same. */
  lemma CostOrderFreeIff(obs: seq<Observation>, x: string)
    requires AllWellFormed(obs)
    ensures LatestCostsAgree(obs, x) <==>
            forall other :: multiset(other) == multiset(obs) ==> FoldedCost(other, x) == FoldedCost(obs, x)
  {
    if LatestCostsAgree(obs, x) {
      forall other | multiset(other) == multiset(obs) ensures FoldedCost(other, x) == FoldedCost(obs, x) {
        SameMultisetSameElements(obs, other);
        OrderDoesNotMatterForCost(obs, other, x);
      }
    } else {
      var i, j :| AtLatestCost(obs, x, i) && AtLatestCost(obs, x, j) && obs[i].cost != obs[j].cost;
      MovedAreSame(obs, i);
      MovedAreSame(obs, j);
      MovedCostWins(obs, x, i);
      MovedCostWins(obs, x, j);
    }
  }

  function RoleOf(o: Option<Observation>): Option<string> {
    if o.Some? then o.value.role else None
  }

  function FoldedRole(obs: seq<Observation>, x: string): Option<string> {
    RoleOf(Lookup(FoldAll(map[], obs), x))
  }

  /** All observations of a session that give a role give the same. */
  ghost predicate RolesAgree(obs: seq<Observation>, x: string) {
    forall i, j :: Seen(obs, x, i) && Seen(obs, x, j) && obs[i].role.Some? && obs[j].role.Some? ==>
      obs[i].role == obs[j].role
  }

  lemma FirstRoleIsOne(obs: seq<Observation>, x: string) returns (i: int)
    requires AllWellFormed(obs)
    ensures FoldedRole(obs, x).Some? ==> Seen(obs, x, i) && obs[i].role == FoldedRole(obs, x)
    ensures FoldedRole(obs, x).None? ==> forall h :: Seen(obs, x, h) ==> obs[h].role.None?
  {
    FoldSummarises(obs, x);
    i := 0;
    if FoldedRole(obs, x).Some? {
      i :| Seen(obs, x, i) && obs[i].role == FoldedRole(obs, x);
    } else if x !in FoldAll(map[], obs) {
      assert !Mentioned(obs, x);
    }
  }

  lemma OrderDoesNotMatterForRole(a: seq<Observation>, b: seq<Observation>, x: string)
    requires AllWellFormed(a) && SameElements(a, b) && RolesAgree(a, x)
    ensures FoldedRole(a, x) == FoldedRole(b, x)
  {
    forall j | 0 <= j < |b| ensures WellFormed(b[j]) { assert b[j] in a; }
    var i := FirstRoleIsOne(a, x);
    var j := FirstRoleIsOne(b, x);
    if FoldedRole(a, x).Some? { var i2 := SeenElsewhere(a, b, x, i); }
    if FoldedRole(b, x).Some? { var j2 := SeenElsewhere(b, a, x, j); }
  }

  lemma {:induction false} FirstRoleWins(o: Observation, rest: seq<Observation>)
    requires o.role.Some?
    ensures FoldedRole([o] + rest, o.session) == o.role
  {
    var all := [o] + rest;
    if rest == [] {
      FoldOne(o);
      assert all == [o];
    } else {
      FirstRoleWins(o, rest[..|rest| - 1]);
      assert all[..|all| - 1] == [o] + rest[..|rest| - 1];
    }
  }

  /** All orders of the observations give a session one role exactly if no two of them give different ones. */
  lemma RoleOrderFreeIff(obs: seq<Observation>, x: string)
    requires AllWellFormed(obs)
    ensures RolesAgree(obs, x) <==>
            forall other :: multiset(other) == multiset(obs) ==> FoldedRole(other, x) == FoldedRole(obs, x)
  {
    if RolesAgree(obs, x) {
      forall other | multiset(other) == multiset(obs) ensures FoldedRole(other, x) == FoldedRole(obs, x) {
        SameMultisetSameElements(obs, other);
        OrderDoesNotMatterForRole(obs, other, x);
      }
    } else {
      var i, j :| Seen(obs, x, i) && Seen(obs, x, j) && obs[i].role.Some? && obs[j].role.Some? && obs[i].role != obs[j].role;
      MovedAreSame(obs, i);
      MovedAreSame(obs, j);
      FirstRoleWins(obs[i], obs[..i] + obs[i + 1..]);
      FirstRoleWins(obs[j], obs[..j] + obs[j + 1..]);
    }
  }

  // ----- folding in two parts -----

  lemma AbsorbAssociative(a: Observation, b: Observation, c: Observation)
    requires WellFormed(a) && WellFormed(b) && WellFormed(c)
    ensures Absorb(Absorb(a, b), c) == Absorb(a, Absorb(b, c))
  {
  }

  /** The record of one session after a second stream, from the records of the two streams. */
  function Joined(s: Sessions, t: Sessions, x: string): Option<Observation> {
    if x in s then Some(if x in t then Absorb(s[x], t[x]) else s[x])
    else if x in t then Some(t[x])
    else None
  }

  function Lookup(s: Sessions, x: string): Option<Observation> {
    if x in s then Some(s[x]) else None
  }

  ghost predicate GoodSessions(s: Sessions) {
    forall x :: x in s ==> s[x].session == x && WellFormed(s[x])
  }

  lemma {:induction false} FoldKeepsGood(s: Sessions, obs: seq<Observation>)
    requires GoodSessions(s) && AllWellFormed(obs)
    ensures GoodSessions(FoldAll(s, obs))
  {
    if obs != [] { FoldKeepsGood(s, obs[..|obs| - 1]); }
  }

  /** Folding a second stream into known sessions joins the two streams' own records. */
  lemma {:induction false} FoldJoins(s: Sessions, obs: seq<Observation>, x: string)
    requires GoodSessions(s) && AllWellFormed(obs)
    ensures Lookup(FoldAll(s, obs), x) == Joined(s, FoldAll(map[], obs), x)
  {
    if obs != [] {
      var n := |obs| - 1;
      var front := obs[..n];
      FoldJoins(s, front, x);
      FoldKeepsGood(map[], front);
      if obs[n].session == x && x in s && x in FoldAll(map[], front) {
        AbsorbAssociative(s[x], FoldAll(map[], front)[x], obs[n]);
      }
    }
  }

  lemma {:induction false} FoldAppend(s: Sessions, a: seq<Observation>, b: seq<Observation>)
    ensures FoldAll(s, a + b) == FoldAll(FoldAll(s, a), b)
  {
    if b == [] {
      assert a + b == a;
    } else {
      FoldAppend(s, a, b[..|b| - 1]);
      assert (a + b)[..|a + b| - 1] == a + b[..|b| - 1];
    }
  }

  // ----- the aggregate of a task -----

  datatype SessionUsage = SessionUsage(
    session: string,
    role: Option<string>,
    tokens: real,
    window: Option<real>,
    cost: Option<Cost>,
    complete: bool)

  datatype TaskUsage = TaskUsage(
    available: bool,
    tokens: real,
    costs: seq<Cost>,
    sessions: seq<SessionUsage>,
    complete: bool)

  function Project(o: Observation): SessionUsage {
    SessionUsage(o.session, o.role, o.tokens, o.window, o.cost, o.complete)
  }

  function TokenSum(sessions: seq<SessionUsage>): real {
    if sessions == [] then 0.0
    else TokenSum(sessions[..|sessions| - 1]) + sessions[|sessions| - 1].tokens
  }

  /** Totals add up: that of one session is its own, that of two lists the sum of theirs. */
  lemma {:induction false} TokensAddUp(a: seq<SessionUsage>, b: seq<SessionUsage>)
    ensures TokenSum(a + b) == TokenSum(a) + TokenSum(b)
    ensures |a| == 1 ==> TokenSum(a) == a[0].tokens
  {
    if |a| == 1 { assert TokenSum(a[..0]) == 0.0; }
    if b == [] {
      assert a + b == a;
    } else {
      TokensAddUp(a, b[..|b| - 1]);
      assert (a + b)[..|a + b| - 1] == a + b[..|b| - 1];
    }
  }

  lemma {:induction false} CostsAddUp(a: seq<SessionUsage>, b: seq<SessionUsage>, currency: string)
    ensures CostSum(a + b, currency) == CostSum(a, currency) + CostSum(b, currency)
    ensures |a| == 1 && a[0].cost.Some? && a[0].cost.value.currency == currency ==>
              CostSum(a, currency) == a[0].cost.value.amount
    ensures |a| == 1 && !(a[0].cost.Some? && a[0].cost.value.currency == currency) ==> CostSum(a, currency) == 0.0
  {
    if |a| == 1 { assert CostSum(a[..0], currency) == 0.0; }
    if b == [] {
      assert a + b == a;
    } else {
      CostsAddUp(a, b[..|b| - 1], currency);
      assert (a + b)[..|a + b| - 1] == a + b[..|b| - 1];
    }
  }

  predicate Pays(session: SessionUsage, currency: string) {
    session.cost.Some? && session.cost.value.currency == currency
  }

  function CostSum(sessions: seq<SessionUsage>, currency: string): real {
    if sessions == [] then 0.0
    else
      var last := sessions[|sessions| - 1];
      CostSum(sessions[..|sessions| - 1], currency) + (if Pays(last, currency) then last.cost.value.amount else 0.0)
  }

  ghost function Currencies(sessions: seq<SessionUsage>): set<string> {
    set i | 0 <= i < |sessions| && sessions[i].cost.Some? :: sessions[i].cost.value.currency
  }

  function ProjectIds(s: Sessions, ids: seq<string>): (l: seq<SessionUsage>)
    requires forall id <- ids :: id in s
    ensures |l| == |ids|
    ensures forall i :: 0 <= i < |ids| ==> l[i] == Project(s[ids[i]])
  {
    if ids == [] then []
    else
      var n := |ids| - 1;
      assert ids == ids[..n] + [ids[n]];
      ProjectIds(s, ids[..n]) + [Project(s[ids[n]])]
  }

  ghost function ProjectedSessions(s: Sessions): seq<SessionUsage> {
    ProjectIds(s, SortedSeq(s.Keys))
  }

  ghost function CostsByCurrency(sessions: seq<SessionUsage>): seq<Cost> {
    var currencies := SortedSeq(Currencies(sessions));
    seq(|currencies|, i requires 0 <= i < |currencies| => Cost(CostSum(sessions, currencies[i]), currencies[i]))
  }

  ghost predicate AllComplete(sessions: seq<SessionUsage>) {
    forall i :: 0 <= i < |sessions| ==> sessions[i].complete
  }

  ghost function AggregateOf(sessions: seq<SessionUsage>): TaskUsage {
    TaskUsage(
      sessions != [],
      TokenSum(sessions),
      CostsByCurrency(sessions),
      sessions,
      sessions != [] && AllComplete(sessions))
  }

  /** The aggregate: sessions and currencies in order, totals summed over the sessions. */
  ghost function Aggregate(s: Sessions): TaskUsage {
    AggregateOf(ProjectedSessions(s))
  }

  ghost predicate ListedAt(u: TaskUsage, x: string, i: int) {
    0 <= i < |u.sessions| && u.sessions[i].session == x
  }

  /** A finished aggregate lists every session of the table once, as it stands in the table. */
  ghost predicate Lists(u: TaskUsage, s: Sessions) {
    && (u.available <==> u.sessions != [])
    && (forall i :: 0 <= i < |u.sessions| ==>
          u.sessions[i].session in s && u.sessions[i] == Project(s[u.sessions[i].session]))
    && (forall x :: x in s ==> exists i :: ListedAt(u, x, i))
    && (forall i, j :: 0 <= i < j < |u.sessions| ==> u.sessions[i].session != u.sessions[j].session)
  }

  lemma ListedInOrder(s: Sessions, i: int)
    requires GoodSessions(s) && 0 <= i < |SortedSeq(s.Keys)|
    ensures var ids := SortedSeq(s.Keys);
            ids[i] in s && Aggregate(s).sessions[i] == Project(s[ids[i]]) && Aggregate(s).sessions[i].session == ids[i]
  {
    assert SortedSeq(s.Keys)[i] in SortedSeq(s.Keys);
    assert Aggregate(s).sessions == ProjectIds(s, SortedSeq(s.Keys));
  }

  lemma KeyIsListed(s: Sessions, x: string)
    requires GoodSessions(s) && x in s
    ensures exists i :: ListedAt(Aggregate(s), x, i)
  {
    var ids := SortedSeq(s.Keys);
    assert x in ids;
    var i :| 0 <= i < |ids| && ids[i] == x;
    ListedInOrder(s, i);
    assert ListedAt(Aggregate(s), x, i);
  }

  lemma AggregateLists(s: Sessions)
    requires GoodSessions(s)
    ensures Lists(Aggregate(s), s)
  {
    var ids := SortedSeq(s.Keys);
    SortedSeqOrdered(s.Keys);
    var u := Aggregate(s);
    assert |u.sessions| == |ids|;
    forall i | 0 <= i < |ids| ensures ids[i] in s && u.sessions[i] == Project(s[ids[i]]) && u.sessions[i].session == ids[i] {
      ListedInOrder(s, i);
    }
    forall x | x in s ensures exists i :: ListedAt(u, x, i) { KeyIsListed(s, x); }
  }

  /** What one source of a merge contributes, its cost times already forgotten. */
  function SourceObservation(u: SessionUsage): Observation {
    Observation(u.session, if u.role.Some? && u.role.value != "" then u.role else None, u.tokens, u.window, u.cost, None, u.complete)
  }

  function SourceObservations(usage: TaskUsage): seq<Observation> {
    if usage.available
    then seq(|usage.sessions|, i requires 0 <= i < |usage.sessions| => SourceObservation(usage.sessions[i]))
    else []
  }

  ghost function MergedSessions(file: TaskUsage, accumulated: Option<TaskUsage>): Sessions {
    FoldAll(map[], SourceObservations(file) +
                   (if accumulated.Some? then SourceObservations(accumulated.value) else []))
  }

  lemma {:induction false} FoldDistinct(obs: seq<Observation>, x: string)
    requires forall i, j :: 0 <= i < j < |obs| ==> obs[i].session != obs[j].session
    ensures x in FoldAll(map[], obs) <==> Mentioned(obs, x)
    ensures forall i :: Seen(obs, x, i) ==> Lookup(FoldAll(map[], obs), x) == Some(obs[i])
  {
    if obs != [] {
      var n := |obs| - 1;
      var front := obs[..n];
      FoldDistinct(front, x);
      SeenInFront(obs, x);
      FoldDistinct(front, obs[n].session);
      SeenInFront(obs, obs[n].session);
      assert obs[n].session !in FoldAll(map[], front) by {
        assert !Mentioned(front, obs[n].session);
      }
      if obs[n].session == x { assert Seen(obs, x, n); }
      assert obs[n].session != x && Mentioned(obs, x) ==> Mentioned(front, x);
    }
  }

  function Timeless(o: Observation): Observation {
    o.(costAt := None)
  }

  /** The observations an aggregate contributes: each session once, its cost time forgotten. */
  lemma SourceListsSessions(u: TaskUsage, s: Sessions, x: string)
    requires GoodSessions(s) && Lists(u, s)
    ensures var obs := SourceObservations(u);
            && AllWellFormed(obs)
            && (forall i, j :: 0 <= i < j < |obs| ==> obs[i].session != obs[j].session)
            && (forall i :: Seen(obs, x, i) ==> x in s && obs[i] == Timeless(s[x]))
            && (x in s ==> Mentioned(obs, x))
  {
    var obs := SourceObservations(u);
    assert |obs| == |u.sessions|;
    assert forall i :: 0 <= i < |obs| ==> obs[i] == Timeless(s[u.sessions[i].session]);
    if x in s {
      var i :| ListedAt(u, x, i);
      assert Seen(obs, x, i);
    }
  }

  /** Reading an aggregate back gives its sessions with their cost times forgotten, and no others. */
  lemma SourceRestoresSessions(u: TaskUsage, s: Sessions, x: string)
    requires GoodSessions(s) && Lists(u, s)
    ensures Lookup(FoldAll(map[], SourceObservations(u)), x) == TimelessLookup(s, x)
  {
    SourceListsSessions(u, s, x);
    var obs := SourceObservations(u);
    FoldDistinct(obs, x);
    if x in s {
      var i :| Seen(obs, x, i);
      assert obs[i] == Timeless(s[x]);
    }
  }

  function TimelessRecord(a: Option<Observation>): Option<Observation> {
    if a.Some? then Some(Timeless(a.value)) else None
  }

  function TimelessLookup(s: Sessions, x: string): Option<Observation> {
    TimelessRecord(Lookup(s, x))
  }

  function JoinedRecords(a: Option<Observation>, b: Option<Observation>): Option<Observation> {
    if a.Some? && b.Some? then Some(Absorb(a.value, b.value)) else if a.Some? then a else b
  }

  lemma MergedLookup(u: TaskUsage, s: Sessions, v: TaskUsage, t: Sessions, x: string)
    requires GoodSessions(s) && GoodSessions(t) && Lists(u, s) && Lists(v, t)
    ensures Lookup(MergedSessions(u, Some(v)), x) == JoinedRecords(TimelessLookup(s, x), TimelessLookup(t, x))
  {
    var su, sv := SourceObservations(u), SourceObservations(v);
    SourceListsSessions(u, s, x);
    SourceListsSessions(v, t, x);
    FoldKeepsGood(map[], su);
    FoldAppend(map[], su, sv);
    FoldJoins(FoldAll(map[], su), sv, x);
    SourceRestoresSessions(u, s, x);
    SourceRestoresSessions(v, t, x);
  }

  lemma WholeLookup(a: seq<Observation>, b: seq<Observation>, x: string)
    requires AllWellFormed(a) && AllWellFormed(b)
    ensures GoodSessions(FoldAll(map[], a)) && GoodSessions(FoldAll(map[], b))
    ensures Lookup(FoldAll(map[], a + b), x)
            == JoinedRecords(Lookup(FoldAll(map[], a), x), Lookup(FoldAll(map[], b), x))
  {
    FoldKeepsGood(map[], a);
    FoldKeepsGood(map[], b);
    FoldAppend(map[], a, b);
    FoldJoins(FoldAll(map[], a), b, x);
  }

  /** Where the second source's cost is older than the first's, the merge forgets which was later. */
  ghost predicate CostTurnsBack(a: Option<Observation>, b: Option<Observation>) {
    && a.Some? && b.Some? && a.value.cost.Some? && b.value.cost.Some?
    && CostTime(b.value) < CostTime(a.value)
  }

  ghost predicate AgreeButForCost(r: Observation, s: Observation) {
    r.tokens == s.tokens && r.window == s.window && r.role == s.role && r.complete == s.complete
  }

  function CostOf(o: Option<Observation>): Option<Cost> {
    if o.Some? then o.value.cost else None
  }

  ghost predicate MergeAgrees(
    a: Option<Observation>, b: Option<Observation>,
    merged: Option<Observation>, whole: Option<Observation>)
  {
    && (merged.Some? <==> whole.Some?)
    && (merged.Some? ==> AgreeButForCost(merged.value, whole.value))
    && (CostOf(merged) == CostOf(whole) <==> !CostTurnsBack(a, b) || CostOf(a) == CostOf(b))
  }

  lemma TimelessJoinAgrees(a: Option<Observation>, b: Option<Observation>)
    requires a.Some? ==> WellFormed(a.value)
    requires b.Some? ==> WellFormed(b.value)
    ensures MergeAgrees(a, b, JoinedRecords(TimelessRecord(a), TimelessRecord(b)), JoinedRecords(a, b))
  {
  }

  /**
   Merging two finished aggregates against folding both streams at once: the same sessions, tokens,
   windows, roles and completeness; and the same cost exactly when the second source's cost is not
   the older of two different ones.
   */
  lemma MergeMatchesFold(a: seq<Observation>, b: seq<Observation>, x: string)
    requires AllWellFormed(a) && AllWellFormed(b)
    ensures var s, t := FoldAll(map[], a), FoldAll(map[], b);
            MergeAgrees(Lookup(s, x), Lookup(t, x),
                        Lookup(MergedSessions(Aggregate(s), Some(Aggregate(t))), x),
                        Lookup(FoldAll(map[], a + b), x))
  {
    var s, t := FoldAll(map[], a), FoldAll(map[], b);
    WholeLookup(a, b, x);
    AggregateLists(s);
    AggregateLists(t);
    MergedLookup(Aggregate(s), s, Aggregate(t), t, x);
    TimelessJoinAgrees(Lookup(s, x), Lookup(t, x));
  }

  lemma {:induction false} TokenSumPointwise(l: seq<SessionUsage>, m: seq<SessionUsage>)
    requires |l| == |m| && forall i :: 0 <= i < |l| ==> l[i].tokens == m[i].tokens
    ensures TokenSum(l) == TokenSum(m)
  {
    if l != [] { TokenSumPointwise(l[..|l| - 1], m[..|m| - 1]); }
  }

  lemma {:induction false} CostSumPointwise(l: seq<SessionUsage>, m: seq<SessionUsage>, currency: string)
    requires |l| == |m| && forall i :: 0 <= i < |l| ==> l[i].cost == m[i].cost
    ensures CostSum(l, currency) == CostSum(m, currency)
  {
    if l != [] { CostSumPointwise(l[..|l| - 1], m[..|m| - 1], currency); }
  }

  lemma CurrenciesPointwise(l: seq<SessionUsage>, m: seq<SessionUsage>)
    requires |l| == |m| && forall i :: 0 <= i < |l| ==> l[i].cost == m[i].cost
    ensures Currencies(l) == Currencies(m)
  {
  }

  lemma CostsPointwise(l: seq<SessionUsage>, m: seq<SessionUsage>)
    requires |l| == |m| && forall i :: 0 <= i < |l| ==> l[i].cost == m[i].cost
    ensures CostsByCurrency(l) == CostsByCurrency(m)
  {
    CurrenciesPointwise(l, m);
    var currencies := SortedSeq(Currencies(l));
    forall i | 0 <= i < |currencies| ensures CostSum(l, currencies[i]) == CostSum(m, currencies[i]) {
      CostSumPointwise(l, m, currencies[i]);
    }
  }

  /** What is listed of a session depends on its record, and so does everything added up from the lists. */
  lemma ProjectionsAt(s: Sessions, t: Sessions, i: nat)
    requires s.Keys == t.Keys && i < |SortedSeq(s.Keys)|
    ensures var x := SortedSeq(s.Keys)[i];
            && x in s && x in t && |ProjectedSessions(s)| == |ProjectedSessions(t)| == |SortedSeq(s.Keys)|
            && ProjectedSessions(s)[i] == Project(s[x]) && ProjectedSessions(t)[i] == Project(t[x])
  {
    assert SortedSeq(s.Keys)[i] in SortedSeq(s.Keys);
  }

  ghost predicate Alike(l: seq<SessionUsage>, m: seq<SessionUsage>) {
    |l| == |m| && forall i :: 0 <= i < |l| ==> l[i].tokens == m[i].tokens && l[i].complete == m[i].complete
  }

  lemma AlikeLists(l: seq<SessionUsage>, m: seq<SessionUsage>)
    requires Alike(l, m)
    ensures var u, v := AggregateOf(l), AggregateOf(m);
            u.tokens == v.tokens && u.available == v.available && u.complete == v.complete
  {
    TokenSumPointwise(l, m);
  }

  lemma AlikeSessionsAlikeTotals(s: Sessions, t: Sessions)
    requires s.Keys == t.Keys
    requires forall x :: x in s ==> s[x].tokens == t[x].tokens && s[x].complete == t[x].complete
    ensures var u, v := Aggregate(s), Aggregate(t);
            u.tokens == v.tokens && u.available == v.available && u.complete == v.complete
  {
    forall i | 0 <= i < |SortedSeq(s.Keys)|
      ensures ProjectedSessions(s)[i].tokens == ProjectedSessions(t)[i].tokens
      ensures ProjectedSessions(s)[i].complete == ProjectedSessions(t)[i].complete
    {
      ProjectionsAt(s, t, i);
    }
    AlikeLists(ProjectedSessions(s), ProjectedSessions(t));
  }

  lemma SameListsSameRecords(s: Sessions, t: Sessions, x: string)
    requires s.Keys == t.Keys && x in s && ProjectedSessions(s) == ProjectedSessions(t)
    ensures Project(s[x]) == Project(t[x])
  {
    var ids := SortedSeq(s.Keys);
    assert x in ids;
    var i :| 0 <= i < |ids| && ids[i] == x;
    ProjectionsAt(s, t, i);
  }

  lemma SameRecordsSameLists(s: Sessions, t: Sessions)
    requires s.Keys == t.Keys && forall x :: x in s ==> Project(s[x]) == Project(t[x])
    ensures ProjectedSessions(s) == ProjectedSessions(t)
  {
    var l, m := ProjectedSessions(s), ProjectedSessions(t);
    forall i | 0 <= i < |SortedSeq(s.Keys)| ensures l[i] == m[i] { ProjectionsAt(s, t, i); }
  }

  /** Two tables of the same sessions give the same aggregate exactly if what is listed of each session is the same. */
  lemma SameAggregateIff(s: Sessions, t: Sessions)
    requires s.Keys == t.Keys
    ensures Aggregate(s) == Aggregate(t) <==> forall x :: x in s ==> Project(s[x]) == Project(t[x])
  {
    if Aggregate(s) == Aggregate(t) {
      assert Aggregate(s).sessions == ProjectedSessions(s) && Aggregate(t).sessions == ProjectedSessions(t);
      forall x | x in s ensures Project(s[x]) == Project(t[x]) { SameListsSameRecords(s, t, x); }
    }
    if forall x :: x in s ==> Project(s[x]) == Project(t[x]) { SameRecordsSameLists(s, t); }
  }

  /** No session has an older, different cost in the second source. */
  ghost predicate CostsKeepOrder(s: Sessions, t: Sessions) {
    forall x :: !CostTurnsBack(Lookup(s, x), Lookup(t, x)) || CostOf(Lookup(s, x)) == CostOf(Lookup(t, x))
  }

  lemma MergedKeys(a: seq<Observation>, b: seq<Observation>, x: string)
    requires AllWellFormed(a) && AllWellFormed(b)
    ensures var s, t := FoldAll(map[], a), FoldAll(map[], b);
            var merged, whole := MergedSessions(Aggregate(s), Some(Aggregate(t))), FoldAll(map[], a + b);
            && (x in merged <==> x in whole)
            && (x in merged ==> AgreeButForCost(merged[x], whole[x]) && merged[x].session == whole[x].session == x)
            && (CostOf(Lookup(merged, x)) == CostOf(Lookup(whole, x)) <==>
                  !CostTurnsBack(Lookup(s, x), Lookup(t, x)) || CostOf(Lookup(s, x)) == CostOf(Lookup(t, x)))
  {
    var s, t := FoldAll(map[], a), FoldAll(map[], b);
    MergeMatchesFold(a, b, x);
    WholeLookup(a, b, x);
    AggregateLists(s);
    AggregateLists(t);
    MergedLookup(Aggregate(s), s, Aggregate(t), t, x);
  }

  /**
   The merged totals are those over both streams folded at once; and the whole merged aggregate, its
   sessions and its sums by currency, is the same exactly if no session's second cost is an older,
   different one.
   */
  lemma MergedTotalMatches(a: seq<Observation>, b: seq<Observation>)
    requires AllWellFormed(a) && AllWellFormed(b)
    ensures var s, t := FoldAll(map[], a), FoldAll(map[], b);
            var merged := Aggregate(MergedSessions(Aggregate(s), Some(Aggregate(t))));
            var whole := Aggregate(FoldAll(map[], a + b));
            && merged.tokens == whole.tokens && merged.available == whole.available && merged.complete == whole.complete
            && (merged == whole <==> CostsKeepOrder(s, t))
            && (CostsKeepOrder(s, t) ==> merged.costs == whole.costs)
  {
    var s, t := FoldAll(map[], a), FoldAll(map[], b);
    var merged := MergedSessions(Aggregate(s), Some(Aggregate(t)));
    var whole := FoldAll(map[], a + b);
    forall x
      ensures x in merged <==> x in whole
      ensures x in merged ==> AgreeButForCost(merged[x], whole[x]) && merged[x].session == whole[x].session
      ensures CostOf(Lookup(merged, x)) == CostOf(Lookup(whole, x)) <==>
                !CostTurnsBack(Lookup(s, x), Lookup(t, x)) || CostOf(Lookup(s, x)) == CostOf(Lookup(t, x))
    {
      MergedKeys(a, b, x);
    }
    assert merged.Keys == whole.Keys;
    AlikeSessionsAlikeTotals(merged, whole);
    SameAggregateIff(merged, whole);
    CostsDecide(merged, whole, s, t);
  }

  lemma CostsDecide(merged: Sessions, whole: Sessions, s: Sessions, t: Sessions)
    requires merged.Keys == whole.Keys
    requires forall x :: x in merged ==> AgreeButForCost(merged[x], whole[x]) && merged[x].session == whole[x].session
    requires forall x :: CostOf(Lookup(merged, x)) == CostOf(Lookup(whole, x)) <==>
               !CostTurnsBack(Lookup(s, x), Lookup(t, x)) || CostOf(Lookup(s, x)) == CostOf(Lookup(t, x))
    ensures CostsKeepOrder(s, t) <==> forall x :: x in merged ==> Project(merged[x]) == Project(whole[x])
  {
    if forall x :: x in merged ==> Project(merged[x]) == Project(whole[x]) {
      forall x ensures !CostTurnsBack(Lookup(s, x), Lookup(t, x)) || CostOf(Lookup(s, x)) == CostOf(Lookup(t, x)) {
        assert x in merged ==> Project(merged[x]).cost == Project(whole[x]).cost;
        assert CostOf(Lookup(merged, x)) == CostOf(Lookup(whole, x));
      }
    }
    if CostsKeepOrder(s, t) {
      forall x | x in merged ensures Project(merged[x]) == Project(whole[x]) {
        assert CostOf(Lookup(merged, x)) == CostOf(Lookup(whole, x));
      }
    }
  }

  /** One observation on either side, the first with the newer cost: the merge takes the second's. */
  lemma OneTurnsBack(newer: Observation, older: Observation)
    requires WellFormed(newer) && WellFormed(older) && newer.session == older.session
    requires newer.cost.Some? && older.cost.Some? && CostTime(older) < CostTime(newer)
    ensures var s, t := FoldAll(map[], [newer]), FoldAll(map[], [older]);
            && CostOf(Lookup(FoldAll(map[], [newer] + [older]), newer.session)) == newer.cost
            && CostOf(Lookup(MergedSessions(Aggregate(s), Some(Aggregate(t))), newer.session)) == older.cost
  {
    FoldOne(newer);
    FoldOne(older);
    NewerCostStays(newer, older);
    SecondCostStands(FoldAll(map[], [newer]), FoldAll(map[], [older]), newer.session);
  }

  lemma NewerCostStays(newer: Observation, older: Observation)
    requires WellFormed(newer) && WellFormed(older) && newer.session == older.session
    requires newer.cost.Some? && older.cost.Some? && CostTime(older) < CostTime(newer)
    ensures CostOf(Lookup(FoldAll(map[], [newer] + [older]), newer.session)) == newer.cost
  {
    FoldOne(newer);
    FoldOne(older);
    WholeLookup([newer], [older], newer.session);
  }

  /** A merge has the second source's cost, if it has one. */
  lemma SecondCostStands(s: Sessions, t: Sessions, x: string)
    requires GoodSessions(s) && GoodSessions(t) && x in s && x in t && t[x].cost.Some?
    ensures CostOf(Lookup(MergedSessions(Aggregate(s), Some(Aggregate(t))), x)) == t[x].cost
  {
    AggregateLists(s);
    AggregateLists(t);
    MergedLookup(Aggregate(s), s, Aggregate(t), t, x);
  }

  function CostAt(amount: real, at: Timestamp): Observation {
    Observation("session", None, 1.0, None, Some(Cost(amount, "USD")), Some(at), true)
  }

  /** So it does happen: two dollars seen at 20, merged with one dollar seen at 10, make one dollar. */
  lemma MergeCanTurnCostBack()
    ensures var s, t := FoldAll(map[], [CostAt(2.0, 20)]), FoldAll(map[], [CostAt(1.0, 10)]);
            && CostOf(Lookup(FoldAll(map[], [CostAt(2.0, 20)] + [CostAt(1.0, 10)]), "session")) == Some(Cost(2.0, "USD"))
            && CostOf(Lookup(MergedSessions(Aggregate(s), Some(Aggregate(t))), "session")) == Some(Cost(1.0, "USD"))
  {
    OneTurnsBack(CostAt(2.0, 20), CostAt(1.0, 10));
  }

  lemma FoldOne(o: Observation)
    ensures FoldAll(map[], [o]) == map[o.session := o]
  {
    assert [o][..0] == [];
    assert FoldAll(map[], [o][..0]) == map[];
  }

  lemma {:induction false} NoPayerNoSum(sessions: seq<SessionUsage>, currency: string)
    requires currency !in Currencies(sessions)
    ensures CostSum(sessions, currency) == 0.0
  {
    if sessions != [] {
      var n := |sessions| - 1;
      assert Pays(sessions[n], currency) ==> currency in Currencies(sessions);
      assert sessions[..n] <= sessions;
      assert forall i :: 0 <= i < n ==> sessions[..n][i] == sessions[i];
      NoPayerNoSum(sessions[..n], currency);
    }
  }

  /** The loop over the sessions that adds up costs currency by currency. */
  method SumCosts(sessions: seq<SessionUsage>) returns (costByCurrency: map<string, real>)
    ensures costByCurrency.Keys == Currencies(sessions)
    ensures forall c :: c in costByCurrency ==> costByCurrency[c] == CostSum(sessions, c)
  {
    costByCurrency := map[];
    for i := 0 to |sessions|
      invariant costByCurrency.Keys == Currencies(sessions[..i])
      invariant forall c :: c in costByCurrency ==> costByCurrency[c] == CostSum(sessions[..i], c)
    {
      var front, more := sessions[..i], sessions[..i + 1];
      assert more[..i] == front && more[i] == sessions[i];
      assert forall k :: 0 <= k < i ==> more[k] == front[k];
      if sessions[i].cost.Some? {
        var cost := sessions[i].cost.value;
        if cost.currency !in costByCurrency { NoPayerNoSum(front, cost.currency); }
        costByCurrency := costByCurrency[cost.currency :=
          (if cost.currency in costByCurrency then costByCurrency[cost.currency] else 0.0) + cost.amount];
        assert Currencies(more) == Currencies(front) + {cost.currency};
      } else {
        assert Currencies(more) == Currencies(front);
      }
    }
    assert sessions[..|sessions|] == sessions;
  }

  method ListSessions(sessions: Sessions) returns (projected: seq<SessionUsage>)
    ensures projected == ProjectedSessions(sessions)
  {
    var ids := SortSet(sessions.Keys);
    SortedMembers(sessions.Keys);
    projected := ProjectEach(sessions, ids);
    EachProjected(sessions, ids, projected);
  }

  method ProjectEach(sessions: Sessions, ids: seq<string>) returns (projected: seq<SessionUsage>)
    requires forall i :: 0 <= i < |ids| ==> ids[i] in sessions
    ensures |projected| == |ids| && forall k :: 0 <= k < |ids| ==> projected[k] == Project(sessions[ids[k]])
  {
    projected := [];
    for i := 0 to |ids|
      invariant |projected| == i && forall k :: 0 <= k < i ==> projected[k] == Project(sessions[ids[k]])
    {
      projected := projected + [Project(sessions[ids[i]])];
    }
  }

  lemma EachProjected(sessions: Sessions, ids: seq<string>, projected: seq<SessionUsage>)
    requires forall id <- ids :: id in sessions
    requires |projected| == |ids| && forall k :: 0 <= k < |ids| ==> projected[k] == Project(sessions[ids[k]])
    ensures projected == ProjectIds(sessions, ids)
  {
  }

  method ListCosts(projected: seq<SessionUsage>) returns (costs: seq<Cost>)
    ensures costs == CostsByCurrency(projected)
  {
    var costByCurrency := SumCosts(projected);
    var currencies := SortSet(costByCurrency.Keys);
    SortedMembers(costByCurrency.Keys);
    costs := CostsIn(costByCurrency, currencies);
    CostsListed(projected, currencies, costs);
  }

  lemma SortedMembers(s: set<string>)
    ensures forall i :: 0 <= i < |SortedSeq(s)| ==> SortedSeq(s)[i] in s
  {
    forall i | 0 <= i < |SortedSeq(s)| ensures SortedSeq(s)[i] in s {
      assert SortedSeq(s)[i] in SortedSeq(s);
    }
  }

  method CostsIn(costByCurrency: map<string, real>, currencies: seq<string>) returns (costs: seq<Cost>)
    requires forall i :: 0 <= i < |currencies| ==> currencies[i] in costByCurrency
    ensures |costs| == |currencies|
    ensures forall k :: 0 <= k < |costs| ==> costs[k] == Cost(costByCurrency[currencies[k]], currencies[k])
  {
    costs := [];
    for i := 0 to |currencies|
      invariant |costs| == i
      invariant forall k :: 0 <= k < i ==> costs[k] == Cost(costByCurrency[currencies[k]], currencies[k])
    {
      costs := costs + [Cost(costByCurrency[currencies[i]], currencies[i])];
    }
  }

  lemma CostsListed(projected: seq<SessionUsage>, currencies: seq<string>, costs: seq<Cost>)
    requires currencies == SortedSeq(Currencies(projected)) && |costs| == |currencies|
    requires forall k :: 0 <= k < |costs| ==> costs[k] == Cost(CostSum(projected, currencies[k]), currencies[k])
    ensures costs == CostsByCurrency(projected)
  {
  }

  method SumTokens(projected: seq<SessionUsage>) returns (total: real, complete: bool)
    ensures total == TokenSum(projected) && (complete <==> AllComplete(projected))
  {
    total, complete := 0.0, true;
    for i := 0 to |projected|
      invariant total == TokenSum(projected[..i])
      invariant complete <==> AllComplete(projected[..i])
    {
      var front, more := projected[..i], projected[..i + 1];
      assert more[..i] == front && more == front + [projected[i]];
      total := total + projected[i].tokens;
      complete := complete && projected[i].complete;
    }
    assert projected[..|projected|] == projected;
  }

  method FinalizeUsageSessions(sessions: Sessions) returns (usage: TaskUsage)
    ensures usage == Aggregate(sessions)
  {
    var projected := ListSessions(sessions);
    var costs := ListCosts(projected);
    var total, complete := SumTokens(projected);
    usage := TaskUsage(|projected| > 0, total, costs, projected, |projected| > 0 && complete);
  }

  method FoldSource(sessions: Sessions, source: TaskUsage) returns (r: Sessions)
    ensures r == FoldAll(sessions, SourceObservations(source))
  {
    r := sessions;
    if !source.available { return; }
    var obs := SourceObservations(source);
    for i := 0 to |source.sessions|
      invariant r == FoldAll(sessions, obs[..i])
    {
      assert obs[..i + 1][..i] == obs[..i];
      r := Fold(r, SourceObservation(source.sessions[i]));
    }
    assert obs[..|source.sessions|] == obs;
  }

  /** The finished aggregate of two sources, the file's first and the accumulator's second. */
  method MergeTaskDriverUsage(fileScanned: TaskUsage, accumulated: Option<TaskUsage>) returns (usage: TaskUsage)
    ensures usage == Aggregate(MergedSessions(fileScanned, accumulated))
  {
    var sessions := FoldSource(map[], fileScanned);
    if accumulated.Some? {
      FoldAppend(map[], SourceObservations(fileScanned), SourceObservations(accumulated.value));
      sessions := FoldSource(sessions, accumulated.value);
    } else {
      assert SourceObservations(fileScanned) + [] == SourceObservations(fileScanned);
    }
    usage := FinalizeUsageSessions(sessions);
  }
}
