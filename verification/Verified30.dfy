/** Selecting the thirty cases of the verified slice: quotas by repository and by difficulty, filled greedily. */
module Verified30 {

  datatype Repo = Django | Sklearn | Requests | Flask
  datatype Tier = Easy | Medium | Hard | Unknown
  datatype Candidate = Candidate(id: string, repo: Repo, tier: Tier)

  const TIER_QUOTA := 10
  const TOTAL := 30

  function RepoQuota(r: Repo): nat {
    match r
    case Django => 9
    case Sklearn => 9
    case Requests => 6
    case Flask => 6
  }

  function Min(a: int, b: int): int {
    if a <= b then a else b
  }

  ghost predicate DistinctIds(candidates: seq<Candidate>) {
    forall i, j :: 0 <= i < j < |candidates| ==> candidates[i].id != candidates[j].id
  }

  datatype Selection = Selection(selected: seq<Candidate>, repoCounts: map<Repo, nat>, tierCounts: map<Tier, nat>) {

    function RepoCount(r: Repo): nat {
      if r in repoCounts then repoCounts[r] else 0
    }

    function TierCount(t: Tier): nat {
      if t in tierCounts then tierCounts[t] else 0
    }

    /** Append a candidate and count it; one of unknown tier counts for no tier. */
    function Add(c: Candidate): Selection {
      Selection(
        selected + [c],
        repoCounts[c.repo := RepoCount(c.repo) + 1],
        if c.tier in tierCounts then tierCounts[c.tier := TierCount(c.tier) + 1] else tierCounts)
    }
  }

  function Start(): Selection {
    Selection([], map[Django := 0, Sklearn := 0, Requests := 0, Flask := 0], map[Easy := 0, Medium := 0, Hard := 0])
  }

  // ----- what the passes select -----

  predicate IsLarge(r: Repo) {
    r == Django || r == Sklearn
  }

  /** What a loop looks for: one repository and tier, one repository, or the two large ones. */
  datatype Want = InTier(repo: Repo, tier: Tier) | InRepo(repo: Repo) | InLarge

  predicate Fits(c: Candidate, want: Want) {
    match want
    case InTier(r, t) => c.repo == r && c.tier == t
    case InRepo(r) => c.repo == r
    case InLarge => IsLarge(c.repo)
  }

  /** The candidates not yet selected that a loop looks for, in order. */
  ghost function Eligible(candidates: seq<Candidate>, selected: seq<Candidate>, want: Want)
      : seq<Candidate>
  {
    if candidates == [] then []
    else
      var n := |candidates| - 1;
      var c := candidates[n];
      var front := Eligible(candidates[..n], selected, want);
      if Fits(c, want) && c !in selected then front + [c] else front
  }

  ghost function Take(s: seq<Candidate>, n: int): (r: seq<Candidate>)
    ensures r <= s
  {
    if n <= 0 then [] else if |s| <= n then s else s[..n]
  }

  ghost function AddAll(st: Selection, added: seq<Candidate>): Selection {
    if added == [] then st else AddAll(st, added[..|added| - 1]).Add(added[|added| - 1])
  }

  function TierRoom(st: Selection, r: Repo, t: Tier, need: nat): int {
    Min(need - st.RepoCount(r), TIER_QUOTA - st.TierCount(t))
  }

  /** The first eligible candidates of one repository and tier, as far as both quotas have room. */
  ghost function FilledTier(candidates: seq<Candidate>, st: Selection, r: Repo, t: Tier, need: nat): Selection {
    AddAll(st, Take(Eligible(candidates, st.selected, InTier(r, t)), TierRoom(st, r, t, need)))
  }

  /** Difficult cases first. */
  ghost function FilledTiers(candidates: seq<Candidate>, st: Selection, r: Repo, need: nat): Selection {
    var hard := FilledTier(candidates, st, r, Hard, need);
    var medium := FilledTier(candidates, hard, r, Medium, need);
    FilledTier(candidates, medium, r, Easy, need)
  }

  function RepoRoom(st: Selection, r: Repo, need: nat): int {
    need - st.RepoCount(r)
  }

  /** The first eligible candidates of one repository, whatever their tier. */
  ghost function FilledRepo(candidates: seq<Candidate>, st: Selection, r: Repo, need: nat): Selection {
    AddAll(st, Take(Eligible(candidates, st.selected, InRepo(r)), RepoRoom(st, r, need)))
  }

  /** Candidates of the two large repositories whose tier has room, in order, up to the total. */
  ghost function ToppedUpTiers(candidates: seq<Candidate>, st: Selection): Selection {
    if candidates == [] then st
    else
      var n := |candidates| - 1;
      var s := ToppedUpTiers(candidates[..n], st);
      if TakesForTier(s, candidates[n]) then s.Add(candidates[n]) else s
  }

  ghost predicate TakesForTier(st: Selection, c: Candidate) {
    && |st.selected| < TOTAL && c !in st.selected && IsLarge(c.repo)
    && !(c.tier in st.tierCounts && st.TierCount(c.tier) >= TIER_QUOTA)
  }

  /** The first candidates left of the two large repositories, up to the total. */
  ghost function ToppedUp(candidates: seq<Candidate>, st: Selection): Selection {
    AddAll(st, Take(Eligible(candidates, st.selected, InLarge), TOTAL - |st.selected|))
  }

  // ----- the loops -----

  lemma {:induction false} EligibleMembers(candidates: seq<Candidate>, selected: seq<Candidate>, want: Want, c: Candidate)
    ensures c in Eligible(candidates, selected, want)
       <==> c in candidates && Fits(c, want) && c !in selected
  {
    if candidates != [] {
      var n := |candidates| - 1;
      EligibleMembers(candidates[..n], selected, want, c);
      assert candidates == candidates[..n] + [candidates[n]];
    }
  }

  lemma {:induction false} EligibleGrows(candidates: seq<Candidate>, selected: seq<Candidate>, want: Want, i: nat)
    requires i <= |candidates|
    ensures Eligible(candidates[..i], selected, want) <= Eligible(candidates, selected, want)
  {
    if i == |candidates| {
      assert candidates[..i] == candidates;
    } else {
      var n := |candidates| - 1;
      EligibleGrows(candidates[..n], selected, want, i);
      assert candidates[..n][..i] == candidates[..i];
    }
  }

  lemma EligibleStep(candidates: seq<Candidate>, selected: seq<Candidate>, want: Want, i: nat)
    requires i < |candidates|
    ensures Eligible(candidates[..i + 1], selected, want)
         == if Fits(candidates[i], want) && candidates[i] !in selected
            then Eligible(candidates[..i], selected, want) + [candidates[i]]
            else Eligible(candidates[..i], selected, want)
  {
    assert candidates[..i + 1][..i] == candidates[..i];
  }

  lemma TakeStep(s: seq<Candidate>, c: Candidate, n: int)
    ensures |Take(s, n)| < n ==> Take(s + [c], n) == Take(s, n) + [c]
    ensures |Take(s, n)| >= n ==> Take(s + [c], n) == Take(s, n)
  {
    if 0 < n <= |s| { assert (s + [c])[..n] == s[..n]; }
  }

  lemma AddAllSnoc(st: Selection, added: seq<Candidate>, c: Candidate)
    ensures AddAll(st, added + [c]) == AddAll(st, added).Add(c)
  {
    assert (added + [c])[..|added|] == added;
  }

  /** A candidate met for the first time is not among those added for the ones before it. */
  lemma NewCandidate(candidates: seq<Candidate>, selected: seq<Candidate>, want: Want, i: nat,
      added: seq<Candidate>)
    requires DistinctIds(candidates) && i < |candidates|
    requires added <= Eligible(candidates[..i], selected, want)
    ensures candidates[i] in selected + added <==> candidates[i] in selected
  {
    EligibleMembers(candidates[..i], selected, want, candidates[i]);
  }

  lemma TakeDone(candidates: seq<Candidate>, selected: seq<Candidate>, want: Want, n: int, i: nat)
    requires i <= |candidates|
    requires i == |candidates| || |Take(Eligible(candidates[..i], selected, want), n)| >= n
    ensures Take(Eligible(candidates[..i], selected, want), n) == Take(Eligible(candidates, selected, want), n)
  {
    var s, whole := Eligible(candidates[..i], selected, want), Eligible(candidates, selected, want);
    EligibleGrows(candidates, selected, want, i);
    if i == |candidates| {
      assert candidates[..i] == candidates;
    } else if n > 0 {
      assert whole[..n] == s[..n];
    }
  }

  ghost predicate AddedInRepo(before: Selection, st: Selection, r: Repo, added: seq<Candidate>)
  {
    && st == AddAll(before, added) && st.selected == before.selected + added
    && st.RepoCount(r) == before.RepoCount(r) + |added|
  }

  lemma AddInRepo(before: Selection, st: Selection, r: Repo, added: seq<Candidate>, c: Candidate)
    requires AddedInRepo(before, st, r, added) && c.repo == r
    ensures AddedInRepo(before, st.Add(c), r, added + [c])
  {
    AddAllSnoc(before, added, c);
  }

  /** What a loop over the first i candidates has selected for a repository. */
  ghost predicate Filling(candidates: seq<Candidate>, before: Selection, st: Selection, r: Repo, want: Want,
      room: int, i: nat)
    requires i <= |candidates|
  {
    AddedInRepo(before, st, r, Take(Eligible(candidates[..i], before.selected, want), room))
  }

  lemma FillStart(candidates: seq<Candidate>, before: Selection, r: Repo, want: Want, room: int)
    ensures Filling(candidates, before, before, r, want, room, 0)
  {
    assert before.selected + [] == before.selected;
  }

  predicate Wanted(c: Candidate, st: Selection, want: Want) {
    Fits(c, want) && c !in st.selected
  }

  lemma FillAdd(candidates: seq<Candidate>, before: Selection, st: Selection, r: Repo, want: Want, room: int, i: nat)
    requires DistinctIds(candidates) && i < |candidates|
    requires Filling(candidates, before, st, r, want, room, i)
    requires candidates[i].repo == r && Wanted(candidates[i], st, want) && st.RepoCount(r) - before.RepoCount(r) < room
    ensures Filling(candidates, before, st.Add(candidates[i]), r, want, room, i + 1)
  {
    var c, front := candidates[i], Eligible(candidates[..i], before.selected, want);
    EligibleStep(candidates, before.selected, want, i);
    NewCandidate(candidates, before.selected, want, i, Take(front, room));
    TakeStep(front, c, room);
    AddInRepo(before, st, r, Take(front, room), c);
  }

  lemma FillSkip(candidates: seq<Candidate>, before: Selection, st: Selection, r: Repo, want: Want, room: int, i: nat)
    requires DistinctIds(candidates) && i < |candidates|
    requires Filling(candidates, before, st, r, want, room, i)
    requires !Wanted(candidates[i], st, want) || st.RepoCount(r) - before.RepoCount(r) >= room
    ensures Filling(candidates, before, st, r, want, room, i + 1)
  {
    var c, front := candidates[i], Eligible(candidates[..i], before.selected, want);
    EligibleStep(candidates, before.selected, want, i);
    NewCandidate(candidates, before.selected, want, i, Take(front, room));
    TakeStep(front, c, room);
  }

  lemma FillEnd(candidates: seq<Candidate>, before: Selection, st: Selection, r: Repo, want: Want, room: int, i: nat)
    requires i <= |candidates|
    requires Filling(candidates, before, st, r, want, room, i)
    requires i == |candidates| || st.RepoCount(r) - before.RepoCount(r) >= room
    ensures st == AddAll(before, Take(Eligible(candidates, before.selected, want), room))
  {
    TakeDone(candidates, before.selected, want, room, i);
  }

  /** In one tier both counts go up together. */
  predicate Together(before: Selection, st: Selection, r: Repo, t: Tier) {
    t in st.tierCounts && st.TierCount(t) + before.RepoCount(r) == before.TierCount(t) + st.RepoCount(r)
  }

  lemma TierStep(candidates: seq<Candidate>, before: Selection, st: Selection, r: Repo, t: Tier, need: nat, i: nat)
    requires DistinctIds(candidates) && i < |candidates| && st.RepoCount(r) < need
    requires Together(before, st, r, t) && Filling(candidates, before, st, r, InTier(r, t), TierRoom(before, r, t, need), i)
    ensures var next := if Wanted(candidates[i], st, InTier(r, t)) && st.TierCount(t) < TIER_QUOTA then st.Add(candidates[i]) else st;
            && Together(before, next, r, t)
            && Filling(candidates, before, next, r, InTier(r, t), TierRoom(before, r, t, need), i + 1)
  {
    if Wanted(candidates[i], st, InTier(r, t)) && st.TierCount(t) < TIER_QUOTA {
      FillAdd(candidates, before, st, r, InTier(r, t), TierRoom(before, r, t, need), i);
    } else {
      FillSkip(candidates, before, st, r, InTier(r, t), TierRoom(before, r, t, need), i);
    }
  }

  method FillTier(candidates: seq<Candidate>, before: Selection, repo: Repo, tier: Tier, need: nat)
      returns (st: Selection)
    requires DistinctIds(candidates) && tier in before.tierCounts
    ensures st == FilledTier(candidates, before, repo, tier, need)
  {
    st := before;
    FillStart(candidates, before, repo, InTier(repo, tier), TierRoom(before, repo, tier, need));
    var i := 0;
    while i < |candidates| && st.RepoCount(repo) < need
      invariant 0 <= i <= |candidates|
      invariant Together(before, st, repo, tier)
      invariant Filling(candidates, before, st, repo, InTier(repo, tier), TierRoom(before, repo, tier, need), i)
    {
      var c := candidates[i];
      TierStep(candidates, before, st, repo, tier, need, i);
      if !(c.repo != repo || c.tier != tier || c in st.selected || st.TierCount(tier) >= TIER_QUOTA) {
        st := st.Add(c);
      }
      i := i + 1;
    }
    FillEnd(candidates, before, st, repo, InTier(repo, tier), TierRoom(before, repo, tier, need), i);
  }

  lemma RepoStep(candidates: seq<Candidate>, before: Selection, st: Selection, r: Repo, need: nat, i: nat)
    requires DistinctIds(candidates) && i < |candidates| && st.RepoCount(r) < need
    requires Filling(candidates, before, st, r, InRepo(r), RepoRoom(before, r, need), i)
    ensures var next := if candidates[i].repo == r && candidates[i] !in st.selected then st.Add(candidates[i]) else st;
            Filling(candidates, before, next, r, InRepo(r), RepoRoom(before, r, need), i + 1)
  {
    if candidates[i].repo == r && candidates[i] !in st.selected {
      FillAdd(candidates, before, st, r, InRepo(r), RepoRoom(before, r, need), i);
    } else {
      FillSkip(candidates, before, st, r, InRepo(r), RepoRoom(before, r, need), i);
    }
  }

  method FillRepo(candidates: seq<Candidate>, before: Selection, repo: Repo, need: nat) returns (st: Selection)
    requires DistinctIds(candidates)
    ensures st == FilledRepo(candidates, before, repo, need)
  {
    st := before;
    FillStart(candidates, before, repo, InRepo(repo), RepoRoom(before, repo, need));
    var i := 0;
    while i < |candidates| && st.RepoCount(repo) < need
      invariant 0 <= i <= |candidates|
      invariant Filling(candidates, before, st, repo, InRepo(repo), RepoRoom(before, repo, need), i)
    {
      var c := candidates[i];
      RepoStep(candidates, before, st, repo, need, i);
      if !(c.repo != repo || c in st.selected) {
        st := st.Add(c);
      }
      i := i + 1;
    }
    FillEnd(candidates, before, st, repo, InRepo(repo), RepoRoom(before, repo, need), i);
  }

  // ----- the counts are right -----

  ghost predicate NoDuplicates(s: seq<Candidate>) {
    forall i, j :: 0 <= i < j < |s| ==> s[i] != s[j]
  }

  ghost function OfRepo(s: seq<Candidate>, r: Repo): set<Candidate> {
    set c | c in s && c.repo == r
  }

  ghost function OfTier(s: seq<Candidate>, t: Tier): set<Candidate> {
    set c | c in s && c.tier == t
  }

  ghost function Available(candidates: seq<Candidate>, r: Repo): nat {
    |OfRepo(candidates, r)|
  }

  ghost function Need(candidates: seq<Candidate>, r: Repo): nat {
    Min(RepoQuota(r), Available(candidates, r))
  }

  /** The selection has no duplicates, and each count is the number of selected candidates it counts. */
  ghost predicate Sound(st: Selection, candidates: seq<Candidate>) {
    && NoDuplicates(st.selected)
    && (forall i :: 0 <= i < |st.selected| ==> st.selected[i] in candidates)
    && (forall r: Repo :: st.RepoCount(r) == |OfRepo(st.selected, r)|)
    && (forall t: Tier :: t in st.tierCounts <==> t in {Easy, Medium, Hard})
    && (forall t: Tier :: t in st.tierCounts ==> st.TierCount(t) == |OfTier(st.selected, t)|)
  }

  lemma StartSound(candidates: seq<Candidate>)
    ensures Sound(Start(), candidates)
  {
    var st := Start();
    forall r: Repo ensures st.RepoCount(r) == |OfRepo(st.selected, r)| {
      assert OfRepo(st.selected, r) == {};
      match r { case Django => case Sklearn => case Requests => case Flask => }
    }
    forall t: Tier ensures t in st.tierCounts ==> st.TierCount(t) == |OfTier(st.selected, t)| {
      assert OfTier(st.selected, t) == {};
      match t { case Easy => case Medium => case Hard => case Unknown => }
    }
  }

  lemma RepoGrows(s: seq<Candidate>, c: Candidate, r: Repo)
    requires c !in s
    ensures |OfRepo(s + [c], r)| == |OfRepo(s, r)| + if c.repo == r then 1 else 0
  {
    if c.repo == r {
      assert OfRepo(s + [c], r) == OfRepo(s, r) + {c};
    } else {
      assert OfRepo(s + [c], r) == OfRepo(s, r);
    }
  }

  lemma TierGrows(s: seq<Candidate>, c: Candidate, t: Tier)
    requires c !in s
    ensures |OfTier(s + [c], t)| == |OfTier(s, t)| + if c.tier == t then 1 else 0
  {
    if c.tier == t {
      assert OfTier(s + [c], t) == OfTier(s, t) + {c};
    } else {
      assert OfTier(s + [c], t) == OfTier(s, t);
    }
  }

  lemma AddSound(st: Selection, candidates: seq<Candidate>, c: Candidate)
    requires Sound(st, candidates) && c in candidates && c !in st.selected
    ensures Sound(st.Add(c), candidates)
  {
    forall r: Repo ensures st.Add(c).RepoCount(r) == |OfRepo(st.selected + [c], r)| {
      RepoGrows(st.selected, c, r);
    }
    forall t: Tier | t in st.tierCounts ensures st.Add(c).TierCount(t) == |OfTier(st.selected + [c], t)| {
      TierGrows(st.selected, c, t);
    }
  }

  lemma {:induction false} AddAllSelected(st: Selection, added: seq<Candidate>)
    ensures AddAll(st, added).selected == st.selected + added
  {
    if added == [] {
      assert st.selected + added == st.selected;
    } else {
      var front, last := added[..|added| - 1], added[|added| - 1];
      AddAllSelected(st, front);
      assert added == front + [last];
      assert st.selected + added == st.selected + front + [last];
    }
  }

  lemma {:induction false} AddAllSound(st: Selection, added: seq<Candidate>, candidates: seq<Candidate>)
    requires Sound(st, candidates) && NoDuplicates(added)
    requires forall i :: 0 <= i < |added| ==> added[i] in candidates && added[i] !in st.selected
    ensures Sound(AddAll(st, added), candidates)
  {
    if added != [] {
      var front, last := added[..|added| - 1], added[|added| - 1];
      AddAllSound(st, front, candidates);
      AddAllSelected(st, front);
      assert last !in front;
      AddSound(AddAll(st, front), candidates, last);
    }
  }

  lemma {:induction false} EligibleDistinct(candidates: seq<Candidate>, selected: seq<Candidate>, want: Want)
    requires DistinctIds(candidates)
    ensures NoDuplicates(Eligible(candidates, selected, want))
  {
    if candidates != [] {
      var n := |candidates| - 1;
      EligibleDistinct(candidates[..n], selected, want);
      EligibleMembers(candidates[..n], selected, want, candidates[n]);
    }
  }

  /** Adding some of the eligible candidates keeps the counts right, and adds only such candidates. */
  lemma TakeSound(candidates: seq<Candidate>, st: Selection, want: Want, n: int)
    requires DistinctIds(candidates) && Sound(st, candidates)
    ensures Sound(AddAll(st, Take(Eligible(candidates, st.selected, want), n)), candidates)
  {
    var eligible := Eligible(candidates, st.selected, want);
    var added := Take(eligible, n);
    EligibleDistinct(candidates, st.selected, want);
    forall i | 0 <= i < |added| ensures added[i] in candidates && added[i] !in st.selected {
      assert added[i] == eligible[i];
      EligibleMembers(candidates, st.selected, want, added[i]);
    }
    AddAllSound(st, added, candidates);
  }

  lemma {:induction false} AddAllRepo(st: Selection, added: seq<Candidate>, r: Repo)
    ensures AddAll(st, added).RepoCount(r) >= st.RepoCount(r)
    ensures (forall i :: 0 <= i < |added| ==> added[i].repo != r) ==> AddAll(st, added).RepoCount(r) == st.RepoCount(r)
    ensures (forall i :: 0 <= i < |added| ==> added[i].repo == r) ==>
              AddAll(st, added).RepoCount(r) == st.RepoCount(r) + |added|
  {
    if added != [] { AddAllRepo(st, added[..|added| - 1], r); }
  }

  lemma {:induction false} AddAllTier(st: Selection, added: seq<Candidate>, t: Tier)
    ensures t in AddAll(st, added).tierCounts <==> t in st.tierCounts
    ensures AddAll(st, added).TierCount(t) >= st.TierCount(t)
    ensures (forall i :: 0 <= i < |added| ==> added[i].tier != t) ==> AddAll(st, added).TierCount(t) == st.TierCount(t)
    ensures (forall i :: 0 <= i < |added| ==> added[i].tier == t) && t in st.tierCounts ==>
              AddAll(st, added).TierCount(t) == st.TierCount(t) + |added|
  {
    if added != [] { AddAllTier(st, added[..|added| - 1], t); }
  }

  lemma EligibleIn(candidates: seq<Candidate>, selected: seq<Candidate>, want: Want,
      added: seq<Candidate>)
    requires added <= Eligible(candidates, selected, want)
    ensures forall i :: 0 <= i < |added| ==> Fits(added[i], want)
  {
    forall i | 0 <= i < |added| ensures Fits(added[i], want) {
      EligibleMembers(candidates, selected, want, added[i]);
    }
  }

  // ----- the first pass -----

  /** No candidate is left for a repository and tier, or one of its quotas is used up. */
  ghost predicate Settled(st: Selection, candidates: seq<Candidate>, r: Repo, t: Tier, need: nat) {
    || st.RepoCount(r) >= need || st.TierCount(t) >= TIER_QUOTA
    || Eligible(candidates, st.selected, InTier(r, t)) == []
  }

  lemma {:induction false} EligibleShrinks(candidates: seq<Candidate>, selected: seq<Candidate>, more: seq<Candidate>,
      want: Want)
    ensures |Eligible(candidates, selected + more, want)| <= |Eligible(candidates, selected, want)|
  {
    if candidates != [] { EligibleShrinks(candidates[..|candidates| - 1], selected, more, want); }
  }

  lemma {:induction false} EligibleUsedUp(candidates: seq<Candidate>, selected: seq<Candidate>, added: seq<Candidate>,
      want: Want)
    requires forall c :: c in candidates && Fits(c, want) ==> c in selected + added
    ensures Eligible(candidates, selected + added, want) == []
  {
    if candidates != [] {
      var n := |candidates| - 1;
      assert candidates[n] in candidates;
      EligibleUsedUp(candidates[..n], selected, added, want);
    }
  }

  lemma FilledTierRepo(candidates: seq<Candidate>, st: Selection, r: Repo, t: Tier, need: nat, q: Repo)
    ensures var s := FilledTier(candidates, st, r, t, need);
            && s.RepoCount(q) >= st.RepoCount(q)
            && (if q == r then st.RepoCount(q) <= need ==> s.RepoCount(q) <= need
                else s.RepoCount(q) == st.RepoCount(q))
  {
    var room := TierRoom(st, r, t, need);
    var added := Take(Eligible(candidates, st.selected, InTier(r, t)), room);
    EligibleIn(candidates, st.selected, InTier(r, t), added);
    assert forall i :: 0 <= i < |added| ==> added[i].repo == r;
    AddAllRepo(st, added, q);
  }

  lemma FilledTierTier(candidates: seq<Candidate>, st: Selection, r: Repo, t: Tier, need: nat, u: Tier)
    requires t in st.tierCounts
    ensures var s := FilledTier(candidates, st, r, t, need);
            && (u in s.tierCounts <==> u in st.tierCounts) && s.TierCount(u) >= st.TierCount(u)
            && (if u == t then st.TierCount(u) <= TIER_QUOTA ==> s.TierCount(u) <= TIER_QUOTA
                else s.TierCount(u) == st.TierCount(u))
  {
    var room := TierRoom(st, r, t, need);
    var added := Take(Eligible(candidates, st.selected, InTier(r, t)), room);
    EligibleIn(candidates, st.selected, InTier(r, t), added);
    assert forall i :: 0 <= i < |added| ==> added[i].tier == t;
    AddAllTier(st, added, u);
  }

  lemma FilledTierSettles(candidates: seq<Candidate>, st: Selection, r: Repo, t: Tier, need: nat)
    requires t in st.tierCounts
    ensures Settled(FilledTier(candidates, st, r, t, need), candidates, r, t, need)
  {
    var room := TierRoom(st, r, t, need);
    var eligible := Eligible(candidates, st.selected, InTier(r, t));
    var added := Take(eligible, room);
    EligibleIn(candidates, st.selected, InTier(r, t), added);
    AddAllRepo(st, added, r);
    AddAllTier(st, added, t);
    AddAllSelected(st, added);
    if |added| < room {
      forall c | c in candidates && Fits(c, InTier(r, t)) ensures c in st.selected + added {
        EligibleMembers(candidates, st.selected, InTier(r, t), c);
      }
      EligibleUsedUp(candidates, st.selected, added, InTier(r, t));
    }
  }

  lemma SettledStays(candidates: seq<Candidate>, st: Selection, r: Repo, t: Tier, need: nat, q: Repo, u: Tier,
      needed: nat)
    requires u in st.tierCounts && Settled(st, candidates, r, t, need)
    ensures Settled(FilledTier(candidates, st, q, u, needed), candidates, r, t, need)
  {
    FilledTierRepo(candidates, st, q, u, needed, r);
    FilledTierTier(candidates, st, q, u, needed, t);
    var room := TierRoom(st, q, u, needed);
    var added := Take(Eligible(candidates, st.selected, InTier(q, u)), room);
    AddAllSelected(st, added);
    EligibleShrinks(candidates, st.selected, added, InTier(r, t));
  }

  // ----- the passes over all repositories -----

  ghost function AfterFirst(candidates: seq<Candidate>, order: seq<Repo>): Selection {
    if order == [] then Start()
    else
      var r := order[|order| - 1];
      FilledTiers(candidates, AfterFirst(candidates, order[..|order| - 1]), r, Need(candidates, r))
  }

  ghost function AfterSecond(candidates: seq<Candidate>, st: Selection, order: seq<Repo>): Selection {
    if order == [] then st
    else
      var r := order[|order| - 1];
      FilledRepo(candidates, AfterSecond(candidates, st, order[..|order| - 1]), r, Need(candidates, r))
  }

  ghost predicate HasTiers(st: Selection) {
    Easy in st.tierCounts && Medium in st.tierCounts && Hard in st.tierCounts
  }

  lemma FilledTiersHas(candidates: seq<Candidate>, st: Selection, r: Repo, need: nat)
    requires HasTiers(st)
    ensures HasTiers(FilledTier(candidates, st, r, Hard, need))
    ensures HasTiers(FilledTier(candidates, FilledTier(candidates, st, r, Hard, need), r, Medium, need))
    ensures HasTiers(FilledTiers(candidates, st, r, need))
  {
    FilledTierHas(candidates, st, r, Hard, need);
    var hard := FilledTier(candidates, st, r, Hard, need);
    FilledTierHas(candidates, hard, r, Medium, need);
    var medium := FilledTier(candidates, hard, r, Medium, need);
    FilledTierHas(candidates, medium, r, Easy, need);
  }

  lemma FilledTierHas(candidates: seq<Candidate>, st: Selection, r: Repo, t: Tier, need: nat)
    requires HasTiers(st) && t in st.tierCounts
    ensures HasTiers(FilledTier(candidates, st, r, t, need))
  {
    FilledTierTier(candidates, st, r, t, need, Hard);
    FilledTierTier(candidates, st, r, t, need, Medium);
    FilledTierTier(candidates, st, r, t, need, Easy);
  }

  ghost predicate AreNeeds(need: map<Repo, nat>, candidates: seq<Candidate>) {
    forall r: Repo :: r in need && need[r] == Need(candidates, r)
  }

  method FillTiers(candidates: seq<Candidate>, before: Selection, repo: Repo, need: nat) returns (st: Selection)
    requires DistinctIds(candidates) && HasTiers(before)
    ensures st == FilledTiers(candidates, before, repo, need) && HasTiers(st)
  {
    FilledTiersHas(candidates, before, repo, need);
    var hard := FillTier(candidates, before, repo, Hard, need);
    var medium := FillTier(candidates, hard, repo, Medium, need);
    st := FillTier(candidates, medium, repo, Easy, need);
  }

  method FirstPass(candidates: seq<Candidate>, order: seq<Repo>, need: map<Repo, nat>) returns (st: Selection)
    requires DistinctIds(candidates) && AreNeeds(need, candidates)
    ensures st == AfterFirst(candidates, order)
  {
    st := Start();
    for k := 0 to |order|
      invariant st == AfterFirst(candidates, order[..k]) && HasTiers(st)
    {
      assert order[..k + 1][..k] == order[..k];
      st := FillTiers(candidates, st, order[k], need[order[k]]);
    }
    assert order[..|order|] == order;
  }

  method SecondPass(candidates: seq<Candidate>, before: Selection, order: seq<Repo>, need: map<Repo, nat>)
      returns (st: Selection)
    requires DistinctIds(candidates) && AreNeeds(need, candidates)
    ensures st == AfterSecond(candidates, before, order)
  {
    st := before;
    for k := 0 to |order|
      invariant st == AfterSecond(candidates, before, order[..k])
    {
      assert order[..k + 1][..k] == order[..k];
      st := FillRepo(candidates, st, order[k], need[order[k]]);
    }
    assert order[..|order|] == order;
  }

  /** How many candidates each repository has, cut off at its quota. */
  method EffectiveQuotas(candidates: seq<Candidate>) returns (need: map<Repo, nat>)
    requires DistinctIds(candidates)
    ensures AreNeeds(need, candidates)
  {
    var avail: map<Repo, nat> := map[];
    for i := 0 to |candidates|
      invariant forall r: Repo :: (if r in avail then avail[r] else 0) == |OfRepo(candidates[..i], r)|
    {
      var c := candidates[i];
      assert c !in candidates[..i];
      forall r: Repo ensures |OfRepo(candidates[..i + 1], r)| == |OfRepo(candidates[..i], r)| + if c.repo == r then 1 else 0 {
        RepoGrows(candidates[..i], c, r);
        assert candidates[..i + 1] == candidates[..i] + [c];
      }
      avail := avail[c.repo := (if c.repo in avail then avail[c.repo] else 0) + 1];
    }
    assert candidates[..|candidates|] == candidates;
    need := map r: Repo | r in {Django, Sklearn, Requests, Flask} :: Min(RepoQuota(r), if r in avail then avail[r] else 0);
    forall r: Repo ensures r in need {
      match r { case Django => case Sklearn => case Requests => case Flask => }
    }
  }

  // ----- topping up -----

  /** The ids are those of the selected candidates: with distinct ids, a candidate is selected exactly if its id is. */
  ghost predicate AreIdsOf(ids: set<string>, candidates: seq<Candidate>, selected: seq<Candidate>) {
    forall j :: 0 <= j < |candidates| ==> (candidates[j].id in ids <==> candidates[j] in selected)
  }

  lemma IdsAtStart(candidates: seq<Candidate>, selected: seq<Candidate>)
    requires DistinctIds(candidates) && forall x :: x in selected ==> x in candidates
    ensures AreIdsOf(set c | c in selected :: c.id, candidates, selected)
  {
    var ids := set c | c in selected :: c.id;
    forall j | 0 <= j < |candidates| && candidates[j].id in ids ensures candidates[j] in selected {
      var x :| x in selected && x.id == candidates[j].id;
      var k :| 0 <= k < |candidates| && candidates[k] == x;
      assert j == k;
    }
  }

  lemma IdAdded(candidates: seq<Candidate>, ids: set<string>, selected: seq<Candidate>, i: nat)
    requires DistinctIds(candidates) && i < |candidates| && AreIdsOf(ids, candidates, selected)
    ensures AreIdsOf(ids + {candidates[i].id}, candidates, selected + [candidates[i]])
  {
  }

  lemma {:induction false} NoneTakenWhenFull(candidates: seq<Candidate>, st: Selection, i: nat)
    requires i <= |candidates| && |ToppedUpTiers(candidates[..i], st).selected| >= TOTAL
    ensures ToppedUpTiers(candidates, st) == ToppedUpTiers(candidates[..i], st)
  {
    if i == |candidates| {
      assert candidates[..i] == candidates;
    } else {
      var n := |candidates| - 1;
      assert candidates[..n][..i] == candidates[..i];
      NoneTakenWhenFull(candidates[..n], st, i);
    }
  }

  method TopUpTiers(candidates: seq<Candidate>, before: Selection) returns (st: Selection)
    requires DistinctIds(candidates) && forall x :: x in before.selected ==> x in candidates
    ensures st == ToppedUpTiers(candidates, before)
  {
    st := before;
    var ids := set c | c in before.selected :: c.id;
    IdsAtStart(candidates, before.selected);
    var i := 0;
    while i < |candidates| && |st.selected| < TOTAL
      invariant 0 <= i <= |candidates|
      invariant st == ToppedUpTiers(candidates[..i], before)
      invariant AreIdsOf(ids, candidates, st.selected)
    {
      var c := candidates[i];
      IdAdded(candidates, ids, st.selected, i);
      assert candidates[..i + 1][..i] == candidates[..i];
      if c.id !in ids && IsLarge(c.repo) && !(c.tier in st.tierCounts && st.TierCount(c.tier) >= TIER_QUOTA) {
        st := st.Add(c);
        ids := ids + {c.id};
      }
      i := i + 1;
    }
    if i == |candidates| { assert candidates[..i] == candidates; } else { NoneTakenWhenFull(candidates, before, i); }
  }

  ghost predicate ToppingUp(candidates: seq<Candidate>, before: Selection, st: Selection, i: nat)
    requires i <= |candidates|
  {
    var added := Take(Eligible(candidates[..i], before.selected, InLarge), TOTAL - |before.selected|);
    st == AddAll(before, added) && st.selected == before.selected + added
  }

  lemma TopUpStep(candidates: seq<Candidate>, before: Selection, st: Selection, i: nat)
    requires DistinctIds(candidates) && i < |candidates| && |st.selected| < TOTAL
    requires ToppingUp(candidates, before, st, i)
    ensures var c := candidates[i];
            ToppingUp(candidates, before, if c !in st.selected && IsLarge(c.repo) then st.Add(c) else st, i + 1)
  {
    var c, front := candidates[i], Eligible(candidates[..i], before.selected, InLarge);
    var added := Take(front, TOTAL - |before.selected|);
    EligibleStep(candidates, before.selected, InLarge, i);
    NewCandidate(candidates, before.selected, InLarge, i, added);
    TakeStep(front, c, TOTAL - |before.selected|);
    AddAllSnoc(before, added, c);
    AddAllSelected(before, added + [c]);
  }

  method TopUp(candidates: seq<Candidate>, before: Selection) returns (st: Selection)
    requires DistinctIds(candidates) && forall x :: x in before.selected ==> x in candidates
    ensures st == ToppedUp(candidates, before)
  {
    st := before;
    var ids := set c | c in before.selected :: c.id;
    IdsAtStart(candidates, before.selected);
    assert before.selected + [] == before.selected;
    var i := 0;
    while i < |candidates| && |st.selected| < TOTAL
      invariant 0 <= i <= |candidates|
      invariant ToppingUp(candidates, before, st, i)
      invariant AreIdsOf(ids, candidates, st.selected)
    {
      var c := candidates[i];
      IdAdded(candidates, ids, st.selected, i);
      TopUpStep(candidates, before, st, i);
      if c.id !in ids && IsLarge(c.repo) {
        st := st.Add(c);
        ids := ids + {c.id};
      }
      i := i + 1;
    }
    TakeDone(candidates, before.selected, InLarge, TOTAL - |before.selected|, i);
  }

  // ----- what the selection achieves -----

  ghost predicate IsOrder(order: seq<Repo>) {
    && (forall r: Repo :: r in order)
    && (forall i, j :: 0 <= i < j < |order| ==> order[i] != order[j])
  }

  /** Within the quotas of repositories and tiers. */
  ghost predicate Within(st: Selection, candidates: seq<Candidate>) {
    && HasTiers(st)
    && (forall r: Repo :: st.RepoCount(r) <= Need(candidates, r))
    && (forall t: Tier :: t in st.tierCounts ==> st.TierCount(t) <= TIER_QUOTA)
  }

  lemma FilledTierWithin(candidates: seq<Candidate>, st: Selection, r: Repo, t: Tier)
    requires Within(st, candidates) && t in st.tierCounts
    ensures Within(FilledTier(candidates, st, r, t, Need(candidates, r)), candidates)
  {
    var need := Need(candidates, r);
    var s := FilledTier(candidates, st, r, t, need);
    FilledTierHas(candidates, st, r, t, need);
    forall q: Repo ensures s.RepoCount(q) <= Need(candidates, q) { FilledTierRepo(candidates, st, r, t, need, q); }
    forall u: Tier | u in s.tierCounts ensures s.TierCount(u) <= TIER_QUOTA {
      FilledTierTier(candidates, st, r, t, need, u);
    }
  }

  lemma FilledTiersWithin(candidates: seq<Candidate>, st: Selection, r: Repo)
    requires Within(st, candidates)
    ensures Within(FilledTiers(candidates, st, r, Need(candidates, r)), candidates)
  {
    var need := Need(candidates, r);
    FilledTierWithin(candidates, st, r, Hard);
    var hard := FilledTier(candidates, st, r, Hard, need);
    FilledTierWithin(candidates, hard, r, Medium);
    FilledTierWithin(candidates, FilledTier(candidates, hard, r, Medium, need), r, Easy);
  }

  lemma FilledTiersSound(candidates: seq<Candidate>, st: Selection, r: Repo, need: nat)
    requires DistinctIds(candidates) && Sound(st, candidates)
    ensures Sound(FilledTiers(candidates, st, r, need), candidates)
  {
    TakeSound(candidates, st, InTier(r, Hard), TierRoom(st, r, Hard, need));
    var hard := FilledTier(candidates, st, r, Hard, need);
    TakeSound(candidates, hard, InTier(r, Medium), TierRoom(hard, r, Medium, need));
    var medium := FilledTier(candidates, hard, r, Medium, need);
    TakeSound(candidates, medium, InTier(r, Easy), TierRoom(medium, r, Easy, need));
  }

  lemma FilledTiersSettle(candidates: seq<Candidate>, st: Selection, r: Repo, need: nat, t: Tier)
    requires HasTiers(st) && t in {Easy, Medium, Hard}
    ensures Settled(FilledTiers(candidates, st, r, need), candidates, r, t, need)
  {
    FilledTiersHas(candidates, st, r, need);
    var hard := FilledTier(candidates, st, r, Hard, need);
    var medium := FilledTier(candidates, hard, r, Medium, need);
    if t == Hard {
      FilledTierSettles(candidates, st, r, Hard, need);
      SettledStays(candidates, hard, r, Hard, need, r, Medium, need);
      SettledStays(candidates, medium, r, Hard, need, r, Easy, need);
    } else if t == Medium {
      FilledTierSettles(candidates, hard, r, Medium, need);
      SettledStays(candidates, medium, r, Medium, need, r, Easy, need);
    } else {
      FilledTierSettles(candidates, medium, r, Easy, need);
    }
  }

  lemma SettledStaysAll(candidates: seq<Candidate>, st: Selection, r: Repo, t: Tier, need: nat, q: Repo, needed: nat)
    requires HasTiers(st) && Settled(st, candidates, r, t, need)
    ensures Settled(FilledTiers(candidates, st, q, needed), candidates, r, t, need)
  {
    FilledTiersHas(candidates, st, q, needed);
    var hard := FilledTier(candidates, st, q, Hard, needed);
    var medium := FilledTier(candidates, hard, q, Medium, needed);
    SettledStays(candidates, st, r, t, need, q, Hard, needed);
    SettledStays(candidates, hard, r, t, need, q, Medium, needed);
    SettledStays(candidates, medium, r, t, need, q, Easy, needed);
  }

  lemma StartWithin(candidates: seq<Candidate>)
    ensures Within(Start(), candidates)
  {
  }

  /** The first pass stays within all quotas, counting right. */
  lemma {:induction false} FirstPassWithin(candidates: seq<Candidate>, order: seq<Repo>)
    requires DistinctIds(candidates)
    ensures Sound(AfterFirst(candidates, order), candidates) && Within(AfterFirst(candidates, order), candidates)
  {
    if order == [] {
      StartSound(candidates);
      StartWithin(candidates);
    } else {
      var front, r := order[..|order| - 1], order[|order| - 1];
      FirstPassWithin(candidates, front);
      FilledTiersSound(candidates, AfterFirst(candidates, front), r, Need(candidates, r));
      FilledTiersWithin(candidates, AfterFirst(candidates, front), r);
    }
  }

  /** It leaves no candidate of a repository and tier while both have room. */
  lemma {:induction false} FirstPassMaximal(candidates: seq<Candidate>, order: seq<Repo>, r: Repo, t: Tier)
    requires DistinctIds(candidates) && r in order && t in {Easy, Medium, Hard}
    ensures Settled(AfterFirst(candidates, order), candidates, r, t, Need(candidates, r))
  {
    var front, last := order[..|order| - 1], order[|order| - 1];
    assert order == front + [last];
    FirstPassWithin(candidates, front);
    if r == last {
      FilledTiersSettle(candidates, AfterFirst(candidates, front), r, Need(candidates, r), t);
    } else {
      FirstPassMaximal(candidates, front, r, t);
      SettledStaysAll(candidates, AfterFirst(candidates, front), r, t, Need(candidates, r), last, Need(candidates, last));
    }
  }

  lemma FilledRepoOther(candidates: seq<Candidate>, st: Selection, r: Repo, need: nat, q: Repo)
    requires q != r
    ensures FilledRepo(candidates, st, r, need).RepoCount(q) == st.RepoCount(q)
  {
    var added := Take(Eligible(candidates, st.selected, InRepo(r)), need - st.RepoCount(r));
    EligibleIn(candidates, st.selected, InRepo(r), added);
    AddAllRepo(st, added, q);
  }

  lemma SameRepoSet(candidates: seq<Candidate>, st: Selection, r: Repo)
    requires Sound(st, candidates)
    requires forall c :: c in candidates && c.repo == r ==> c in st.selected
    ensures st.RepoCount(r) == Available(candidates, r)
  {
    assert OfRepo(st.selected, r) == OfRepo(candidates, r);
  }

  lemma AllTaken(candidates: seq<Candidate>, st: Selection, want: Want, n: int, c: Candidate)
    requires var eligible := Eligible(candidates, st.selected, want); |Take(eligible, n)| < n
    requires c in candidates && Fits(c, want)
    ensures c in AddAll(st, Take(Eligible(candidates, st.selected, want), n)).selected
  {
    EligibleMembers(candidates, st.selected, want, c);
    AddAllSelected(st, Take(Eligible(candidates, st.selected, want), n));
  }

  lemma FilledRepoExact(candidates: seq<Candidate>, st: Selection, r: Repo)
    requires DistinctIds(candidates) && Sound(st, candidates) && st.RepoCount(r) <= Need(candidates, r)
    ensures FilledRepo(candidates, st, r, Need(candidates, r)).RepoCount(r) == Need(candidates, r)
  {
    var room := Need(candidates, r) - st.RepoCount(r);
    var added := Take(Eligible(candidates, st.selected, InRepo(r)), room);
    var s := AddAll(st, added);
    EligibleIn(candidates, st.selected, InRepo(r), added);
    AddAllRepo(st, added, r);
    if |added| < room {
      TakeSound(candidates, st, InRepo(r), room);
      forall c | c in candidates && c.repo == r ensures c in s.selected { AllTaken(candidates, st, InRepo(r), room, c); }
      SameRepoSet(candidates, s, r);
    }
  }

  lemma SecondStep(candidates: seq<Candidate>, s: Selection, last: Repo, r: Repo)
    requires DistinctIds(candidates) && Sound(s, candidates) && s.RepoCount(last) <= Need(candidates, last)
    ensures var next := FilledRepo(candidates, s, last, Need(candidates, last));
            Sound(next, candidates) && next.RepoCount(r) == if r == last then Need(candidates, r) else s.RepoCount(r)
  {
    TakeSound(candidates, s, InRepo(last), Need(candidates, last) - s.RepoCount(last));
    if r == last {
      FilledRepoExact(candidates, s, r);
    } else {
      FilledRepoOther(candidates, s, last, Need(candidates, last), r);
    }
  }

  /** After the second pass each repository visited has exactly min(quota, available) cases. */
  lemma {:induction false} SecondPassExact(candidates: seq<Candidate>, st: Selection, order: seq<Repo>, r: Repo)
    requires DistinctIds(candidates) && Sound(st, candidates)
    requires forall q: Repo :: st.RepoCount(q) <= Need(candidates, q)
    ensures Sound(AfterSecond(candidates, st, order), candidates)
    ensures AfterSecond(candidates, st, order).RepoCount(r) == if r in order then Need(candidates, r) else st.RepoCount(r)
  {
    if order != [] {
      var front, last := order[..|order| - 1], order[|order| - 1];
      assert order == front + [last];
      SecondPassExact(candidates, st, front, r);
      SecondPassExact(candidates, st, front, last);
      SecondStep(candidates, AfterSecond(candidates, st, front), last, r);
    }
  }

  /** The third pass: what it may take, and what it must. */
  lemma {:induction false} TierTopUpSound(candidates: seq<Candidate>, st: Selection, whole: seq<Candidate>)
    requires Sound(st, whole) && |st.selected| <= TOTAL && forall i :: 0 <= i < |candidates| ==> candidates[i] in whole
    ensures var s := ToppedUpTiers(candidates, st);
            && Sound(s, whole) && st.selected <= s.selected && |s.selected| <= TOTAL
            && s.RepoCount(Requests) == st.RepoCount(Requests) && s.RepoCount(Flask) == st.RepoCount(Flask)
  {
    if candidates != [] {
      var n := |candidates| - 1;
      var s := ToppedUpTiers(candidates[..n], st);
      TierTopUpSound(candidates[..n], st, whole);
      if TakesForTier(s, candidates[n]) { AddSound(s, whole, candidates[n]); }
    }
  }

  /** Topping up by tiers never takes a tier above its quota. */
  lemma {:induction false} TierTopUpCapped(candidates: seq<Candidate>, st: Selection, t: Tier)
    requires t in st.tierCounts
    ensures var s := ToppedUpTiers(candidates, st);
            t in s.tierCounts && st.TierCount(t) <= s.TierCount(t)
            && (s.TierCount(t) <= TIER_QUOTA || s.TierCount(t) == st.TierCount(t))
  {
    if candidates != [] { TierTopUpCapped(candidates[..|candidates| - 1], st, t); }
  }

  /** It leaves a case of the two large repositories only when there are thirty or the case's tier is full. */
  lemma {:induction false} TierTopUpMaximal(candidates: seq<Candidate>, st: Selection, c: Candidate)
    requires c in candidates && IsLarge(c.repo)
    ensures var s := ToppedUpTiers(candidates, st);
            || c in s.selected || |s.selected| >= TOTAL
            || (c.tier in s.tierCounts && s.TierCount(c.tier) >= TIER_QUOTA)
  {
    var n := |candidates| - 1;
    assert candidates == candidates[..n] + [candidates[n]];
    if c != candidates[n] { TierTopUpMaximal(candidates[..n], st, c); }
  }

  /** The fourth pass. */
  lemma TopUpSound(candidates: seq<Candidate>, st: Selection)
    requires DistinctIds(candidates) && Sound(st, candidates) && |st.selected| <= TOTAL
    ensures var s := ToppedUp(candidates, st);
            && Sound(s, candidates) && st.selected <= s.selected && |s.selected| <= TOTAL
            && s.RepoCount(Requests) == st.RepoCount(Requests) && s.RepoCount(Flask) == st.RepoCount(Flask)
  {
    var n := TOTAL - |st.selected|;
    var added := Take(Eligible(candidates, st.selected, InLarge), n);
    TakeSound(candidates, st, InLarge, n);
    AddAllSelected(st, added);
    EligibleIn(candidates, st.selected, InLarge, added);
    AddAllRepo(st, added, Requests);
    AddAllRepo(st, added, Flask);
  }

  lemma TopUpMaximal(candidates: seq<Candidate>, st: Selection, r: Repo)
    requires DistinctIds(candidates) && Sound(st, candidates) && |st.selected| <= TOTAL && IsLarge(r)
    ensures var s := ToppedUp(candidates, st);
            |s.selected| == TOTAL || s.RepoCount(r) == Available(candidates, r)
  {
    var n := TOTAL - |st.selected|;
    var added := Take(Eligible(candidates, st.selected, InLarge), n);
    TopUpSound(candidates, st);
    AddAllSelected(st, added);
    if |added| < n {
      forall c | c in candidates && c.repo == r ensures c in ToppedUp(candidates, st).selected {
        AllTaken(candidates, st, InLarge, n, c);
      }
      SameRepoSet(candidates, ToppedUp(candidates, st), r);
    }
  }

  lemma {:induction false} SizeIsSum(s: seq<Candidate>)
    requires NoDuplicates(s)
    ensures |s| == |OfRepo(s, Django)| + |OfRepo(s, Sklearn)| + |OfRepo(s, Requests)| + |OfRepo(s, Flask)|
  {
    if s == [] {
      assert OfRepo(s, Django) == {} && OfRepo(s, Sklearn) == {} && OfRepo(s, Requests) == {} && OfRepo(s, Flask) == {};
    } else {
      var front, last := s[..|s| - 1], s[|s| - 1];
      SizeIsSum(front);
      assert s == front + [last];
      RepoGrows(front, last, Django);
      RepoGrows(front, last, Sklearn);
      RepoGrows(front, last, Requests);
      RepoGrows(front, last, Flask);
    }
  }

  lemma SizeOf(st: Selection, candidates: seq<Candidate>)
    requires Sound(st, candidates)
    ensures |st.selected| == st.RepoCount(Django) + st.RepoCount(Sklearn) + st.RepoCount(Requests) + st.RepoCount(Flask)
  {
    SizeIsSum(st.selected);
  }

  lemma AtMostAvailable(st: Selection, candidates: seq<Candidate>, r: Repo)
    requires Sound(st, candidates)
    ensures st.RepoCount(r) <= Available(candidates, r)
  {
    var a, b := OfRepo(st.selected, r), OfRepo(candidates, r);
    assert a <= b;
    assert b == a + (b - a) && |b| == |a| + |b - a|;
  }

  ghost function TwoPasses(candidates: seq<Candidate>, order: seq<Repo>): Selection {
    AfterSecond(candidates, AfterFirst(candidates, order), order)
  }

  ghost function FinalSelection(candidates: seq<Candidate>, order: seq<Repo>): Selection {
    ToppedUp(candidates, ToppedUpTiers(candidates, TwoPasses(candidates, order)))
  }

  /** How many cases there will be. */
  ghost function FinalSize(candidates: seq<Candidate>): nat {
    Min(TOTAL, Available(candidates, Django) + Available(candidates, Sklearn)
             + Min(6, Available(candidates, Requests)) + Min(6, Available(candidates, Flask)))
  }

  lemma TwoPassesExact(candidates: seq<Candidate>, order: seq<Repo>, r: Repo)
    requires DistinctIds(candidates) && IsOrder(order)
    ensures Sound(TwoPasses(candidates, order), candidates)
    ensures TwoPasses(candidates, order).RepoCount(r) == Need(candidates, r)
  {
    FirstPassWithin(candidates, order);
    SecondPassExact(candidates, AfterFirst(candidates, order), order, r);
  }

  lemma TwoPassesSize(candidates: seq<Candidate>, order: seq<Repo>)
    requires DistinctIds(candidates) && IsOrder(order)
    ensures |TwoPasses(candidates, order).selected| <= TOTAL
  {
    TwoPassesExact(candidates, order, Django);
    TwoPassesExact(candidates, order, Sklearn);
    TwoPassesExact(candidates, order, Requests);
    TwoPassesExact(candidates, order, Flask);
    SizeOf(TwoPasses(candidates, order), candidates);
  }

  /** The final selection: no duplicates, only candidates, the small repositories at their quota, and its exact size. */
  lemma SelectionSize(candidates: seq<Candidate>, order: seq<Repo>)
    requires DistinctIds(candidates) && IsOrder(order)
    ensures var st := FinalSelection(candidates, order);
            && Sound(st, candidates)
            && st.RepoCount(Requests) == Need(candidates, Requests)
            && st.RepoCount(Flask) == Need(candidates, Flask)
            && |st.selected| == FinalSize(candidates)
  {
    var two := TwoPasses(candidates, order);
    var three := ToppedUpTiers(candidates, two);
    var four := ToppedUp(candidates, three);
    TwoPassesExact(candidates, order, Requests);
    TwoPassesExact(candidates, order, Flask);
    TwoPassesSize(candidates, order);
    TierTopUpSound(candidates, two, candidates);
    TopUpSound(candidates, three);
    TopUpMaximal(candidates, three, Django);
    TopUpMaximal(candidates, three, Sklearn);
    SizeOf(four, candidates);
    AtMostAvailable(four, candidates, Django);
    AtMostAvailable(four, candidates, Sklearn);
  }

  /** The selection of the four passes, over the candidates and the repositories in any order. */
  method Select(candidates: seq<Candidate>, order: seq<Repo>) returns (st: Selection)
    requires DistinctIds(candidates) && IsOrder(order)
    ensures st == FinalSelection(candidates, order)
  {
    var need := EffectiveQuotas(candidates);
    st := FirstPass(candidates, order, need);
    st := SecondPass(candidates, st, order, need);
    TwoPassesExact(candidates, order, Django);
    TwoPassesSize(candidates, order);
    TierTopUpSound(candidates, st, candidates);
    if |st.selected| < TOTAL { st := TopUpTiers(candidates, st); } else { NoneTakenWhenFull(candidates, st, 0); }
    if |st.selected| < TOTAL { st := TopUp(candidates, st); }
  }

  // ----- the selection in numbers -----

  /** The candidates of a repository, by their places. */
  ghost function PlacesIn(candidates: seq<Candidate>, r: Repo): set<int> {
    set i | 0 <= i < |candidates| && candidates[i].repo == r
  }

  lemma PlacesOneMore(front: seq<Candidate>, c: Candidate, r: Repo)
    ensures |PlacesIn(front + [c], r)| == |PlacesIn(front, r)| + if c.repo == r then 1 else 0
  {
    var before, after := PlacesIn(front, r), PlacesIn(front + [c], r);
    if c.repo == r {
      assert after == before + {|front|};
    } else {
      assert after == before;
    }
  }

  lemma {:induction false} AvailableAreCounted(candidates: seq<Candidate>, r: Repo)
    requires DistinctIds(candidates)
    ensures Available(candidates, r) == |PlacesIn(candidates, r)|
  {
    if candidates == [] {
      assert PlacesIn(candidates, r) == {} && OfRepo(candidates, r) == {};
    } else {
      var front, c := candidates[..|candidates| - 1], candidates[|candidates| - 1];
      AvailableAreCounted(front, r);
      assert candidates == front + [c];
      assert c !in front;
      RepoGrows(front, c, r);
      PlacesOneMore(front, c, r);
    }
  }

  /** The first two passes give each repository its quota of 9, 9, 6 and 6, or all it has. */
  lemma TwoPassesInNumbers(candidates: seq<Candidate>, order: seq<Repo>)
    requires DistinctIds(candidates) && IsOrder(order)
    ensures var st := TwoPasses(candidates, order);
            && st.RepoCount(Django) == Min(9, |PlacesIn(candidates, Django)|)
            && st.RepoCount(Sklearn) == Min(9, |PlacesIn(candidates, Sklearn)|)
            && st.RepoCount(Requests) == Min(6, |PlacesIn(candidates, Requests)|)
            && st.RepoCount(Flask) == Min(6, |PlacesIn(candidates, Flask)|)
  {
    forall r: Repo ensures TwoPasses(candidates, order).RepoCount(r) == Min(RepoQuota(r), |PlacesIn(candidates, r)|) {
      TwoPassesExact(candidates, order, r);
      AvailableAreCounted(candidates, r);
    }
  }

  /** All four passes together select thirty, or as many as they may. */
  lemma SelectionInNumbers(candidates: seq<Candidate>, order: seq<Repo>)
    requires DistinctIds(candidates) && IsOrder(order)
    ensures |FinalSelection(candidates, order).selected| ==
            Min(30, |PlacesIn(candidates, Django)| + |PlacesIn(candidates, Sklearn)|
                    + Min(6, |PlacesIn(candidates, Requests)|) + Min(6, |PlacesIn(candidates, Flask)|))
  {
    SelectionSize(candidates, order);
    AvailableAreCounted(candidates, Django);
    AvailableAreCounted(candidates, Sklearn);
    AvailableAreCounted(candidates, Requests);
    AvailableAreCounted(candidates, Flask);
  }

  lemma FilledTierOnly(candidates: seq<Candidate>, st: Selection, r: Repo, t: Tier, need: nat)
    ensures var s := FilledTier(candidates, st, r, t, need);
            && (forall x :: x in st.selected ==> x in s.selected)
            && (forall x :: x in s.selected ==> x in st.selected || x.tier == t)
            && (st.RepoCount(r) >= need ==> s == st)
  {
    var added := Take(Eligible(candidates, st.selected, InTier(r, t)), TierRoom(st, r, t, need));
    EligibleIn(candidates, st.selected, InTier(r, t), added);
    AddAllSelected(st, added);
  }

  /** A tier that is not full and has a candidate left did not leave it for want of room in the tier. */
  lemma LeftForTheRepo(candidates: seq<Candidate>, st: Selection, r: Repo, t: Tier, need: nat, c: Candidate)
    requires Settled(st, candidates, r, t, need) && c in candidates && c.repo == r && c.tier == t && c !in st.selected
    ensures st.RepoCount(r) >= need || st.TierCount(t) >= 10
  {
    EligibleMembers(candidates, st.selected, InTier(r, t), c);
  }

  predicate GoesBefore(t: Tier, u: Tier) {
    (t == Hard && (u == Medium || u == Easy)) || (t == Medium && u == Easy)
  }

  /**
   The first pass takes hard cases of a repository before medium ones and those before easy ones: where it
   has left a case and taken one of a later tier, ten of the case's tier are selected.
   */
  lemma HardComesFirst(candidates: seq<Candidate>, st: Selection, r: Repo, need: nat, c: Candidate, x: Candidate)
    requires HasTiers(st) && c in candidates && c.repo == r && GoesBefore(c.tier, x.tier)
    requires var s := FilledTiers(candidates, st, r, need);
             c !in s.selected && x in s.selected && x !in st.selected
    ensures FilledTiers(candidates, st, r, need).TierCount(c.tier) >= 10
  {
    var hard := FilledTier(candidates, st, r, Hard, need);
    var medium := FilledTier(candidates, hard, r, Medium, need);
    FilledTiersHas(candidates, st, r, need);
    FilledTierOnly(candidates, st, r, Hard, need);
    FilledTierOnly(candidates, hard, r, Medium, need);
    FilledTierOnly(candidates, medium, r, Easy, need);
    if c.tier == Hard {
      FilledTierSettles(candidates, st, r, Hard, need);
      LeftForTheRepo(candidates, hard, r, Hard, need, c);
      FilledTierTier(candidates, hard, r, Medium, need, Hard);
      FilledTierTier(candidates, medium, r, Easy, need, Hard);
    } else {
      FilledTierSettles(candidates, hard, r, Medium, need);
      LeftForTheRepo(candidates, medium, r, Medium, need, c);
      FilledTierTier(candidates, medium, r, Easy, need, Medium);
    }
  }
}
